/** The user table. The user repository's own source is not part of this model; this table
    follows the conventions the key and provider repositories use for theirs: soft delete,
    look-ups that ignore deleted rows, a partial update that writes only the given fields. */
module UserRepository {
  import opened Wrappers
  import opened Seqs
  import opened Domain
  import opened Transformers

  datatype CreateUserData = CreateUserData(
    name: string, description: string, rpm: Option<int>, dailyQuota: Option<real>)

  datatype UpdateUserData = UpdateUserData(
    name: Field<string>, description: Field<string>, rpm: Field<int>, dailyQuota: Field<real>)
  {
    predicate IsEmpty() {
      name.Omitted? && description.Omitted? && rpm.Omitted? && dailyQuota.Omitted?
    }
  }

  predicate LiveUserWithId(r: UserRow, id: int) {
    r.id == id && r.deletedAt.None?
  }

  /** The row after a non-empty update at time `now`. */
  function PatchUser(r: UserRow, patch: UpdateUserData, now: int): (u: UserRow)
    ensures u.id == r.id && u.role == r.role && u.createdAt == r.createdAt && u.deletedAt == r.deletedAt
    ensures u.updatedAt == now
    ensures u.name == (if patch.name.Given? then patch.name.value else r.name)
    ensures u.description == (if patch.description.Given? then Some(patch.description.value) else r.description)
    ensures u.rpm == (if patch.rpm.Given? then Some(patch.rpm.value) else r.rpm)
    ensures u.dailyQuota == (if patch.dailyQuota.Given? then Some(patch.dailyQuota.value) else r.dailyQuota)
  {
    r.(name := patch.name.Or(r.name, x => x),
       description := patch.description.Or(r.description, x => Some(x)),
       rpm := patch.rpm.Or(r.rpm, x => Some(x)),
       dailyQuota := patch.dailyQuota.Or(r.dailyQuota, x => Some(x)),
       updatedAt := now)
  }

  predicate IsLiveUser(r: UserRow) {
    r.deletedAt.None?
  }

  class UserTable {
    var rows: seq<UserRow>
    var nextId: int

    /** Serial ids in insertion order, creation times that never go backwards. */
    ghost predicate Valid()
      reads this
    {
      nextId >= 1
      && (forall i :: 0 <= i < |rows| ==> 1 <= rows[i].id < nextId)
      && (forall i, j :: 0 <= i < j < |rows| ==> rows[i].id < rows[j].id && rows[i].createdAt <= rows[j].createdAt)
    }

    /** The clock reads no earlier than the newest row's creation time. */
    predicate CanInsertAt(now: int)
      reads this
    {
      rows == [] || rows[|rows| - 1].createdAt <= now
    }

    constructor ()
      ensures Valid() && rows == [] && nextId == 1
    {
      rows, nextId := [], 1;
    }

    /** `findUserById`: the live user with that id. */
    function FindUserById(id: int): (r: Option<User>)
      reads this
      ensures r.Some? <==> exists i :: 0 <= i < |rows| && LiveUserWithId(rows[i], id)
      ensures r.Some? ==> r.value.id == id && r.value.deletedAt.None?
      ensures r.Some? ==> exists i :: 0 <= i < |rows| && LiveUserWithId(rows[i], id) && r.value == ToUser(rows[i])
    {
      match FirstIndex(rows, (u: UserRow) => LiveUserWithId(u, id))
      case Some(i) => Some(ToUser(rows[i]))
      case None => None
    }

    /** `findUserList`: every live user, in insertion order. */
    function FindUserList(): (r: seq<User>)
      reads this
      ensures forall i :: 0 <= i < |r| ==> r[i].deletedAt.None?
      ensures forall i :: 0 <= i < |rows| && rows[i].deletedAt.None? ==> ToUser(rows[i]) in r
      ensures forall i :: 0 <= i < |r| ==> exists j :: 0 <= j < |rows| && IsLiveUser(rows[j]) && r[i] == ToUser(rows[j])
      ensures |r| == CountWhere(rows, IsLiveUser)
    {
      Map(Filter(rows, IsLiveUser), ToUser)
    }

    method CreateUser(data: CreateUserData, now: int) returns (user: User)
      requires Valid() && CanInsertAt(now)
      modifies this
      ensures Valid()
      ensures rows == old(rows) + [UserRow(old(nextId), data.name, Some(data.description), None,
                                           data.rpm, data.dailyQuota, now, now, None)]
      ensures nextId == old(nextId) + 1
      ensures user == ToUser(rows[|rows| - 1]) && user.id == old(nextId)
    {
      var row := UserRow(nextId, data.name, Some(data.description), None, data.rpm, data.dailyQuota, now, now, None);
      rows := rows + [row];
      nextId := nextId + 1;
      user := ToUser(row);
    }

    method UpdateUser(id: int, patch: UpdateUserData, now: int) returns (r: Option<User>)
      requires Valid()
      modifies this
      ensures Valid() && nextId == old(nextId) && |rows| == |old(rows)|
      ensures patch.IsEmpty() ==> rows == old(rows) && r == old(FindUserById(id))
      ensures !patch.IsEmpty() ==> forall i :: 0 <= i < |rows| ==>
        rows[i] == if LiveUserWithId(old(rows)[i], id) then PatchUser(old(rows)[i], patch, now) else old(rows)[i]
      ensures r.None? <==> old(FindUserById(id)).None?
      ensures r.Some? ==> r.value.id == id
    {
      if patch.IsEmpty() {
        r := FindUserById(id);
        return;
      }
      match FirstIndex(rows, (u: UserRow) => LiveUserWithId(u, id)) {
        case None =>
          r := None;
        case Some(i) =>
          rows := rows[i := PatchUser(rows[i], patch, now)];
          r := Some(ToUser(rows[i]));
      }
    }

    method DeleteUser(id: int, now: int) returns (deleted: bool)
      requires Valid()
      modifies this
      ensures Valid() && nextId == old(nextId) && |rows| == |old(rows)|
      ensures deleted <==> old(FindUserById(id)).Some?
      ensures forall i :: 0 <= i < |rows| ==>
        rows[i] == if LiveUserWithId(old(rows)[i], id) then old(rows)[i].(deletedAt := Some(now)) else old(rows)[i]
      ensures FindUserById(id).None?
    {
      match FirstIndex(rows, (u: UserRow) => LiveUserWithId(u, id)) {
        case None =>
          deleted := false;
        case Some(i) =>
          rows := rows[i := rows[i].(deletedAt := Some(now))];
          deleted := true;
      }
    }
  }
}
