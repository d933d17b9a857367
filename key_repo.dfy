/** src/repository/key.ts: the API-key table, the active-key rule, and the two queries that
    join keys with users and with billing records. */
module KeyRepository {
  import opened Wrappers
  import opened Seqs
  import opened Domain
  import opened Transformers
  import UserRepository
  import MessageRepository

  /** `CreateKeyData` */
  datatype CreateKeyData = CreateKeyData(
    userId: int, name: string, key: string, isEnabled: Option<bool>, expiresAt: Option<int>)

  /** `UpdateKeyData` */
  datatype UpdateKeyData = UpdateKeyData(name: Field<string>, isEnabled: Field<bool>, expiresAt: Field<int>) {
    predicate IsEmpty() {
      name.Omitted? && isEnabled.Omitted? && expiresAt.Omitted?
    }
  }

  predicate LiveKeyWithId(r: KeyRow, id: int) {
    r.id == id && r.deletedAt.None?
  }

  predicate LiveOfUser(r: KeyRow, userId: int) {
    r.userId == userId && r.deletedAt.None?
  }

  /** The SQL filter shared by the active-key queries: not deleted, `is_enabled = true` (a NULL
      flag does not match), and no expiry or an expiry later than `now`. */
  predicate IsActive(r: KeyRow, now: int) {
    r.deletedAt.None? && r.isEnabled == Some(true) && (r.expiresAt.None? || r.expiresAt.value > now)
  }

  /** The position of the live row with that id. */
  function LiveKeyIndex(rows: seq<KeyRow>, id: int): (r: Option<nat>)
    ensures r.Some? ==> r.value < |rows| && LiveKeyWithId(rows[r.value], id)
    ensures r.Some? ==> forall j :: 0 <= j < r.value ==> !LiveKeyWithId(rows[j], id)
    ensures r.None? <==> forall j :: 0 <= j < |rows| ==> !LiveKeyWithId(rows[j], id)
  {
    if rows == [] then None
    else if LiveKeyWithId(rows[0], id) then Some(0)
    else match LiveKeyIndex(rows[1..], id)
      case None => None
      case Some(i) => Some(i + 1)
  }

  /** The selection of the user's live keys. */
  function LiveOf(userId: int): KeyRow -> bool {
    (k: KeyRow) => LiveOfUser(k, userId)
  }

  /** The row after a non-empty update at time `now`. */
  function PatchKey(r: KeyRow, patch: UpdateKeyData, now: int): (u: KeyRow)
    ensures u.id == r.id && u.userId == r.userId && u.key == r.key
    ensures u.createdAt == r.createdAt && u.deletedAt == r.deletedAt && u.updatedAt == now
    ensures u.name == (if patch.name.Given? then patch.name.value else r.name)
    ensures u.isEnabled == (if patch.isEnabled.Given? then Some(patch.isEnabled.value) else r.isEnabled)
    ensures u.expiresAt == (if patch.expiresAt.Given? then Some(patch.expiresAt.value) else r.expiresAt)
  {
    r.(name := patch.name.Or(r.name, x => x),
       isEnabled := patch.isEnabled.Or(r.isEnabled, x => Some(x)),
       expiresAt := patch.expiresAt.Or(r.expiresAt, x => Some(x)),
       updatedAt := now)
  }

  function KeyCreatedAt(r: KeyRow): int {
    r.createdAt
  }

  /** The user's live keys in insertion order, as `findKeyList` selects them. */
  function UserKeys(rows: seq<KeyRow>, userId: int): (r: seq<Key>)
    requires SortedBy(rows, KeyCreatedAt) && StrictlySortedBy(rows, KeyIdOf)
    ensures forall i :: 0 <= i < |r| ==> r[i].userId == userId && r[i].deletedAt.None?
    ensures forall i :: 0 <= i < |rows| && LiveOfUser(rows[i], userId) ==> ToKey(rows[i]) in r
    ensures forall i :: 0 <= i < |r| ==> exists j :: 0 <= j < |rows| && LiveOfUser(rows[j], userId) && r[i] == ToKey(rows[j])
    ensures |r| == CountWhere(rows, LiveOf(userId))
    ensures forall i, j :: 0 <= i < j < |r| ==> r[i].createdAt <= r[j].createdAt
    ensures forall i, j :: 0 <= i < j < |r| ==> r[i].id < r[j].id
  {
    FilterKeepsSorted(rows, LiveOf(userId), KeyCreatedAt);
    FilterKeepsStrictlySorted(rows, LiveOf(userId), KeyIdOf);
    Map(Filter(rows, LiveOf(userId)), ToKey)
  }

  function KeyIdOf(r: KeyRow): int {
    r.id
  }

  /** One entry of `findKeyUsageToday`. */
  datatype KeyUsage = KeyUsage(keyId: int, totalCost: real)

  class KeyTable {
    var rows: seq<KeyRow>
    var nextId: int

    ghost predicate Valid()
      reads this
    {
      nextId >= 1
      && (forall i :: 0 <= i < |rows| ==> 1 <= rows[i].id < nextId)
      && (forall i, j :: 0 <= i < j < |rows| ==> rows[i].id < rows[j].id && rows[i].createdAt <= rows[j].createdAt)
    }

    predicate CanInsertAt(now: int)
      reads this
    {
      rows == [] || rows[|rows| - 1].createdAt <= now
    }

    constructor ()
      ensures Valid() && rows == [] && nextId == 1
    {
      rows, nextId := [], 1;
    }

    /** `findKeyById`: deleted keys are not found. */
    function FindKeyById(id: int): (r: Option<Key>)
      reads this
      ensures r.Some? <==> exists i :: 0 <= i < |rows| && LiveKeyWithId(rows[i], id)
      ensures r.Some? ==> r.value.id == id && r.value.deletedAt.None?
      ensures r.Some? ==> exists i :: 0 <= i < |rows| && LiveKeyWithId(rows[i], id) && r.value == ToKey(rows[i])
    {
      match LiveKeyIndex(rows, id)
      case Some(i) => Some(ToKey(rows[i]))
      case None => None
    }

    /** `findKeyList`: the user's live keys, oldest first. */
    function FindKeyList(userId: int): (r: seq<Key>)
      reads this
      requires Valid()
      ensures forall i :: 0 <= i < |r| ==> r[i].userId == userId && r[i].deletedAt.None?
      ensures r == UserKeys(rows, userId)
    {
      assert SortedBy(rows, KeyCreatedAt) && StrictlySortedBy(rows, KeyIdOf);
      UserKeys(rows, userId)
    }

    method CreateKey(data: CreateKeyData, now: int) returns (key: Key)
      requires Valid() && CanInsertAt(now)
      modifies this
      ensures Valid() && nextId == old(nextId) + 1
      ensures rows == old(rows) + [KeyRow(old(nextId), data.userId, data.name, data.key,
                                          data.isEnabled, data.expiresAt, now, now, None)]
      ensures key == ToKey(rows[|rows| - 1])
    {
      var row := KeyRow(nextId, data.userId, data.name, data.key, data.isEnabled, data.expiresAt, now, now, None);
      rows := rows + [row];
      nextId := nextId + 1;
      key := ToKey(row);
    }

    /** `updateKey`: an empty patch is a look-up; otherwise only the given fields (and
        `updatedAt`) of the live row with that id change. */
    method UpdateKey(id: int, patch: UpdateKeyData, now: int) returns (r: Option<Key>)
      requires Valid()
      modifies this
      ensures Valid() && nextId == old(nextId) && |rows| == |old(rows)|
      ensures patch.IsEmpty() ==> rows == old(rows) && r == old(FindKeyById(id))
      ensures !patch.IsEmpty() ==> forall i :: 0 <= i < |rows| ==>
        rows[i] == if LiveKeyWithId(old(rows)[i], id) then PatchKey(old(rows)[i], patch, now) else old(rows)[i]
      ensures r.None? <==> old(FindKeyById(id)).None?
      ensures r.Some? ==> FindKeyById(id).Some? && r.value == FindKeyById(id).value
    {
      if patch.IsEmpty() {
        r := FindKeyById(id);
        return;
      }
      match LiveKeyIndex(rows, id) {
        case None =>
          r := None;
        case Some(i) =>
          rows := rows[i := PatchKey(rows[i], patch, now)];
          r := Some(ToKey(rows[i]));
          assert LiveKeyIndex(rows, id) == Some(i);
      }
    }

    /** `deleteKey`: soft delete; true iff a live row existed. */
    method DeleteKey(id: int, now: int) returns (deleted: bool)
      requires Valid()
      modifies this
      ensures Valid() && nextId == old(nextId) && |rows| == |old(rows)|
      ensures deleted <==> old(FindKeyById(id)).Some?
      ensures forall i :: 0 <= i < |rows| ==>
        rows[i] == if LiveKeyWithId(old(rows)[i], id) then old(rows)[i].(deletedAt := Some(now)) else old(rows)[i]
      ensures FindKeyById(id).None?
      ensures rows == match LiveKeyIndex(old(rows), id)
                      case None => old(rows)
                      case Some(i) => old(rows)[i := old(rows)[i].(deletedAt := Some(now))]
    {
      match LiveKeyIndex(rows, id) {
        case None =>
          deleted := false;
        case Some(i) =>
          rows := rows[i := rows[i].(deletedAt := Some(now))];
          deleted := true;
      }
    }

    /** `findActiveKeyByUserIdAndName` */
    function FindActiveKeyByUserIdAndName(userId: int, name: string, now: int): (r: Option<Key>)
      reads this
      ensures r.None? <==> forall i :: 0 <= i < |rows| ==>
        !(rows[i].userId == userId && rows[i].name == name && IsActive(rows[i], now))
      ensures r.Some? ==>
        exists i :: 0 <= i < |rows| && rows[i].userId == userId
          && rows[i].name == name && IsActive(rows[i], now) && r.value == ToKey(rows[i])
    {
      match FirstIndex(rows, (k: KeyRow) => k.userId == userId && k.name == name && IsActive(k, now))
      case Some(i) => Some(ToKey(rows[i]))
      case None => None
    }

    /** `findActiveKeyByKeyString` */
    function FindActiveKeyByKeyString(keyString: string, now: int): (r: Option<Key>)
      reads this
      ensures r.None? <==> forall i :: 0 <= i < |rows| ==> !(rows[i].key == keyString && IsActive(rows[i], now))
      ensures r.Some? ==> r.value.key == keyString && r.value.isEnabled && r.value.deletedAt.None?
      ensures r.Some? ==> r.value.expiresAt.None? || r.value.expiresAt.value > now
      ensures r.Some? ==> exists i :: 0 <= i < |rows| && rows[i].key == keyString && IsActive(rows[i], now) && r.value == ToKey(rows[i])
    {
      match FirstIndex(rows, (k: KeyRow) => k.key == keyString && IsActive(k, now))
      case Some(i) => Some(ToKey(rows[i]))
      case None => None
    }

    /** `countActiveKeysByUser`: live keys, whatever their flag or expiry. */
    function CountActiveKeysByUser(userId: int): (n: nat)
      reads this
      requires Valid()
      ensures n == |FindKeyList(userId)|
      ensures n == 0 <==> forall i :: 0 <= i < |rows| ==> !LiveOfUser(rows[i], userId)
    {
      CountWhere(rows, LiveOf(userId))
    }
  }

  /** The sum of the non-null costs (SQL `SUM` skips NULLs), or 0 when there are none. */
  function SumCosts(ms: seq<MessageRow>): real {
    if ms == [] then 0.0 else ms[0].costUsd.GetOr(0.0) + SumCosts(ms[1..])
  }

  predicate CountsToday(m: MessageRow, key: string, dayStart: int, dayEnd: int) {
    m.key == key && m.deletedAt.None? && dayStart <= m.createdAt < dayEnd
  }

  /** What the key `key` spent between `dayStart` and `dayEnd`: the costs of its live billing
      records created in that interval. */
  function DayCost(billed: seq<MessageRow>, key: string, dayStart: int, dayEnd: int): real {
    SumCosts(Filter(billed, (m: MessageRow) => CountsToday(m, key, dayStart, dayEnd)))
  }

  /** `findKeyUsageToday`: one entry per live key of the user, in the order of `findKeyList`,
      holding what it spent between the start of today (`dayStart`) and of tomorrow (`dayEnd`). */
  function FindKeyUsageToday(keys: KeyTable, messages: MessageRepository.MessageTable, userId: int, dayStart: int, dayEnd: int)
    : (r: seq<KeyUsage>)
    reads keys, messages
    requires keys.Valid()
    ensures |r| == keys.CountActiveKeysByUser(userId)
    ensures forall i :: 0 <= i < |r| ==> r[i].keyId == keys.FindKeyList(userId)[i].id
    ensures forall i :: 0 <= i < |r| ==>
      r[i].totalCost == DayCost(messages.rows, keys.FindKeyList(userId)[i].key, dayStart, dayEnd)
  {
    var billed := messages.rows;
    Map(keys.FindKeyList(userId), (k: Key) => KeyUsage(k.id, DayCost(billed, k.key, dayStart, dayEnd)))
  }

  /** Costs are never negative in the store, so neither is a day's usage. */
  lemma {:induction false} SumCostsNonNegative(ms: seq<MessageRow>)
    requires forall i :: 0 <= i < |ms| ==> ms[i].costUsd.GetOr(0.0) >= 0.0
    ensures SumCosts(ms) >= 0.0
  {
    if ms != [] {
      SumCostsNonNegative(ms[1..]);
    }
  }

  /** A key without a costed record today has spent 0. */
  lemma {:induction false} SumCostsOfUncosted(ms: seq<MessageRow>)
    requires forall i :: 0 <= i < |ms| ==> ms[i].costUsd.None?
    ensures SumCosts(ms) == 0.0
  {
    if ms != [] {
      SumCostsOfUncosted(ms[1..]);
    }
  }

  /** A billing record written later adds its cost to its key's usage for the day it falls in. */
  lemma {:induction false} SumCostsAppend(ms: seq<MessageRow>, m: MessageRow)
    ensures SumCosts(ms + [m]) == SumCosts(ms) + m.costUsd.GetOr(0.0)
  {
    if ms == [] {
      assert ms + [m] == [m];
    } else {
      assert (ms + [m])[1..] == ms[1..] + [m];
      SumCostsAppend(ms[1..], m);
    }
  }

  /** The first active key with that string whose owner is a live user. */
  function FirstOwnedActiveKey(candidates: seq<KeyRow>, users: UserRepository.UserTable, keyString: string, now: int)
    : (r: Option<(User, Key)>)
    reads users
    ensures r.Some? ==>
      exists i :: 0 <= i < |candidates| && candidates[i].key == keyString
        && IsActive(candidates[i], now) && users.FindUserById(candidates[i].userId) == Some(r.value.0)
        && r.value.1 == ToKey(candidates[i])
    ensures r.None? <==> forall i :: 0 <= i < |candidates| ==>
      !(candidates[i].key == keyString && IsActive(candidates[i], now) && users.FindUserById(candidates[i].userId).Some?)
  {
    if candidates == [] then None
    else
      var k := candidates[0];
      if k.key == keyString && IsActive(k, now) && users.FindUserById(k.userId).Some?
      then Some((users.FindUserById(k.userId).value, ToKey(k)))
      else
        var r := FirstOwnedActiveKey(candidates[1..], users, keyString, now);
        assert r.Some? ==>
          exists i :: 0 <= i < |candidates| && candidates[i].key == keyString
            && IsActive(candidates[i], now) && users.FindUserById(candidates[i].userId) == Some(r.value.0)
            && r.value.1 == ToKey(candidates[i])
        by {
            if r.Some? {
              var i :| 0 <= i < |candidates[1..]| && candidates[1..][i].key == keyString
                && IsActive(candidates[1..][i], now) && users.FindUserById(candidates[1..][i].userId) == Some(r.value.0)
                && r.value.1 == ToKey(candidates[1..][i]);
              assert candidates[i + 1] == candidates[1..][i];
            }
          }
        r
  }

  /** `validateApiKeyAndGetUser`: an active key joined with its owner, who must not be deleted. */
  function ValidateApiKeyAndGetUser(keys: KeyTable, users: UserRepository.UserTable, keyString: string, now: int)
    : (r: Option<(User, Key)>)
    reads keys, users
    ensures r.Some? ==> r.value.1.key == keyString && r.value.1.isEnabled && r.value.1.deletedAt.None?
    ensures r.Some? ==> r.value.1.expiresAt.None? || r.value.1.expiresAt.value > now
    ensures r.Some? ==> r.value.0.id == r.value.1.userId && r.value.0.deletedAt.None?
    ensures r.None? <==> forall i :: 0 <= i < |keys.rows| ==>
      !(keys.rows[i].key == keyString && IsActive(keys.rows[i], now) && users.FindUserById(keys.rows[i].userId).Some?)
  {
    FirstOwnedActiveKey(keys.rows, users, keyString, now)
  }
}
