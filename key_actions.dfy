/** src/actions/keys.ts: adding, editing and removing API keys from the dashboard. A user
    manages their own keys and an admin anyone's; no one can remove a user's last live key. */
module KeyActions {
  import opened Wrappers
  import opened Domain
  import opened Auth
  import opened ActionTypes
  import opened Schemas
  import opened KeyRepository
  import opened Seqs

  const KeyMissing := "密钥不存在"
  const LastKeyKept := "该用户至少需要保留一个可用的密钥，无法删除最后一个密钥"

  function DuplicateName(name: string): string {
    "名为\"" + name + "\"的密钥已存在且正在生效中，请使用不同的名称"
  }

  /** The caller may manage the keys of user `ownerId`: an admin, or that user. */
  predicate MayManage(user: User, ownerId: int) {
    user.role == AdminRole || user.id == ownerId
  }

  /** `{ userId, name, expiresAt? }` as `addKey` receives it. */
  datatype AddKeyInput = AddKeyInput(userId: int, name: string, expiresAt: Option<string>)

  /** `{ generatedKey, name }` */
  datatype AddedKey = AddedKey(generatedKey: string, name: string)

  /** `validatedData.expiresAt ? new Date(validatedData.expiresAt) : undefined`, with the date
      parser as a parameter. */
  function Expiry(expiresAt: Option<string>, toDate: string -> int): (r: Option<int>)
    ensures r.Some? <==> expiresAt.Some? && expiresAt.value != []
  {
    if expiresAt.Some? && expiresAt.value != [] then Some(toDate(expiresAt.value)) else None
  }

  /** No user has two active keys with the same name. */
  ghost predicate ActiveNamesAreUnique(rows: seq<KeyRow>, now: int) {
    forall i, j ::
      0 <= i < j < |rows| && IsActive(rows[i], now) && IsActive(rows[j], now) && rows[i].userId == rows[j].userId
      ==> rows[i].name != rows[j].name
  }

  /** A key whose user has no active key of that name keeps active names unique. */
  lemma AppendKeepsNamesUnique(rows: seq<KeyRow>, row: KeyRow, now: int)
    requires ActiveNamesAreUnique(rows, now)
    requires forall i :: 0 <= i < |rows| ==> !(rows[i].userId == row.userId && rows[i].name == row.name && IsActive(rows[i], now))
    ensures ActiveNamesAreUnique(rows + [row], now)
  {
    var s := rows + [row];
    forall i, j | 0 <= i < j < |s| && IsActive(s[i], now) && IsActive(s[j], now) && s[i].userId == s[j].userId
      ensures s[i].name != s[j].name
    {
      if j == |rows| {
        assert s[i] == rows[i] && s[j] == row;
      } else {
        assert s[i] == rows[i] && s[j] == rows[j];
      }
    }
  }

  /** `addKey(data)`: refused without a session, for another user's account unless admin, for
      an invalid form, and while the user has an active key of that name; otherwise one enabled
      key `sk-<hex>` is stored and returned. `describe` renders the validation error. */
  method AddKey(session: Option<AuthSession>, data: AddKeyInput, keys: KeyTable, hex: string,
                toDate: string -> int, describe: seq<Issue> -> string, now: int) returns (r: ActionResult<AddedKey>)
    requires keys.Valid() && keys.CanInsertAt(now) && IsRandomHex(hex)
    modifies keys
    ensures keys.Valid()
    ensures session.None? ==> r == Failure(NotLoggedIn)
    ensures session.Some? && !MayManage(session.value.user, data.userId) ==> r == Failure(NoPermission)
    ensures var form := ParseKeyForm(KeyFormInput(Some(data.name), data.expiresAt));
      && (session.Some? && MayManage(session.value.user, data.userId) && form.Err? ==> r == Failure(describe(form.error)))
      && (session.Some? && MayManage(session.value.user, data.userId) && form.Ok? ==>
            (if old(keys.FindActiveKeyByUserIdAndName(data.userId, data.name, now)).Some?
             then r == Failure(DuplicateName(data.name))
             else r == Success(AddedKey(NewKeyString(hex), data.name))
                  && keys.rows == old(keys.rows) + [KeyRow(old(keys.nextId), data.userId, data.name, NewKeyString(hex),
                                                           Some(true), Expiry(form.value.expiresAt, toDate), now, now, None)]))
    ensures r.Failure? ==> keys.rows == old(keys.rows) && keys.nextId == old(keys.nextId)
    ensures ActiveNamesAreUnique(old(keys.rows), now) ==> ActiveNamesAreUnique(keys.rows, now)
  {
    if session.None? {
      return Failure(NotLoggedIn);
    }
    if session.value.user.role != AdminRole && session.value.user.id != data.userId {
      return Failure(NoPermission);
    }
    var form := ParseKeyForm(KeyFormInput(Some(data.name), data.expiresAt));
    if form.Err? {
      return Failure(describe(form.error));
    }
    var validated := form.value;
    var existing := keys.FindActiveKeyByUserIdAndName(data.userId, validated.name, now);
    if existing.Some? {
      return Failure(DuplicateName(validated.name));
    }
    var generatedKey := NewKeyString(hex);
    ghost var before := keys.rows;
    var _ := keys.CreateKey(CreateKeyData(data.userId, validated.name, generatedKey, Some(true),
                                          Expiry(validated.expiresAt, toDate)), now);
    if ActiveNamesAreUnique(before, now) {
      AppendKeepsNamesUnique(before, keys.rows[|keys.rows| - 1], now);
    }
    return Success(AddedKey(generatedKey, validated.name));
  }

  /** The patch `editKey` sends: the new name, and the new expiry or `undefined`. */
  function EditPatch(form: KeyFormData, toDate: string -> int): (patch: UpdateKeyData)
    ensures !patch.IsEmpty() && patch.name == Given(form.name) && patch.isEnabled.Omitted?
    ensures patch.expiresAt.Undefined? <==> form.expiresAt.None? || form.expiresAt.value == []
  {
    UpdateKeyData(Given(form.name), Omitted,
                  match Expiry(form.expiresAt, toDate) case Some(t) => Given(t) case None => Undefined)
  }

  /** An edit renames the key and sets or keeps its expiry; its owner, string, flag and
      creation time stay. */
  lemma EditKeepsIdentity(row: KeyRow, form: KeyFormData, toDate: string -> int, now: int)
    ensures var u := PatchKey(row, EditPatch(form, toDate), now);
      && u.id == row.id && u.userId == row.userId && u.key == row.key && u.isEnabled == row.isEnabled
      && u.name == form.name
      && u.expiresAt == (if form.expiresAt.None? || form.expiresAt.value == [] then row.expiresAt else Expiry(form.expiresAt, toDate))
  {
  }

  /** `editKey(keyId, data)`: refused without a session, for a missing key, for someone else's
      key unless admin, and for an invalid form; otherwise the key is renamed and its expiry set
      or kept. */
  method EditKey(session: Option<AuthSession>, keyId: int, name: string, expiresAt: Option<string>, keys: KeyTable,
                 toDate: string -> int, describe: seq<Issue> -> string, now: int) returns (r: ActionResult<()>)
    requires keys.Valid()
    modifies keys
    ensures keys.Valid() && keys.nextId == old(keys.nextId)
    ensures session.None? ==> r == Failure(NotLoggedIn)
    ensures session.Some? && old(keys.FindKeyById(keyId)).None? ==> r == Failure(KeyMissing)
    ensures var key := old(keys.FindKeyById(keyId));
            session.Some? && key.Some? && !MayManage(session.value.user, key.value.userId) ==> r == Failure(NoPermission)
    ensures var key := old(keys.FindKeyById(keyId));
            var form := ParseKeyForm(KeyFormInput(Some(name), expiresAt));
      && (session.Some? && key.Some? && MayManage(session.value.user, key.value.userId) && form.Err? ==> r == Failure(describe(form.error)))
      && (session.Some? && key.Some? && MayManage(session.value.user, key.value.userId) && form.Ok? ==>
            r == Success(()) && |keys.rows| == |old(keys.rows)|
            && forall i :: 0 <= i < |keys.rows| ==>
                 keys.rows[i] == if LiveKeyWithId(old(keys.rows)[i], keyId)
                                 then PatchKey(old(keys.rows)[i], EditPatch(form.value, toDate), now)
                                 else old(keys.rows)[i])
    ensures r.Failure? ==> keys.rows == old(keys.rows)
  {
    if session.None? {
      return Failure(NotLoggedIn);
    }
    var key := keys.FindKeyById(keyId);
    if key.None? {
      return Failure(KeyMissing);
    }
    if session.value.user.role != AdminRole && session.value.user.id != key.value.userId {
      return Failure(NoPermission);
    }
    var form := ParseKeyForm(KeyFormInput(Some(name), expiresAt));
    if form.Err? {
      return Failure(describe(form.error));
    }
    var _ := keys.UpdateKey(keyId, EditPatch(form.value, toDate), now);
    return Success(());
  }

  /** The live-key count of every user after row `i`, a live key of `owner`, is deleted. */
  lemma DeletionCounts(rows: seq<KeyRow>, i: nat, now: int, owner: int, userId: int)
    requires i < |rows| && LiveOfUser(rows[i], owner)
    ensures CountWhere(rows[i := rows[i].(deletedAt := Some(now))], LiveOf(userId))
         == CountWhere(rows, LiveOf(userId)) - (if userId == owner then 1 else 0)
  {
    CountWhereUpdate(rows, i, rows[i].(deletedAt := Some(now)), LiveOf(userId));
  }

  /** `removeKey(keyId)`: refused without a session, for a missing key, for someone else's key
      unless admin, and when the owner has at most one live key; otherwise the key is
      soft-deleted. So no user who had a live key is left without one. */
  method RemoveKey(session: Option<AuthSession>, keyId: int, keys: KeyTable, now: int) returns (r: ActionResult<()>)
    requires keys.Valid()
    modifies keys
    ensures keys.Valid() && keys.nextId == old(keys.nextId)
    ensures session.None? ==> r == Failure(NotLoggedIn)
    ensures session.Some? && old(keys.FindKeyById(keyId)).None? ==> r == Failure(KeyMissing)
    ensures var key := old(keys.FindKeyById(keyId));
      && (session.Some? && key.Some? && !MayManage(session.value.user, key.value.userId) ==> r == Failure(NoPermission))
      && (session.Some? && key.Some? && MayManage(session.value.user, key.value.userId) ==>
            if old(keys.CountActiveKeysByUser(key.value.userId)) <= 1 then r == Failure(LastKeyKept)
            else r == Success(()) && keys.FindKeyById(keyId).None?)
    ensures r.Failure? ==> keys.rows == old(keys.rows)
    ensures forall u :: keys.CountActiveKeysByUser(u)
                        == old(keys.CountActiveKeysByUser(u)) - (if r.Success? && u == old(keys.FindKeyById(keyId)).value.userId then 1 else 0)
    ensures forall u :: old(keys.CountActiveKeysByUser(u)) >= 1 ==> keys.CountActiveKeysByUser(u) >= 1
  {
    if session.None? {
      return Failure(NotLoggedIn);
    }
    var key := keys.FindKeyById(keyId);
    if key.None? {
      return Failure(KeyMissing);
    }
    if session.value.user.role != AdminRole && session.value.user.id != key.value.userId {
      return Failure(NoPermission);
    }
    var activeKeyCount := keys.CountActiveKeysByUser(key.value.userId);
    if activeKeyCount <= 1 {
      return Failure(LastKeyKept);
    }
    SoftDelete(keys, keyId, key.value.userId, now);
    return Success(());
  }

  /** `deleteKey` on a live key of `owner`: the owner has one live key fewer, everyone else
      as many as before. */
  method SoftDelete(keys: KeyTable, keyId: int, owner: int, now: int)
    requires keys.Valid() && keys.FindKeyById(keyId).Some? && keys.FindKeyById(keyId).value.userId == owner
    modifies keys
    ensures keys.Valid() && keys.nextId == old(keys.nextId) && keys.FindKeyById(keyId).None?
    ensures forall u :: keys.CountActiveKeysByUser(u) == old(keys.CountActiveKeysByUser(u)) - (if u == owner then 1 else 0)
  {
    ghost var before := keys.rows;
    ghost var i := LiveKeyIndex(before, keyId).value;
    var _ := keys.DeleteKey(keyId, now);
    forall u
      ensures CountWhere(keys.rows, LiveOf(u)) == CountWhere(before, LiveOf(u)) - (if u == owner then 1 else 0)
    {
      DeletionCounts(before, i, now, owner, u);
    }
  }
}
