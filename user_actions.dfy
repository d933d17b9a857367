/** src/actions/users.ts: the users page. Everyone signed in sees a list of users with their
    keys: an ordinary user only themself, anyone else every live user. Only an admin sees a key
    in full, and only an admin adds, edits or removes users. */
module UserActions {
  import opened Wrappers
  import opened Domain
  import opened Auth
  import opened ActionTypes
  import opened Schemas
  import opened Seqs
  import opened KeyMask
  import opened Constants
  import opened ProviderValidation
  import opened UserRepository
  import opened KeyRepository
  import MessageRepository

  const NeverExpires := "永不过期"
  const DefaultKeyName := "default"

  datatype KeyStatus = Enabled | Disabled

  /** One key as the users page shows it. */
  datatype KeyDisplay = KeyDisplay(
    id: int, name: string, maskedKey: string, fullKey: Option<string>, canCopy: bool,
    expiresAt: string, status: KeyStatus, createdAt: int, todayUsage: real)

  /** `UserDisplay` */
  datatype UserDisplay = UserDisplay(
    id: int, name: string, note: Option<string>, role: string, rpm: int, dailyQuota: real,
    keys: seq<KeyDisplay>)

  // ---------------------------------------------------------------------------------------
  // Listing

  /** `new Map(records.map(r => [r.keyId, r.totalCost])).get(keyId) ?? 0`: a later record for
      the same key replaces an earlier one, and a key without a record has used 0. */
  function UsageOf(records: seq<KeyUsage>, keyId: int): (r: real)
    ensures (forall j :: 0 <= j < |records| ==> records[j].keyId != keyId) ==> r == 0.0
  {
    if records == [] then 0.0
    else if records[|records| - 1].keyId == keyId then records[|records| - 1].totalCost
    else UsageOf(records[..|records| - 1], keyId)
  }

  /** When no two records name the same key, each key's usage is its own record's. */
  lemma {:induction false} UsageOfDistinct(records: seq<KeyUsage>, j: nat)
    requires j < |records|
    requires forall a, b :: 0 <= a < b < |records| ==> records[a].keyId != records[b].keyId
    ensures UsageOf(records, records[j].keyId) == records[j].totalCost
  {
    if j < |records| - 1 {
      assert records[..|records| - 1][j] == records[j];
      UsageOfDistinct(records[..|records| - 1], j);
    }
  }

  /** The usage query has no `ORDER BY`: any order of the same records, one per key, shows the
      same usage for every key. */
  lemma UsageIgnoresOrder(a: seq<KeyUsage>, b: seq<KeyUsage>, keyId: int)
    requires forall i, j :: 0 <= i < j < |a| ==> a[i].keyId != a[j].keyId
    requires forall i, j :: 0 <= i < j < |b| ==> b[i].keyId != b[j].keyId
    requires forall x :: x in a <==> x in b
    ensures UsageOf(a, keyId) == UsageOf(b, keyId)
  {
    if j :| 0 <= j < |a| && a[j].keyId == keyId {
      assert a[j] in b;
      var k :| 0 <= k < |b| && b[k] == a[j];
      UsageOfDistinct(a, j);
      UsageOfDistinct(b, k);
    } else {
      forall k | 0 <= k < |b|
        ensures b[k].keyId != keyId
      {
        assert b[k] in a;
      }
    }
  }

  function KeyView(k: Key, isAdmin: bool, usage: seq<KeyUsage>, toIso: int -> string): KeyDisplay {
    KeyDisplay(k.id, k.name, MaskKey(k.key), if isAdmin then Some(k.key) else None, isAdmin,
               if k.expiresAt.Some? then DatePart(toIso(k.expiresAt.value)) else NeverExpires,
               if k.isEnabled then Enabled else Disabled, k.createdAt, UsageOf(usage, k.id))
  }

  /** The user's own fields as the page shows them: `note` is the description, or nothing when
      the description is empty. */
  predicate ShowsUser(d: UserDisplay, u: User) {
    && d.id == u.id && d.name == u.name && d.role == u.role
    && d.rpm == u.rpm && d.dailyQuota == u.dailyQuota
    && (d.note.None? <==> u.description == "")
    && (d.note.Some? ==> d.note.value == u.description)
  }

  /** One user with their live keys and what each key spent today. */
  function UserView(u: User, isAdmin: bool, keys: KeyTable, messages: MessageRepository.MessageTable,
                    dayStart: int, dayEnd: int, toIso: int -> string): (r: UserDisplay)
    reads keys, messages
    requires keys.Valid()
    ensures ShowsUser(r, u)
  {
    var usage := FindKeyUsageToday(keys, messages, u.id, dayStart, dayEnd);
    UserDisplay(u.id, u.name, if u.description == "" then None else Some(u.description), u.role, u.rpm,
                u.dailyQuota, Map(keys.FindKeyList(u.id), (k: Key) => KeyView(k, isAdmin, usage, toIso)))
  }

  /** The users a signed-in caller may see: an ordinary user only themself, any other role
      every live user. */
  function VisibleUsers(session: AuthSession, users: UserTable): (r: seq<User>)
    reads users
    ensures session.user.role == UserRole ==> r == [session.user]
    ensures session.user.role != UserRole ==>
      (forall i :: 0 <= i < |r| ==> r[i].deletedAt.None?)
      && (forall i :: 0 <= i < |users.rows| && users.rows[i].deletedAt.None? ==> Transformers.ToUser(users.rows[i]) in r)
      && (forall i :: 0 <= i < |r| ==> exists j :: 0 <= j < |users.rows| && UserRepository.IsLiveUser(users.rows[j])
                                                   && r[i] == Transformers.ToUser(users.rows[j]))
      && |r| == CountWhere(users.rows, UserRepository.IsLiveUser)
  {
    if session.user.role == UserRole then [session.user] else users.FindUserList()
  }

  /** `getUsers()`: nothing without a session; otherwise the visible users, in order, each with
      their live keys. `dayStart` and `dayEnd` bound today; `toIso` renders a time as
      `Date.toISOString` does. */
  function GetUsers(session: Option<AuthSession>, users: UserTable, keys: KeyTable, messages: MessageRepository.MessageTable,
                    dayStart: int, dayEnd: int, toIso: int -> string): (r: seq<UserDisplay>)
    reads users, keys, messages
    requires keys.Valid()
    ensures session.None? ==> r == []
    ensures session.Some? ==> |r| == |VisibleUsers(session.value, users)|
    ensures session.Some? ==> forall i :: 0 <= i < |r| ==> ShowsUser(r[i], VisibleUsers(session.value, users)[i])
  {
    if session.None? then []
    else
      var visible := VisibleUsers(session.value, users);
      seq(|visible|, i requires 0 <= i < |visible| && keys.Valid() reads keys, messages =>
            UserView(visible[i], IsAdmin(session), keys, messages, dayStart, dayEnd, toIso))
  }

  /** The listing holds the visible users in order: for an ordinary user, only themself. */
  lemma ListsVisibleUsers(session: Option<AuthSession>, users: UserTable, keys: KeyTable,
                          messages: MessageRepository.MessageTable, dayStart: int, dayEnd: int,
                          toIso: int -> string, i: nat)
    requires keys.Valid()
    requires i < |GetUsers(session, users, keys, messages, dayStart, dayEnd, toIso)|
    ensures var shown := GetUsers(session, users, keys, messages, dayStart, dayEnd, toIso)[i];
      && shown.id == VisibleUsers(session.value, users)[i].id
      && (session.value.user.role == UserRole ==> i == 0 && shown.id == session.value.user.id)
  {
    var u := VisibleUsers(session.value, users)[i];
    assert GetUsers(session, users, keys, messages, dayStart, dayEnd, toIso)[i]
        == UserView(u, IsAdmin(session), keys, messages, dayStart, dayEnd, toIso);
  }

  /** Each listed user shows exactly their live keys, in order; the key string is shown in
      full, and may be copied, only when the caller is an admin, and is otherwise masked. */
  lemma OnlyAdminsSeeFullKeys(session: Option<AuthSession>, users: UserTable, keys: KeyTable,
                              messages: MessageRepository.MessageTable, dayStart: int, dayEnd: int,
                              toIso: int -> string, i: nat, j: nat)
    requires keys.Valid()
    requires i < |GetUsers(session, users, keys, messages, dayStart, dayEnd, toIso)|
    ensures var shown := GetUsers(session, users, keys, messages, dayStart, dayEnd, toIso)[i];
            var listed := keys.FindKeyList(shown.id);
      && |shown.keys| == |listed|
      && (j < |listed| ==>
            shown.keys[j].id == listed[j].id && shown.keys[j].maskedKey == MaskKey(listed[j].key)
            && shown.keys[j].canCopy == IsAdmin(session)
            && shown.keys[j].fullKey == (if IsAdmin(session) then Some(listed[j].key) else None))
  {
    var u := VisibleUsers(session.value, users)[i];
    assert GetUsers(session, users, keys, messages, dayStart, dayEnd, toIso)[i]
        == UserView(u, IsAdmin(session), keys, messages, dayStart, dayEnd, toIso);
  }

  /** Each shown key keeps its name and creation time; it is `enabled` exactly when the key is
      enabled, and its expiry reads `永不过期` when it has none and otherwise is the date part of
      the ISO rendering of its expiry time. */
  lemma KeysShowStatusAndExpiry(session: Option<AuthSession>, users: UserTable, keys: KeyTable,
                                messages: MessageRepository.MessageTable, dayStart: int, dayEnd: int,
                                toIso: int -> string, i: nat, j: nat)
    requires keys.Valid()
    requires i < |GetUsers(session, users, keys, messages, dayStart, dayEnd, toIso)|
    requires j < |GetUsers(session, users, keys, messages, dayStart, dayEnd, toIso)[i].keys|
    ensures var shown := GetUsers(session, users, keys, messages, dayStart, dayEnd, toIso)[i];
            var listed := keys.FindKeyList(shown.id);
      && shown.keys[j].name == listed[j].name && shown.keys[j].createdAt == listed[j].createdAt
      && (shown.keys[j].status == Enabled <==> listed[j].isEnabled)
      && (listed[j].expiresAt.None? ==> shown.keys[j].expiresAt == NeverExpires)
      && (listed[j].expiresAt.Some? ==> shown.keys[j].expiresAt == DatePart(toIso(listed[j].expiresAt.value)))
  {
    var u := VisibleUsers(session.value, users)[i];
    assert GetUsers(session, users, keys, messages, dayStart, dayEnd, toIso)[i]
        == UserView(u, IsAdmin(session), keys, messages, dayStart, dayEnd, toIso);
  }

  /** A key that expires at a time rendered `<date>T<time>` shows exactly `<date>`. */
  lemma ExpiryShowsItsDate(session: Option<AuthSession>, users: UserTable, keys: KeyTable,
                           messages: MessageRepository.MessageTable, dayStart: int, dayEnd: int,
                           toIso: int -> string, i: nat, j: nat, date: string, time: string)
    requires keys.Valid()
    requires i < |GetUsers(session, users, keys, messages, dayStart, dayEnd, toIso)|
    requires j < |GetUsers(session, users, keys, messages, dayStart, dayEnd, toIso)[i].keys|
    requires var shown := GetUsers(session, users, keys, messages, dayStart, dayEnd, toIso)[i];
             var listed := keys.FindKeyList(shown.id);
      listed[j].expiresAt.Some? && toIso(listed[j].expiresAt.value) == date + "T" + time
    requires 'T' !in date
    ensures GetUsers(session, users, keys, messages, dayStart, dayEnd, toIso)[i].keys[j].expiresAt == date
  {
    KeysShowStatusAndExpiry(session, users, keys, messages, dayStart, dayEnd, toIso, i, j);
    DateOfTimestamp(date, time);
  }

  /** The usage shown beside a key is what that key spent today. */
  lemma ShownUsageIsTodaysSpend(session: Option<AuthSession>, users: UserTable, keys: KeyTable,
                                messages: MessageRepository.MessageTable, dayStart: int, dayEnd: int,
                                toIso: int -> string, i: nat, j: nat)
    requires keys.Valid()
    requires i < |GetUsers(session, users, keys, messages, dayStart, dayEnd, toIso)|
    requires j < |GetUsers(session, users, keys, messages, dayStart, dayEnd, toIso)[i].keys|
    ensures var shown := GetUsers(session, users, keys, messages, dayStart, dayEnd, toIso)[i];
      shown.keys[j].todayUsage == DayCost(messages.rows, keys.FindKeyList(shown.id)[j].key, dayStart, dayEnd)
  {
    var u := VisibleUsers(session.value, users)[i];
    assert GetUsers(session, users, keys, messages, dayStart, dayEnd, toIso)[i]
        == UserView(u, IsAdmin(session), keys, messages, dayStart, dayEnd, toIso);
    var usage := FindKeyUsageToday(keys, messages, u.id, dayStart, dayEnd);
    UsageOfDistinct(usage, j);
  }

  // ---------------------------------------------------------------------------------------
  // Adding, editing, removing

  /** `{ name, note?, rpm?, dailyQuota? }` as `addUser` receives it. */
  datatype AddUserInput = AddUserInput(name: string, note: Option<string>, rpm: Option<JsNumber>, dailyQuota: Option<JsNumber>)

  /** JavaScript truthiness of an optional number: `undefined`, 0 and NaN are falsy. */
  predicate IsTruthy(x: Option<JsNumber>) {
    x.Some? && !x.value.NaN? && x.value != Finite(0.0)
  }

  /** `x || fallback` for an optional number. */
  function NumberOr(x: Option<JsNumber>, fallback: real): (r: JsNumber)
    ensures IsTruthy(x) ==> r == x.value
    ensures !IsTruthy(x) ==> r == Finite(fallback)
  {
    if IsTruthy(x) then x.value else Finite(fallback)
  }

  /** The object `addUser` hands to `CreateUserSchema.parse`: every field present, the falsy
      ones replaced by the defaults. */
  function CreateUserForm(data: AddUserInput): UserInput {
    UserInput(Some(data.name), Some(data.note.GetOr("")), Some(NumberOr(data.rpm, DefaultUserRpm as real)),
              Some(NumberOr(data.dailyQuota, DefaultDailyQuota)))
  }

  /** An rpm or quota of 0 or NaN, which the schema would reject, never reaches it: the user is
      created with the default instead. */
  lemma FalsyLimitsBecomeDefaults(data: AddUserInput)
    requires ParseCreateUser(CreateUserForm(data)).Ok?
    ensures !IsTruthy(data.rpm) ==> ParseCreateUser(CreateUserForm(data)).value.rpm == DefaultUserRpm
    ensures !IsTruthy(data.dailyQuota) ==> ParseCreateUser(CreateUserForm(data)).value.dailyQuota == DefaultDailyQuota
    ensures IsTruthy(data.rpm) ==> ParseCreateUser(CreateUserForm(data)).value.rpm as real == data.rpm.value.v
  {
  }

  /** Every key belongs to a user id already handed out (the foreign key of `keys.user_id`). */
  ghost predicate KeyOwnersExist(users: UserTable, keys: KeyTable)
    reads users, keys
  {
    forall i :: 0 <= i < |keys.rows| ==> keys.rows[i].userId < users.nextId
  }

  /** A live key for a user id no earlier key names is that user's only live key. */
  lemma FirstKeyOfNewUser(rows: seq<KeyRow>, row: KeyRow, id: int)
    requires forall i :: 0 <= i < |rows| ==> rows[i].userId < id
    requires row.userId == id && row.deletedAt.None?
    ensures CountWhere(rows + [row], LiveOf(id)) == 1
  {
    FilterAppend(rows, [row], LiveOf(id));
    assert Filter([row], LiveOf(id)) == [row];
  }

  /** `addUser(data)`: refused unless admin and for an invalid form; otherwise the user is
      stored and given one enabled key named "default" that never expires. */
  method AddUser(session: Option<AuthSession>, data: AddUserInput, users: UserTable, keys: KeyTable, hex: string,
                 describe: seq<Issue> -> string, now: int) returns (r: ActionResult<()>)
    requires users.Valid() && users.CanInsertAt(now) && keys.Valid() && keys.CanInsertAt(now) && IsRandomHex(hex)
    modifies users, keys
    ensures users.Valid() && keys.Valid()
    ensures !IsAdmin(session) ==> r == Failure(NoPermission)
    ensures var form := ParseCreateUser(CreateUserForm(data));
      && (IsAdmin(session) && form.Err? ==> r == Failure(describe(form.error)))
      && (IsAdmin(session) && form.Ok? ==>
            r == Success(())
            && users.rows == old(users.rows) + [UserRow(old(users.nextId), data.name, Some(form.value.note), None,
                                                        Some(form.value.rpm), Some(form.value.dailyQuota), now, now, None)]
            && keys.rows == old(keys.rows) + [KeyRow(old(keys.nextId), old(users.nextId), DefaultKeyName,
                                                     NewKeyString(hex), Some(true), None, now, now, None)])
    ensures r.Failure? ==> users.rows == old(users.rows) && users.nextId == old(users.nextId)
                           && keys.rows == old(keys.rows) && keys.nextId == old(keys.nextId)
    ensures old(KeyOwnersExist(users, keys)) ==> KeyOwnersExist(users, keys)
    ensures old(KeyOwnersExist(users, keys)) && r.Success? ==> keys.CountActiveKeysByUser(old(users.nextId)) == 1
  {
    if !IsAdmin(session) {
      return Failure(NoPermission);
    }
    var validated := ParseCreateUser(CreateUserForm(data));
    if validated.Err? {
      return Failure(describe(validated.error));
    }
    StoreNewUser(users, keys, validated.value, hex, now);
    return Success(());
  }

  /** `createUser` followed by `createKey` for the new user's default key. */
  method StoreNewUser(users: UserTable, keys: KeyTable, v: UserData, hex: string, now: int)
    requires users.Valid() && users.CanInsertAt(now) && keys.Valid() && keys.CanInsertAt(now) && IsRandomHex(hex)
    modifies users, keys
    ensures users.Valid() && keys.Valid()
    ensures users.rows == old(users.rows) + [UserRow(old(users.nextId), v.name, Some(v.note), None,
                                                     Some(v.rpm), Some(v.dailyQuota), now, now, None)]
    ensures keys.rows == old(keys.rows) + [KeyRow(old(keys.nextId), old(users.nextId), DefaultKeyName,
                                                  NewKeyString(hex), Some(true), None, now, now, None)]
    ensures users.nextId == old(users.nextId) + 1
    ensures old(KeyOwnersExist(users, keys)) ==> KeyOwnersExist(users, keys) && keys.CountActiveKeysByUser(old(users.nextId)) == 1
  {
    var newUser := users.CreateUser(CreateUserData(v.name, v.note, Some(v.rpm), Some(v.dailyQuota)), now);
    ghost var before := keys.rows;
    var _ := keys.CreateKey(CreateKeyData(newUser.id, DefaultKeyName, NewKeyString(hex), Some(true), None), now);
    if old(KeyOwnersExist(users, keys)) {
      FirstKeyOfNewUser(before, keys.rows[|keys.rows| - 1], newUser.id);
    }
  }

  /** A field of the validated form that is missing is sent as `undefined`. */
  function OptField<T>(x: Option<T>): (f: Field<T>)
    ensures f.Given? <==> x.Some?
    ensures f.Given? ==> f.value == x.value
    ensures !f.Omitted?
  {
    if x.Some? then Given(x.value) else Undefined
  }

  /** The patch `editUser` sends: all four members present, the note as the description. */
  function UserUpdate(p: UserPatch): UpdateUserData {
    UpdateUserData(OptField(p.name), OptField(p.note), OptField(p.rpm), OptField(p.dailyQuota))
  }

  /** An edit changes exactly the fields the form gives and stamps the row, even when the form
      gives none. */
  lemma EditChangesGivenFields(row: UserRow, p: UserPatch, now: int)
    ensures !UserUpdate(p).IsEmpty()
    ensures var u := PatchUser(row, UserUpdate(p), now);
      && u.id == row.id && u.role == row.role && u.updatedAt == now
      && u.name == (if p.name.Some? then p.name.value else row.name)
      && u.description == (if p.note.Some? then p.note else row.description)
      && u.rpm == (if p.rpm.Some? then p.rpm else row.rpm)
      && u.dailyQuota == (if p.dailyQuota.Some? then p.dailyQuota else row.dailyQuota)
  {
  }

  /** `editUser(userId, data)`: refused unless admin and for an invalid form; otherwise the live
      user with that id, if any, takes the given fields. */
  method EditUser(session: Option<AuthSession>, userId: int, data: UserInput, users: UserTable,
                  describe: seq<Issue> -> string, now: int) returns (r: ActionResult<()>)
    requires users.Valid()
    modifies users
    ensures users.Valid() && users.nextId == old(users.nextId)
    ensures !IsAdmin(session) ==> r == Failure(NoPermission)
    ensures var form := ParseUpdateUser(data);
      && (IsAdmin(session) && form.Err? ==> r == Failure(describe(form.error)))
      && (IsAdmin(session) && form.Ok? ==>
            r == Success(()) && |users.rows| == |old(users.rows)|
            && forall i :: 0 <= i < |users.rows| ==>
                 users.rows[i] == if LiveUserWithId(old(users.rows)[i], userId)
                                  then PatchUser(old(users.rows)[i], UserUpdate(form.value), now)
                                  else old(users.rows)[i])
    ensures r.Failure? ==> users.rows == old(users.rows)
  {
    if !IsAdmin(session) {
      return Failure(NoPermission);
    }
    var validated := ParseUpdateUser(data);
    if validated.Err? {
      return Failure(describe(validated.error));
    }
    var _ := users.UpdateUser(userId, UserUpdate(validated.value), now);
    return Success(());
  }

  /** `removeUser(userId)`: refused unless admin; otherwise the user is soft-deleted and no
      longer found. Their keys are left as they are. */
  method RemoveUser(session: Option<AuthSession>, userId: int, users: UserTable, now: int) returns (r: ActionResult<()>)
    requires users.Valid()
    modifies users
    ensures users.Valid() && users.nextId == old(users.nextId) && |users.rows| == |old(users.rows)|
    ensures !IsAdmin(session) ==> r == Failure(NoPermission) && users.rows == old(users.rows)
    ensures IsAdmin(session) ==> (r == Success(()) && users.FindUserById(userId).None?
      && forall i :: 0 <= i < |users.rows| ==>
           users.rows[i] == if LiveUserWithId(old(users.rows)[i], userId)
                            then old(users.rows)[i].(deletedAt := Some(now))
                            else old(users.rows)[i])
  {
    if !IsAdmin(session) {
      return Failure(NoPermission);
    }
    var _ := users.DeleteUser(userId, now);
    return Success(());
  }
}
