/** src/lib/auth.ts: dashboard sessions. A session cookie holds an API key; the configured admin
    token opens a synthetic admin session without touching the key table. */
module Auth {
  import opened Wrappers
  import opened Domain
  import Transformers
  import KeyRepository
  import UserRepository

  /** `AuthSession` */
  datatype AuthSession = AuthSession(user: User, key: Key)

  /** The identity the admin token stands for, stamped with the current time. */
  function AdminSession(keyString: string, now: int): (s: AuthSession)
    ensures s.user.id == -1 && s.user.role == AdminRole && s.user.rpm == 0 && s.user.dailyQuota == 0.0
    ensures s.key.id == -1 && s.key.userId == s.user.id && s.key.key == keyString && s.key.isEnabled
  {
    AuthSession(
      User(-1, "Admin Token", "Environment admin session", AdminRole, 0, 0.0, now, now, None),
      Key(-1, -1, "ADMIN_TOKEN", keyString, true, None, now, now, None))
  }

  /** The admin token is configured (and not empty) and equals the key. */
  predicate IsAdminToken(keyString: string, adminToken: Option<string>) {
    adminToken.Some? && adminToken.value != [] && keyString == adminToken.value
  }

  /** `validateKey(keyString)`: the admin token first; otherwise the first active key with that
      string and its owner, when the owner is not deleted. */
  function ValidateKey(keyString: string, adminToken: Option<string>,
                       keys: KeyRepository.KeyTable, users: UserRepository.UserTable, now: int): (r: Option<AuthSession>)
    reads keys, users
    ensures IsAdminToken(keyString, adminToken) ==> r == Some(AdminSession(keyString, now))
    ensures !IsAdminToken(keyString, adminToken) ==>
      match keys.FindActiveKeyByKeyString(keyString, now)
      case None => r.None?
      case Some(key) => r == (match users.FindUserById(key.userId) case Some(u) => Some(AuthSession(u, key)) case None => None)
  {
    if IsAdminToken(keyString, adminToken) then Some(AdminSession(keyString, now))
    else
      match keys.FindActiveKeyByKeyString(keyString, now)
      case None => None
      case Some(key) =>
        match users.FindUserById(key.userId)
        case None => None
        case Some(user) => Some(AuthSession(user, key))
  }

  /** A non-admin dashboard session always holds an active key of a live user, and that key
      string is accepted by the gateway too. */
  lemma DashboardSessionImpliesGatewayAccess(keyString: string, adminToken: Option<string>,
                                             keys: KeyRepository.KeyTable, users: UserRepository.UserTable, now: int)
    requires !IsAdminToken(keyString, adminToken)
    requires ValidateKey(keyString, adminToken, keys, users, now).Some?
    ensures var s := ValidateKey(keyString, adminToken, keys, users, now).value;
      s.key.key == keyString && s.key.isEnabled && s.user.id == s.key.userId && s.user.deletedAt.None?
    ensures KeyRepository.ValidateApiKeyAndGetUser(keys, users, keyString, now).Some?
  {
    var key := keys.FindActiveKeyByKeyString(keyString, now).value;
    var i :| 0 <= i < |keys.rows| && keys.rows[i].key == keyString && KeyRepository.IsActive(keys.rows[i], now)
             && key == Transformers.ToKey(keys.rows[i]);
    assert users.FindUserById(keys.rows[i].userId).Some?;
  }

  /** The admin session exists only through the configured token: without one, or with an
      empty one, every session comes from the key table. */
  lemma NoTokenNoBypass(keyString: string, keys: KeyRepository.KeyTable, users: UserRepository.UserTable, now: int)
    ensures ValidateKey(keyString, None, keys, users, now) == ValidateKey(keyString, Some(""), keys, users, now)
    ensures ValidateKey(keyString, None, keys, users, now).Some? ==>
      ValidateKey(keyString, None, keys, users, now).value.key.id != -1 || keys.FindActiveKeyByKeyString(keyString, now).Some?
  {
  }

  /** `getSession()`: no cookie (or an empty one) means no session; `cookie` is the
      `auth-token` cookie's value. */
  function GetSession(cookie: Option<string>, adminToken: Option<string>,
                      keys: KeyRepository.KeyTable, users: UserRepository.UserTable, now: int): (r: Option<AuthSession>)
    reads keys, users
    ensures cookie.None? || cookie.value == [] ==> r.None?
    ensures cookie.Some? && cookie.value != [] ==> r == ValidateKey(cookie.value, adminToken, keys, users, now)
  {
    if cookie.None? || cookie.value == [] then None else ValidateKey(cookie.value, adminToken, keys, users, now)
  }
}
