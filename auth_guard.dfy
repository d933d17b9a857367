/** src/app/v1/_lib/proxy/auth-guard.ts: authentication of gateway requests by an API key taken
    from the `Authorization: Bearer` header or the `x-api-key` header. The gateway consults only
    the key table; there is no admin-token bypass on this path. */
module AuthGuard {
  import opened Wrappers
  import opened Strings
  import opened Domain
  import opened Session
  import opened Responses
  import KeyRepository
  import UserRepository

  const AuthFailed := "令牌已过期或验证不正确"

  predicate NoLineTerminator(s: string) {
    forall i :: 0 <= i < |s| ==> !IsLineTerminator(s[i])
  }

  /** `/^Bearer\s+(.+)$/i.exec(trimmed)?.[1]` on a trimmed header: the scheme in any ASCII case,
      a run of whitespace, then the rest of the text, which `.` must match to the end. */
  function BearerCapture(trimmed: string): (r: Option<string>)
    ensures r.Some? ==> r.value != [] && !IsWhitespace(r.value[0])
  {
    if |trimmed| > 6 && ToLower(trimmed[..6]) == "bearer" && IsWhitespace(trimmed[6]) then
      var token := TrimStart(trimmed[6..]);
      if token != [] && NoLineTerminator(token) then Some(token) else None
    else None
  }

  /** A string whose first character is not whitespace does not trim to nothing. */
  lemma TrimKeepsFirst(s: string)
    requires s != [] && !IsWhitespace(s[0])
    ensures Trim(s) != []
  {
    var e := TrimEnd(s);
    assert e != [] && e[0] == s[0];
  }

  /** `extractKeyFromAuthorization(authHeader)` */
  function ExtractKeyFromAuthorization(authHeader: Option<string>): (r: Option<string>)
    ensures authHeader.None? || Trim(authHeader.value) == [] ==> r.None?
    ensures r.Some? ==> r.value != [] && Trim(r.value) == r.value
  {
    if authHeader.None? || authHeader.value == [] then None
    else
      var trimmed := Trim(authHeader.value);
      if trimmed == [] then None
      else
        match BearerCapture(trimmed)
        case None => None
        case Some(token) =>
          TrimKeepsFirst(token);
          TrimIdempotent(token);
          Some(Trim(token))
  }

  /** `normalizeKey(value)` */
  function NormalizeKey(value: Option<string>): (r: Option<string>)
    ensures r.Some? <==> value.Some? && Trim(value.value) != []
    ensures r.Some? ==> r.value == Trim(value.value)
  {
    if value.None? || value.value == [] then None
    else
      var trimmed := Trim(value.value);
      if |trimmed| > 0 then Some(trimmed) else None
  }

  /** Leading whitespace is skipped by `trimStart`. */
  lemma {:induction false} TrimStartSkips(gap: string, rest: string)
    requires forall i :: 0 <= i < |gap| ==> IsWhitespace(gap[i])
    requires rest == [] || !IsWhitespace(rest[0])
    ensures TrimStart(gap + rest) == rest
  {
    if gap != [] {
      assert (gap + rest)[1..] == gap[1..] + rest;
      TrimStartSkips(gap[1..], rest);
    }
  }

  /** A string that begins and ends with a non-whitespace character is its own trim. */
  lemma TrimOfTrimmed(s: string)
    requires s != [] && !IsWhitespace(s[0]) && !IsWhitespace(s[|s| - 1])
    ensures Trim(s) == s
  {
    assert TrimEnd(s) == s;
  }

  /** A scheme that lower-cases to `bearer` starts with a letter. */
  lemma SchemeStartsWithLetter(scheme: string)
    requires |scheme| == 6 && ToLower(scheme) == "bearer"
    ensures scheme[0] == 'b' || scheme[0] == 'B'
  {
    assert LowerChar(scheme[0]) == "bearer"[0];
  }

  lemma CaptureOfBearer(scheme: string, gap: string, token: string)
    requires |scheme| == 6 && ToLower(scheme) == "bearer"
    requires gap != [] && forall i :: 0 <= i < |gap| ==> IsWhitespace(gap[i])
    requires token != [] && !IsWhitespace(token[0]) && NoLineTerminator(token)
    ensures BearerCapture(scheme + gap + token) == Some(token)
  {
    var s := scheme + gap + token;
    SplitAtScheme(scheme, gap, token);
    assert IsWhitespace(s[6]);
    TrimStartSkips(gap, token);
    assert TrimStart(s[6..]) == token;
  }

  lemma SplitAtScheme(scheme: string, gap: string, token: string)
    requires |scheme| == 6 && gap != []
    ensures |scheme + gap + token| > 6
    ensures (scheme + gap + token)[..6] == scheme
    ensures (scheme + gap + token)[6] == gap[0]
    ensures (scheme + gap + token)[6..] == gap + token
  {
  }

  /** `Bearer <token>` in any case of the scheme and with any whitespace gap yields the token. */
  lemma BearerTokenIsExtracted(scheme: string, gap: string, token: string)
    requires |scheme| == 6 && ToLower(scheme) == "bearer"
    requires gap != [] && forall i :: 0 <= i < |gap| ==> IsWhitespace(gap[i])
    requires token != [] && !IsWhitespace(token[0]) && !IsWhitespace(token[|token| - 1]) && NoLineTerminator(token)
    ensures ExtractKeyFromAuthorization(Some(scheme + gap + token)) == Some(token)
  {
    BearerHeaderIsTrimmed(scheme, gap, token);
    CaptureOfBearer(scheme, gap, token);
    TrimOfTrimmed(token);
  }

  lemma BearerHeaderIsTrimmed(scheme: string, gap: string, token: string)
    requires |scheme| == 6 && ToLower(scheme) == "bearer"
    requires token != [] && !IsWhitespace(token[|token| - 1])
    ensures scheme + gap + token != [] && Trim(scheme + gap + token) == scheme + gap + token
  {
    var s := scheme + gap + token;
    SchemeStartsWithLetter(scheme);
    assert s[0] == scheme[0];
    assert s[|s| - 1] == token[|token| - 1];
    TrimOfTrimmed(s);
  }

  /** Without the `Bearer` scheme the authorization header yields nothing. */
  lemma OtherSchemesYieldNothing(header: string)
    requires var t := Trim(header); |t| < 6 || ToLower(t[..6]) != "bearer"
    ensures ExtractKeyFromAuthorization(Some(header)).None?
  {
  }

  /** The keys the request supplies, and whether they agree. */
  datatype Supplied = NoKey | Mismatch | SingleKey(key: string)

  /** `providedKeys` and the mismatch rule: the bearer key first, then the `x-api-key` one. */
  function SuppliedKey(authHeader: Option<string>, apiKeyHeader: Option<string>): (r: Supplied)
    ensures r.NoKey? <==> ExtractKeyFromAuthorization(authHeader).None? && NormalizeKey(apiKeyHeader).None?
    ensures r.Mismatch? <==> ExtractKeyFromAuthorization(authHeader).Some? && NormalizeKey(apiKeyHeader).Some?
                             && ExtractKeyFromAuthorization(authHeader) != NormalizeKey(apiKeyHeader)
    ensures r.SingleKey? ==> r.key != [] && (Some(r.key) == ExtractKeyFromAuthorization(authHeader) || Some(r.key) == NormalizeKey(apiKeyHeader))
  {
    match (ExtractKeyFromAuthorization(authHeader), NormalizeKey(apiKeyHeader))
    case (None, None) => NoKey
    case (Some(bearer), None) => SingleKey(bearer)
    case (None, Some(apiKey)) => SingleKey(apiKey)
    case (Some(bearer), Some(apiKey)) => if apiKey != bearer then Mismatch else SingleKey(bearer)
  }

  /** `ProxyAuthenticator.validate`: a single supplied key is looked up with
      `validateApiKeyAndGetUser`; no key or disagreeing keys fail without a lookup. */
  function Validate(authHeader: Option<string>, apiKeyHeader: Option<string>,
                    keys: KeyRepository.KeyTable, users: UserRepository.UserTable, now: int): (r: AuthState)
    reads keys, users
    ensures !SuppliedKey(authHeader, apiKeyHeader).SingleKey? ==> r == AuthState(None, None, false)
    ensures SuppliedKey(authHeader, apiKeyHeader).SingleKey? ==>
      r.apiKey == Some(SuppliedKey(authHeader, apiKeyHeader).key)
    ensures r.success <==> r.user.Some?
    ensures r.success ==>
      && r.apiKey.Some?
      && KeyRepository.ValidateApiKeyAndGetUser(keys, users, r.apiKey.value, now).Some?
      && r.user == Some(KeyRepository.ValidateApiKeyAndGetUser(keys, users, r.apiKey.value, now).value.0)
  {
    match SuppliedKey(authHeader, apiKeyHeader)
    case NoKey => AuthState(None, None, false)
    case Mismatch => AuthState(None, None, false)
    case SingleKey(k) =>
      match KeyRepository.ValidateApiKeyAndGetUser(keys, users, k, now)
      case None => AuthState(None, Some(k), false)
      case Some(found) => AuthState(Some(found.0), Some(k), true)
  }

  /** Authentication succeeds exactly when the supplied key belongs to an active key of a live
      user. */
  lemma ValidateSucceedsIffKeyIsActive(authHeader: Option<string>, apiKeyHeader: Option<string>,
                                       keys: KeyRepository.KeyTable, users: UserRepository.UserTable, now: int)
    ensures Validate(authHeader, apiKeyHeader, keys, users, now).success <==>
      var s := SuppliedKey(authHeader, apiKeyHeader);
      && s.SingleKey?
      && exists i :: 0 <= i < |keys.rows| && keys.rows[i].key == s.key
           && KeyRepository.IsActive(keys.rows[i], now) && users.FindUserById(keys.rows[i].userId).Some?
  {
  }

  /** The same key in both headers is accepted as one key. */
  lemma AgreeingHeadersSupplyOneKey(token: string, apiKeyHeader: string)
    requires ExtractKeyFromAuthorization(Some(token)).Some?
    requires NormalizeKey(Some(apiKeyHeader)) == ExtractKeyFromAuthorization(Some(token))
    ensures SuppliedKey(Some(token), Some(apiKeyHeader)) == SingleKey(ExtractKeyFromAuthorization(Some(token)).value)
  {
  }

  function HeaderValue(headers: Headers.HeaderMap, name: string): Option<string> {
    if name in headers then Some(headers[name]) else None
  }

  /** `ProxyAuthenticator.ensure(session)`: always records the outcome on the session; a failure
      of any kind becomes the same 401 response. */
  method Ensure(session: ProxySession, keys: KeyRepository.KeyTable, users: UserRepository.UserTable, now: int)
    returns (r: Option<Response>)
    modifies session
    ensures var state := old(Validate(HeaderValue(session.headers, "authorization"), HeaderValue(session.headers, "x-api-key"), keys, users, now));
      && session.authState == Some(state)
      && session.userName == (if state.user.Some? then state.user.value.name else old(session.userName))
      && (r.None? <==> state.success)
      && (r.Some? ==> r.value == BuildError(401, AuthFailed))
    ensures session.provider == old(session.provider) && session.messageContext == old(session.messageContext)
  {
    var authHeader := HeaderValue(session.headers, "authorization");
    var apiKeyHeader := HeaderValue(session.headers, "x-api-key");
    var state := Validate(authHeader, apiKeyHeader, keys, users, now);
    session.SetAuthState(state);
    if state.success {
      return None;
    }
    return Some(BuildError(401, AuthFailed));
  }
}
