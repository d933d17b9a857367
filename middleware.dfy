/** src/middleware.ts: the path gate in front of the dashboard. Gateway paths and public paths
    pass; every other path needs an `auth-token` cookie, whose value is not checked here. */
module Middleware {
  import opened Strings

  const ApiProxyPath := "/v1"
  const PublicPaths: seq<string> := ["/login", "/api/auth/login", "/api/auth/logout", "/_next", "/favicon.ico"]

  datatype Decision = Next | RedirectToLogin(from: string)

  predicate IsPublicPath(pathname: string) {
    exists i :: 0 <= i < |PublicPaths| && StartsWith(pathname, PublicPaths[i])
  }

  /** `middleware(request)`; `hasAuthCookie` is whether the request carries an `auth-token`
      cookie. */
  function Decide(pathname: string, hasAuthCookie: bool): (d: Decision)
    ensures d.RedirectToLogin? <==> !StartsWith(pathname, ApiProxyPath) && !IsPublicPath(pathname) && !hasAuthCookie
    ensures d.RedirectToLogin? ==> d.from == pathname
  {
    if StartsWith(pathname, ApiProxyPath) then Next
    else if IsPublicPath(pathname) then Next
    else if !hasAuthCookie then RedirectToLogin(pathname)
    else Next
  }

  /** Every gateway path passes, with or without a cookie; the test is a plain prefix test, so
      `/v1beta` passes as well. */
  lemma GatewayPathsPass(rest: string, hasAuthCookie: bool)
    ensures Decide(ApiProxyPath + rest, hasAuthCookie) == Next
  {
    assert (ApiProxyPath + rest)[..|ApiProxyPath|] == ApiProxyPath;
  }

  /** The login page is reachable without a cookie, so a redirect never loops. */
  lemma LoginPageIsReachable(rest: string)
    ensures Decide("/login" + rest, false) == Next
  {
    assert ("/login" + rest)[..|PublicPaths[0]|] == PublicPaths[0];
  }

  /** A cookie opens every path. */
  lemma CookieOpensEveryPath(pathname: string)
    ensures Decide(pathname, true) == Next
  {
  }
}
