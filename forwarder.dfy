/** src/app/v1/_lib/proxy/forwarder.ts: the request the gateway sends upstream. */
module Forwarder {
  import opened Wrappers
  import opened Strings
  import opened Domain
  import opened Headers
  import opened Session
  import Url

  const MissingContext := "代理上下文缺少供应商或鉴权信息"

  /** The key used when the authentication state records a failure. */
  const PlaceholderKey := "000"

  /** The request handed to `fetch`: method, URL, headers, and the body when one is attached. */
  datatype Outbound = Outbound(verb: string, url: string, headers: HeaderMap, body: Option<seq<bv8>>)

  /** The key sent upstream: the provider's own key, never the caller's. */
  function OutboundKey(authState: AuthState, provider: Provider): (k: string)
    ensures authState.success ==> k == provider.key
    ensures !authState.success ==> k == PlaceholderKey
  {
    if authState.success then provider.key else PlaceholderKey
  }

  /** The overrides as written in `buildHeaders`, in their object order. */
  function OverrideEntries(host: string, key: string): seq<(string, string)> {
    [("host", host), ("authorization", "Bearer " + key), ("x-api-key", key)]
  }

  function ProxyOverrides(host: string, key: string): HeaderMap {
    map["host" := host, "authorization" := "Bearer " + key, "x-api-key" := key]
  }

  /** The headers `buildHeaders` produces: a plain copy when the session lacks a provider or an
      authentication state; otherwise the caller's headers minus the forwarding headers and the
      caller's `authorization`, with host, authorization and x-api-key set for the provider. */
  function OutboundHeaders(headers: HeaderMap, authState: Option<AuthState>, provider: Option<Provider>,
                           urlHost: string -> Option<string>): HeaderMap
  {
    if authState.None? || provider.None? then headers
    else Processed(headers, DefaultBlacklist(None),
                   ProxyOverrides(ExtractHost(provider.value.url, urlHost), OutboundKey(authState.value, provider.value)))
  }

  predicate NoUpper(s: string) {
    forall i :: 0 <= i < |s| ==> !('A' <= s[i] <= 'Z')
  }

  lemma LowerKeeps(s: string)
    requires NoUpper(s)
    ensures ToLower(s) == s
  {
    assert forall i :: 0 <= i < |s| ==> ToLower(s)[i] == s[i];
  }

  lemma HostIsLowerCase()
    ensures ToLower("host") == "host"
  {
    var h := "host";
    assert h[0] == 'h' && h[1] == 'o' && h[2] == 's' && h[3] == 't';
    LowerKeeps(h);
  }

  lemma AuthorizationIsLowerCase()
    ensures ToLower("authorization") == "authorization"
  {
    var a := "authorization";
    assert a[0] == 'a' && a[1] == 'u' && a[2] == 't' && a[3] == 'h' && a[4] == 'o' && a[5] == 'r'
      && a[6] == 'i' && a[7] == 'z' && a[8] == 'a' && a[9] == 't' && a[10] == 'i' && a[11] == 'o' && a[12] == 'n';
    LowerKeeps(a);
  }

  lemma ApiKeyIsLowerCase()
    ensures ToLower("x-api-key") == "x-api-key"
  {
    var x := "x-api-key";
    assert x[0] == 'x' && x[1] == '-' && x[2] == 'a' && x[3] == 'p' && x[4] == 'i' && x[5] == '-'
      && x[6] == 'k' && x[7] == 'e' && x[8] == 'y';
    LowerKeeps(x);
  }

  lemma LowerEntriesSnoc(entries: seq<(string, string)>, last: (string, string))
    ensures LowerEntries(entries + [last]) == LowerEntries(entries)[ToLower(last.0) := last.1]
  {
    assert (entries + [last])[..|entries|] == entries;
  }

  lemma LowerEntriesOfThree(a: (string, string), b: (string, string), c: (string, string))
    requires ToLower(a.0) == a.0 && ToLower(b.0) == b.0 && ToLower(c.0) == c.0
    ensures LowerEntries([a, b, c]) == map[][a.0 := a.1][b.0 := b.1][c.0 := c.1]
  {
    assert LowerEntries([a]) == map[][a.0 := a.1] by {
      LowerEntriesSnoc([], a);
      assert [] + [a] == [a];
    }
    assert LowerEntries([a, b]) == LowerEntries([a])[b.0 := b.1] by {
      LowerEntriesSnoc([a], b);
      assert [a] + [b] == [a, b];
    }
    assert LowerEntries([a, b, c]) == LowerEntries([a, b])[c.0 := c.1] by {
      LowerEntriesSnoc([a, b], c);
      assert [a, b] + [c] == [a, b, c];
    }
  }

  /** The three override names are already lower-case, so lower-casing them yields the map. */
  lemma OverridesAreLowerCase(host: string, key: string)
    ensures LowerEntries(OverrideEntries(host, key)) == ProxyOverrides(host, key)
  {
    HostIsLowerCase();
    AuthorizationIsLowerCase();
    ApiKeyIsLowerCase();
    LowerEntriesOfThree(("host", host), ("authorization", "Bearer " + key), ("x-api-key", key));
  }

  /** The forwarder's header processor drops the default names (authorization included) and
      sets the three overrides. */
  lemma ProxySettings(host: string, key: string)
    ensures DefaultBlacklist(None) + LowerAll([]) == DefaultBlacklist(None)
    ensures LowerEntries(OverrideEntries(host, key)) == ProxyOverrides(host, key)
  {
    assert LowerAll([]) == {};
    OverridesAreLowerCase(host, key);
  }

  /** `ProxyForwarder.buildHeaders(session)` */
  method BuildHeaders(session: ProxySession, urlHost: string -> Option<string>) returns (r: HeaderMap)
    requires IsHeaderMap(session.headers)
    ensures r == OutboundHeaders(session.headers, session.authState, session.provider, urlHost)
  {
    var authState := session.authState;
    var provider := session.provider;
    if authState.None? || provider.None? {
      return session.headers;
    }
    var outboundKey := OutboundKey(authState.value, provider.value);
    var host := ExtractHost(provider.value.url, urlHost);
    ProxySettings(host, outboundKey);
    var processor := HeaderProcessor.CreateForProxy(
      Some(Config(Some([]), Some(OverrideEntries(host, outboundKey)), None)));
    r := processor.Process(session.headers);
    assert r == Processed(session.headers, DefaultBlacklist(None), ProxyOverrides(host, outboundKey));
  }

  /** The request `send` would hand to `fetch`. */
  function OutboundRequest(verb: string, requestUrl: Url.RequestUrl, headers: HeaderMap, request: RequestPayload,
                           authState: Option<AuthState>, provider: Option<Provider>,
                           parse: string -> Option<Url.UrlParts>, urlHost: string -> Option<string>)
    : (r: Result<Outbound, string>)
    ensures r.Err? <==> provider.None? || authState.None?
    ensures r.Err? ==> r.error == MissingContext
    ensures r.Ok? ==> r.value.verb == verb && r.value.url == Url.ProxyUrl(provider.value.url, requestUrl, parse)
    ensures r.Ok? ==> (r.value.body.Some? <==> HasBody(verb) && request.buffer.Some?)
    ensures r.Ok? && r.value.body.Some? ==> r.value.body == request.buffer
  {
    if provider.None? || authState.None? then Err(MissingContext)
    else
      Ok(Outbound(verb, Url.ProxyUrl(provider.value.url, requestUrl, parse),
                  OutboundHeaders(headers, authState, provider, urlHost),
                  if HasBody(verb) && request.buffer.Some? then request.buffer else None))
  }

  /** `ProxyForwarder.send(session)` up to the `fetch` call, which is I/O: the error it throws
      without a provider or an authentication state, otherwise the request it sends. */
  method Send(session: ProxySession, parse: string -> Option<Url.UrlParts>, urlHost: string -> Option<string>)
    returns (r: Result<Outbound, string>)
    requires IsHeaderMap(session.headers)
    ensures r == OutboundRequest(session.verb, session.requestUrl, session.headers, session.request,
                                 session.authState, session.provider, parse, urlHost)
  {
    if session.provider.None? || session.authState.None? {
      return Err(MissingContext);
    }
    var headers := BuildHeaders(session, urlHost);
    var url := Url.BuildProxyUrl(session.provider.value.url, session.requestUrl, parse);
    var hasBody := session.verb != "GET" && session.verb != "HEAD";
    var body := if hasBody && session.request.buffer.Some? then session.request.buffer else None;
    r := Ok(Outbound(session.verb, url, headers, body));
  }

  /** Whatever credentials the caller sent, the upstream sees only the provider's key (or the
      placeholder), in both `authorization` and `x-api-key`, and the provider's host. */
  lemma CallerCredentialsNeverReachUpstream(h1: HeaderMap, h2: HeaderMap, authState: AuthState, provider: Provider,
                                            urlHost: string -> Option<string>)
    ensures var r1 := OutboundHeaders(h1, Some(authState), Some(provider), urlHost);
      var r2 := OutboundHeaders(h2, Some(authState), Some(provider), urlHost);
      var key := OutboundKey(authState, provider);
      && r1["authorization"] == r2["authorization"] == "Bearer " + key
      && r1["x-api-key"] == r2["x-api-key"] == key
      && r1["host"] == r2["host"] == ExtractHost(provider.url, urlHost)
  {
    var o := ProxyOverrides(ExtractHost(provider.url, urlHost), OutboundKey(authState, provider));
    assert "authorization" in o && "x-api-key" in o && "host" in o;
  }

  /** The forwarding headers are never sent upstream, and every other caller header reaches the
      provider unchanged. */
  lemma OtherHeadersPassThrough(headers: HeaderMap, authState: AuthState, provider: Provider,
                                urlHost: string -> Option<string>, name: string)
    requires name in headers
    ensures var r := OutboundHeaders(headers, Some(authState), Some(provider), urlHost);
      && (name in ForwardingHeaders ==> name !in r)
      && (name !in ForwardingHeaders && name !in {"authorization", "host", "x-api-key"} ==>
            name in r && r[name] == headers[name])
  {
    var o := ProxyOverrides(ExtractHost(provider.url, urlHost), OutboundKey(authState, provider));
    assert o.Keys == {"host", "authorization", "x-api-key"};
    if name in ForwardingHeaders {
      BlacklistedNamesAreDropped(headers, DefaultBlacklist(None), o, name);
    }
  }
}
