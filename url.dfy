/** src/app/v1/_lib/url.ts: the upstream URL of a proxied request, from the provider's base URL
    and the caller's request URL. */
module Url {
  import opened Wrappers
  import opened Strings

  /** A parsed URL: everything before the path (scheme, credentials, host and port), the path,
      the query with its `?` (or empty) and the fragment with its `#` (or empty). */
  datatype UrlParts = UrlParts(origin: string, pathname: string, search: string, hash: string)

  /** The parts of the incoming request URL that reach upstream. */
  datatype RequestUrl = RequestUrl(pathname: string, search: string)

  /** `s.replace(/\/$/, '')`: at most one trailing slash removed. */
  function TrimTrailingSlash(s: string): (r: string)
    ensures s == r || s == r + "/"
    ensures s != [] && s[|s| - 1] == '/' <==> s == r + "/"
  {
    if s != [] && s[|s| - 1] == '/' then s[..|s| - 1] else s
  }

  /** The query a URL holds after `url.search = s`: a leading `?` is dropped and an empty query
      reads back as the empty string. */
  function SearchAfterSet(s: string): (r: string)
    ensures r == [] || r[0] == '?'
  {
    var query := if s != [] && s[0] == '?' then s[1..] else s;
    if query == [] then [] else "?" + query
  }

  /** What a URL's `search` getter can return: empty, or `?` followed by a non-empty query. */
  predicate IsSearch(s: string) {
    s == [] || (|s| > 1 && s[0] == '?')
  }

  /** Setting a URL's search to another URL's search leaves the text as it was. */
  lemma SearchRoundTrip(s: string)
    requires IsSearch(s)
    ensures SearchAfterSet(s) == s
  {
    if s != [] {
      assert "?" + s[1..] == s;
    }
  }

  /** A URL object whose path and query the builder overwrites. */
  class UrlObject {
    var origin: string
    var pathname: string
    var search: string
    var hash: string

    constructor (parts: UrlParts)
      ensures origin == parts.origin && pathname == parts.pathname && search == parts.search && hash == parts.hash
    {
      origin, pathname, search, hash := parts.origin, parts.pathname, parts.search, parts.hash;
    }

    method SetPathname(p: string)
      modifies this
      ensures pathname == p && origin == old(origin) && search == old(search) && hash == old(hash)
    {
      pathname := p;
    }

    method SetSearch(s: string)
      modifies this
      ensures search == SearchAfterSet(s) && origin == old(origin) && pathname == old(pathname) && hash == old(hash)
    {
      search := SearchAfterSet(s);
    }

    /** `url.toString()` */
    function Href(): string
      reads this
    {
      origin + pathname + search + hash
    }
  }

  /** The URL `buildProxyUrl` returns; `parse` is `new URL(s)`, None when it throws. */
  function ProxyUrl(baseUrl: string, request: RequestUrl, parse: string -> Option<UrlParts>): string {
    match parse(baseUrl)
    case Some(base) => base.origin + TrimTrailingSlash(base.pathname) + request.pathname + SearchAfterSet(request.search) + base.hash
    case None => TrimTrailingSlash(baseUrl) + request.pathname + request.search
  }

  /** `buildProxyUrl(baseUrl, requestUrl)`: the base URL with its path extended by the request
      path and its query replaced by the request's; string concatenation when the base URL does
      not parse. It never throws. */
  method BuildProxyUrl(baseUrl: string, request: RequestUrl, parse: string -> Option<UrlParts>) returns (r: string)
    ensures r == ProxyUrl(baseUrl, request, parse)
  {
    var parsed := parse(baseUrl);
    if parsed.Some? {
      var url := new UrlObject(parsed.value);
      var basePath := TrimTrailingSlash(url.pathname);
      url.SetPathname(basePath + request.pathname);
      url.SetSearch(request.search);
      r := url.Href();
    } else {
      r := TrimTrailingSlash(baseUrl) + request.pathname + request.search;
    }
  }

  /** The result path is the base path, without one trailing slash, then the request path; the
      query is the request's own, and the base URL's query is gone. */
  lemma ParsedBaseKeepsRequestPathAndQuery(baseUrl: string, request: RequestUrl, parse: string -> Option<UrlParts>)
    requires parse(baseUrl).Some? && IsSearch(request.search)
    ensures var base := parse(baseUrl).value;
      ProxyUrl(baseUrl, request, parse) == base.origin + TrimTrailingSlash(base.pathname) + request.pathname + request.search + base.hash
  {
    SearchRoundTrip(request.search);
  }

  /** Two base URLs that differ only in their query give the same upstream URL. */
  lemma BaseQueryIsDiscarded(a: string, b: string, request: RequestUrl, parse: string -> Option<UrlParts>)
    requires parse(a).Some? && parse(b).Some?
    requires parse(a).value.(search := "") == parse(b).value.(search := "")
    ensures ProxyUrl(a, request, parse) == ProxyUrl(b, request, parse)
  {
  }

  /** A base path written with or without its trailing slash gives the same upstream URL. */
  lemma TrailingSlashIsIgnored(base: UrlParts, request: RequestUrl, parse: string -> Option<UrlParts>, a: string, b: string)
    requires base.pathname == [] || base.pathname[|base.pathname| - 1] != '/'
    requires parse(a) == Some(base) && parse(b) == Some(base.(pathname := base.pathname + "/"))
    ensures ProxyUrl(a, request, parse) == ProxyUrl(b, request, parse)
  {
    var p := base.pathname + "/";
    assert p[..|p| - 1] == base.pathname;
  }

  /** When the base URL does not parse, a trailing slash on it is dropped before the request
      path and query are appended. */
  lemma UnparsedBaseIsConcatenated(baseUrl: string, request: RequestUrl, parse: string -> Option<UrlParts>)
    requires parse(baseUrl).None? && parse(baseUrl + "/").None?
    requires baseUrl == [] || baseUrl[|baseUrl| - 1] != '/'
    ensures ProxyUrl(baseUrl + "/", request, parse) == ProxyUrl(baseUrl, request, parse) == baseUrl + request.pathname + request.search
  {
    var s := baseUrl + "/";
    assert s[..|s| - 1] == baseUrl;
  }
}
