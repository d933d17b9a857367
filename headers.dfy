/** src/app/v1/_lib/headers.ts: the header processor that rewrites the caller's headers before
    they go upstream. A Fetch `Headers` object is a map from lower-case names to values. */
module Headers {
  import opened Wrappers
  import opened Strings

  type HeaderMap = map<string, string>

  /** Names held by a Fetch `Headers` object are lower-case. */
  predicate IsHeaderMap(h: HeaderMap) {
    forall k :: k in h ==> ToLower(k) == k
  }

  /** `HeaderProcessorConfig`; `preserveAuthorization` is None when absent or undefined. */
  datatype Config = Config(blacklist: Option<seq<string>>, overrides: Option<seq<(string, string)>>,
                           preserveAuthorization: Option<bool>)

  const ForwardingHeaders: set<string> := {"x-forwarded-for", "x-forwarded-host", "x-forwarded-port", "x-forwarded-proto"}

  /** The default blacklist: the forwarding headers, and `authorization` unless preserved. */
  function DefaultBlacklist(preserveAuthorization: Option<bool>): (r: set<string>)
    ensures ForwardingHeaders <= r
    ensures "authorization" in r <==> preserveAuthorization != Some(true)
    ensures r <= ForwardingHeaders + {"authorization"}
  {
    if preserveAuthorization == Some(true) then ForwardingHeaders else ForwardingHeaders + {"authorization"}
  }

  /** The lower-cased names of a list. */
  function LowerAll(names: seq<string>): (r: set<string>)
    ensures forall n :: n in r <==> exists i :: 0 <= i < |names| && ToLower(names[i]) == n
    ensures forall n :: n in r ==> ToLower(n) == n
  {
    var r := set i | 0 <= i < |names| :: ToLower(names[i]);
    assert forall n :: n in r ==> ToLower(n) == n by {
      forall n | n in r ensures ToLower(n) == n {
        var i :| 0 <= i < |names| && ToLower(names[i]) == n;
        ToLowerIdempotent(names[i]);
      }
    }
    r
  }

  /** `new Map(Object.entries(o).map(([k, v]) => [k.toLowerCase(), v]))`: a later entry whose
      name lower-cases to the same key replaces an earlier one. */
  function LowerEntries(entries: seq<(string, string)>): (m: HeaderMap)
    ensures IsHeaderMap(m)
    ensures forall k :: k in m <==> exists i :: 0 <= i < |entries| && ToLower(entries[i].0) == k
    ensures forall i :: 0 <= i < |entries| && LastOfItsName(entries, i) ==>
      ToLower(entries[i].0) in m && m[ToLower(entries[i].0)] == entries[i].1
  {
    if entries == [] then map[]
    else
      var init, last := entries[..|entries| - 1], entries[|entries| - 1];
      var rest := LowerEntries(init);
      var m := rest[ToLower(last.0) := last.1];
      LastEntryKeys(entries, init, rest, m);
      LastEntryWins(entries, init, rest, m);
      m
  }

  /** Adding the last entry adds its lower-cased name to the keys. */
  lemma LastEntryKeys(entries: seq<(string, string)>, init: seq<(string, string)>, rest: HeaderMap, m: HeaderMap)
    requires entries != [] && init == entries[..|entries| - 1]
    requires m == rest[ToLower(entries[|entries| - 1].0) := entries[|entries| - 1].1]
    requires IsHeaderMap(rest)
    requires forall k :: k in rest <==> exists i :: 0 <= i < |init| && ToLower(init[i].0) == k
    ensures IsHeaderMap(m)
    ensures forall k :: k in m <==> exists i :: 0 <= i < |entries| && ToLower(entries[i].0) == k
  {
    ToLowerIdempotent(entries[|entries| - 1].0);
    forall k | k in rest
      ensures exists i :: 0 <= i < |entries| && ToLower(entries[i].0) == k
    {
      var i :| 0 <= i < |init| && ToLower(init[i].0) == k;
      assert ToLower(entries[i].0) == k;
    }
    forall i | 0 <= i < |init|
      ensures ToLower(entries[i].0) in m
    {
      assert init[i] == entries[i];
    }
  }

  /** Adding the last entry keeps "the last entry of each name gives its value". */
  lemma LastEntryWins(entries: seq<(string, string)>, init: seq<(string, string)>, rest: HeaderMap, m: HeaderMap)
    requires entries != [] && init == entries[..|entries| - 1]
    requires m == rest[ToLower(entries[|entries| - 1].0) := entries[|entries| - 1].1]
    requires forall i :: 0 <= i < |init| && LastOfItsName(init, i) ==>
      ToLower(init[i].0) in rest && rest[ToLower(init[i].0)] == init[i].1
    ensures forall i :: 0 <= i < |entries| && LastOfItsName(entries, i) ==>
      ToLower(entries[i].0) in m && m[ToLower(entries[i].0)] == entries[i].1
  {
    var n := |entries| - 1;
    forall i | 0 <= i < n && LastOfItsName(entries, i)
      ensures LastOfItsName(init, i) && ToLower(entries[i].0) != ToLower(entries[n].0)
    {
      assert init[i] == entries[i];
      forall j | i < j < n
        ensures ToLower(init[j].0) != ToLower(init[i].0)
      {
        assert init[j] == entries[j];
      }
    }
  }

  /** No later entry lower-cases to the same name as entry `i`. */
  predicate LastOfItsName(entries: seq<(string, string)>, i: nat)
    requires i < |entries|
  {
    forall j :: i < j < |entries| ==> ToLower(entries[j].0) != ToLower(entries[i].0)
  }

  /** The header set that `process` produces: the input minus the blacklist, then the overrides. */
  function Processed(headers: HeaderMap, blacklist: set<string>, overrides: HeaderMap): (r: HeaderMap)
    ensures forall k :: k in r <==> (k in headers && k !in blacklist) || k in overrides
    ensures forall k :: k in overrides ==> k in r && r[k] == overrides[k]
    ensures forall k :: k in headers && k !in blacklist && k !in overrides ==> k in r && r[k] == headers[k]
  {
    Kept(headers, blacklist) + overrides
  }

  function Kept(headers: HeaderMap, blacklist: set<string>): (r: HeaderMap) {
    map k | k in headers && k !in blacklist :: headers[k]
  }

  class HeaderProcessor {
    var blacklist: set<string>
    var overrides: HeaderMap

    constructor (config: Config)
      ensures blacklist == DefaultBlacklist(config.preserveAuthorization) + LowerAll(config.blacklist.GetOr([]))
      ensures overrides == LowerEntries(config.overrides.GetOr([]))
    {
      blacklist := DefaultBlacklist(config.preserveAuthorization) + LowerAll(config.blacklist.GetOr([]));
      overrides := LowerEntries(config.overrides.GetOr([]));
    }

    /** `process(headers)`: copies every header whose name is not blacklisted, then sets every
        override. The input is a value and stays as it was. */
    method Process(headers: HeaderMap) returns (processed: HeaderMap)
      requires IsHeaderMap(headers)
      ensures processed == Processed(headers, blacklist, overrides)
    {
      processed := map[];
      var pending := headers.Keys;
      while pending != {}
        invariant pending <= headers.Keys
        invariant processed == map k | k in headers && k !in pending && k !in blacklist :: headers[k]
        decreases pending
      {
        var key :| key in pending;
        var lowerKey := ToLower(key);
        assert lowerKey == key;
        if lowerKey !in blacklist {
          processed := processed[key := headers[key]];
        }
        pending := pending - {key};
      }
      assert processed == Kept(headers, blacklist);
      ghost var kept := processed;
      var remaining := overrides.Keys;
      while remaining != {}
        invariant remaining <= overrides.Keys
        invariant processed == kept + map k | k in overrides && k !in remaining :: overrides[k]
        decreases remaining
      {
        var key :| key in remaining;
        processed := processed[key := overrides[key]];
        remaining := remaining - {key};
      }
      assert (map k | k in overrides && k !in remaining :: overrides[k]) == overrides;
    }

    /** `HeaderProcessor.createForProxy(config)`: `{preserveAuthorization: false, ...config}`; a
        missing or undefined flag leaves `authorization` blacklisted. */
    static method CreateForProxy(config: Option<Config>) returns (p: HeaderProcessor)
      ensures fresh(p)
      ensures p.blacklist == DefaultBlacklist(if config.Some? then config.value.preserveAuthorization else Some(false))
                             + LowerAll(if config.Some? then config.value.blacklist.GetOr([]) else [])
      ensures p.overrides == LowerEntries(if config.Some? then config.value.overrides.GetOr([]) else [])
    {
      var c := if config.Some? then config.value else Config(None, None, None);
      p := new HeaderProcessor(Config(c.blacklist, c.overrides, if config.Some? then c.preserveAuthorization else Some(false)));
    }
  }

  /** A blacklisted name reaches the output only as an override. */
  lemma BlacklistedNamesAreDropped(headers: HeaderMap, blacklist: set<string>, overrides: HeaderMap, name: string)
    requires name in blacklist && name !in overrides
    ensures name !in Processed(headers, blacklist, overrides)
  {
  }

  /** Processing is idempotent: running the same processor on its own output changes nothing
      when the overrides themselves are not blacklisted. */
  lemma {:induction false} ProcessIsIdempotent(headers: HeaderMap, blacklist: set<string>, overrides: HeaderMap)
    requires forall k :: k in overrides ==> k !in blacklist
    ensures Processed(Processed(headers, blacklist, overrides), blacklist, overrides) == Processed(headers, blacklist, overrides)
  {
    var once := Processed(headers, blacklist, overrides);
    var twice := Processed(once, blacklist, overrides);
    assert forall k :: k in twice <==> k in once;
    assert forall k :: k in twice ==> twice[k] == once[k];
  }

  // -----------------------------------------------------------------------------------------
  // Host extraction

  /** The longest prefix holding no `/` (`[^/]+` read greedily). */
  function UpToSlash(s: string): (r: string)
    ensures StartsWith(s, r) && '/' !in r
    ensures |r| == |s| || s[|r|] == '/'
  {
    if s == [] || s[0] == '/' then [] else [s[0]] + UpToSlash(s[1..])
  }

  /** The fallback `baseUrl.match(/^https?:\/\/([^\/]+)/)`: the text after the scheme up to the
      first `/`, when it is not empty. */
  function HostByPattern(baseUrl: string): (r: Option<string>)
    ensures r.Some? ==> r.value != [] && '/' !in r.value
  {
    var rest := if StartsWith(baseUrl, "https://") then Some(baseUrl[8..])
                else if StartsWith(baseUrl, "http://") then Some(baseUrl[7..])
                else None;
    if rest.Some? && UpToSlash(rest.value) != [] then Some(UpToSlash(rest.value)) else None
  }

  /** `HeaderProcessor.extractHost(baseUrl)`: the parsed URL's host; when parsing throws, the
      pattern's capture, else `"localhost"`. `urlHost` is `new URL(s).host`, None when it throws. */
  function ExtractHost(baseUrl: string, urlHost: string -> Option<string>): (r: string)
    ensures urlHost(baseUrl).Some? ==> r == urlHost(baseUrl).value
    ensures urlHost(baseUrl).None? && HostByPattern(baseUrl).Some? ==> r == HostByPattern(baseUrl).value
    ensures urlHost(baseUrl).None? && HostByPattern(baseUrl).None? ==> r == "localhost"
  {
    match urlHost(baseUrl)
    case Some(host) => host
    case None => HostByPattern(baseUrl).GetOr("localhost")
  }

  lemma {:induction false} UpToSlashOfHost(host: string, path: string)
    requires '/' !in host
    ensures UpToSlash(host + path) == host || (path != [] && path[0] != '/')
    ensures path == [] || path[0] == '/' ==> UpToSlash(host + path) == host
  {
    if host != [] {
      assert (host + path)[1..] == host[1..] + path;
      UpToSlashOfHost(host[1..], path);
      assert [host[0]] + host[1..] == host;
    } else if path != [] && path[0] == '/' {
      assert (host + path)[0] == '/';
    }
  }

  /** The fallback recovers the host of `scheme://host/path` for either scheme. */
  lemma HostByPatternRecoversHost(secure: bool, host: string, path: string)
    requires host != [] && '/' !in host
    requires path == [] || path[0] == '/'
    ensures HostByPattern((if secure then "https://" else "http://") + host + path) == Some(host)
  {
    var scheme := if secure then "https://" else "http://";
    var s := scheme + host + path;
    assert s[..|scheme|] == scheme;
    assert s[|scheme|..] == host + path;
    UpToSlashOfHost(host, path);
    if !secure {
      assert s[4] == ':';
      assert !StartsWith(s, "https://");
    }
  }

  /** Without an `http://` or `https://` prefix the fallback is `"localhost"`. */
  lemma OtherSchemesFallBackToLocalhost(baseUrl: string, urlHost: string -> Option<string>)
    requires urlHost(baseUrl).None?
    requires !StartsWith(baseUrl, "http://") && !StartsWith(baseUrl, "https://")
    ensures ExtractHost(baseUrl, urlHost) == "localhost"
  {
  }
}
