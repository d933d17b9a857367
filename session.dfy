/** src/app/v1/_lib/proxy/session.ts: the per-request session that the pipeline stages share,
    and the request-body handling that builds it. */
module Session {
  import opened Wrappers
  import opened Strings
  import opened Json
  import opened Domain
  import opened Headers
  import Url
  import Seqs

  /** The outcome of authentication. */
  datatype AuthState = AuthState(user: Option<User>, apiKey: Option<string>, success: bool)

  /** The record of the request in the message store, once created. */
  datatype MessageContext = MessageContext(id: int, user: User, apiKey: string)

  /** A request message: the members of the parsed body object, in order. */
  type Message = seq<(string, Json)>

  /** `ProxyRequestPayload` */
  datatype RequestPayload = RequestPayload(
    message: Message, buffer: Option<seq<bv8>>, log: string, note: Option<string>, model: Option<string>)

  const EmptyLog := "(empty)"
  const RawBodyNote := "请求体不是合法 JSON，已记录原始文本。"

  // ---------------------------------------------------------------------------------------
  // Provider reuse and the optimised message

  /** `Array.isArray(message.messages) && message.messages.length > 1` */
  predicate IsMultiMessage(message: Message) {
    match Lookup(message, "messages")
    case Some(JArray(items)) => |items| > 1
    case _ => false
  }

  /** The members whose arrays the optimised message replaces by placeholders. */
  predicate IsBulkyMember(name: string) {
    name == "system" || name == "messages" || name == "tools"
  }

  /** `new Array(n).fill(0)` */
  function Zeros(n: nat): (r: seq<Json>)
    ensures |r| == n && forall i :: 0 <= i < n ==> r[i] == JNumber(0.0)
  {
    seq(n, _ => JNumber(0.0))
  }

  function Placeholder(member: (string, Json)): (r: (string, Json))
    ensures r.0 == member.0
  {
    if IsBulkyMember(member.0) && member.1.JArray? then (member.0, JArray(Zeros(|member.1.items|))) else member
  }

  /** `optimizeRequestMessage(message)`: a copy in which `system`, `messages` and `tools`, when
      they are arrays, become arrays of as many zeros. */
  function OptimizeRequestMessage(message: Message): (r: Message)
    ensures |r| == |message|
    ensures forall i :: 0 <= i < |r| ==> r[i] == Placeholder(message[i])
  {
    Seqs.Map(message, Placeholder)
  }

  /** Looking a member up in the optimised message gives the placeholder of the original. */
  lemma {:induction false} LookupOptimized(message: Message, name: string)
    ensures Lookup(OptimizeRequestMessage(message), name) == (
      match Lookup(message, name)
      case Some(v) => Some(Placeholder((name, v)).1)
      case None => None)
  {
    if message != [] {
      var opt := OptimizeRequestMessage(message);
      assert opt[1..] == OptimizeRequestMessage(message[1..]);
      LookupOptimized(message[1..], name);
    }
  }

  /** Every member keeps its name and its position; members other than the three bulky ones
      keep their value; the bulky arrays keep their length. */
  lemma OptimizeKeepsShape(message: Message, name: string)
    ensures IsBulkyMember(name) ==>
      match Lookup(message, name)
      case Some(JArray(items)) => Lookup(OptimizeRequestMessage(message), name) == Some(JArray(Zeros(|items|)))
      case other => Lookup(OptimizeRequestMessage(message), name) == other
    ensures !IsBulkyMember(name) ==> Lookup(OptimizeRequestMessage(message), name) == Lookup(message, name)
  {
    LookupOptimized(message, name);
  }

  /** The reuse decision on the optimised message is the decision on the original body. */
  lemma ReuseDecisionSurvivesOptimization(message: Message)
    ensures IsMultiMessage(OptimizeRequestMessage(message)) == IsMultiMessage(message)
  {
    LookupOptimized(message, "messages");
  }

  /** Optimising twice is optimising once. */
  lemma OptimizeIsIdempotent(message: Message)
    ensures OptimizeRequestMessage(OptimizeRequestMessage(message)) == OptimizeRequestMessage(message)
  {
    var once := OptimizeRequestMessage(message);
    assert forall i :: 0 <= i < |once| ==> Placeholder(once[i]) == once[i];
  }

  // ---------------------------------------------------------------------------------------
  // Body parsing

  datatype BodyResult = BodyResult(message: Message, log: string, note: Option<string>, buffer: Option<seq<bv8>>)

  predicate HasBody(verb: string) {
    verb != "GET" && verb != "HEAD"
  }

  /** `parseRequestBody`: GET and HEAD carry no body; otherwise the raw bytes are kept, the
      decoded text is parsed as JSON and the message is its optimised copy, or `{raw: text}`
      with a note when the text is not JSON. `decode` is `TextDecoder.decode`, `parse` is
      `JSON.parse` (None when it throws) and `stringify` is `JSON.stringify(v, null, 2)`. */
  function ParseRequestBody(verb: string, body: seq<bv8>, decode: seq<bv8> -> string,
                            parse: string -> Option<Json>, stringify: Json -> string): (r: BodyResult)
    ensures !HasBody(verb) ==> r == BodyResult([], EmptyLog, None, None)
    ensures HasBody(verb) ==> r.buffer == Some(body)
    ensures HasBody(verb) && parse(decode(body)).Some? ==>
      r.message == OptimizeRequestMessage(Entries(parse(decode(body)).value)) && r.note.None?
      && r.log == stringify(parse(decode(body)).value)
    ensures HasBody(verb) && parse(decode(body)).None? ==>
      r.message == [("raw", JString(decode(body)))] && r.log == decode(body) && r.note == Some(RawBodyNote)
  {
    if !HasBody(verb) then BodyResult([], EmptyLog, None, None)
    else
      var text := decode(body);
      match parse(text)
      case Some(parsed) => BodyResult(OptimizeRequestMessage(Entries(parsed)), stringify(parsed), None, Some(body))
      case None => BodyResult([("raw", JString(text))], text, Some(RawBodyNote), Some(body))
  }

  /** A body that is not JSON is never a multi-message request. */
  lemma RawBodyIsNotMultiMessage(verb: string, body: seq<bv8>, decode: seq<bv8> -> string,
                                 parse: string -> Option<Json>, stringify: Json -> string)
    requires parse(decode(body)).None?
    ensures !IsMultiMessage(ParseRequestBody(verb, body, decode, parse, stringify).message)
  {
  }

  /** The `model` member when it is a string, else null. */
  function ModelOf(message: Message): (r: Option<string>)
    ensures r.Some? <==> Lookup(message, "model").Some? && Lookup(message, "model").value.JString?
    ensures r.Some? ==> Lookup(message, "model") == Some(JString(r.value))
  {
    match Lookup(message, "model")
    case Some(JString(s)) => Some(s)
    case _ => None
  }

  // ---------------------------------------------------------------------------------------
  // Header log

  function HeaderLine(header: (string, string)): string {
    header.0 + ": " + header.1
  }

  /** The header log of a request: one `name: value` line per header, or `"(empty)"`. */
  function HeaderLog(entries: seq<(string, string)>): string {
    if entries == [] then EmptyLog else Join(Seqs.Map(entries, HeaderLine), "\n")
  }

  /** `formatHeadersForLog(headers)`; `entries` are the headers in their iteration order. */
  method FormatHeadersForLog(entries: seq<(string, string)>) returns (log: string)
    ensures log == HeaderLog(entries)
  {
    var collected: seq<string> := [];
    var i := 0;
    while i < |entries|
      invariant 0 <= i <= |entries|
      invariant collected == Seqs.Map(entries[..i], HeaderLine)
    {
      collected := collected + [HeaderLine(entries[i])];
      i := i + 1;
      assert entries[..i] == entries[..i - 1] + [entries[i - 1]];
      MapSnoc(entries[..i - 1], entries[i - 1], HeaderLine);
    }
    assert entries[..i] == entries;
    log := if |collected| > 0 then Join(collected, "\n") else EmptyLog;
  }

  lemma {:induction false} MapSnoc<T, U>(s: seq<T>, x: T, f: T -> U)
    ensures Seqs.Map(s + [x], f) == Seqs.Map(s, f) + [f(x)]
  {
  }

  /** When no name or value holds a line break, the log splits back into one line per header. */
  lemma HeaderLogLines(entries: seq<(string, string)>)
    requires entries != []
    requires forall i :: 0 <= i < |entries| ==> '\n' !in entries[i].0 && '\n' !in entries[i].1
    ensures Split(HeaderLog(entries), '\n') == Seqs.Map(entries, HeaderLine)
  {
    var lines := Seqs.Map(entries, HeaderLine);
    forall i | 0 <= i < |lines| ensures '\n' !in lines[i] {
      LineHasNoBreak(entries[i]);
    }
    SplitJoin(lines, '\n');
  }

  lemma LineHasNoBreak(header: (string, string))
    requires '\n' !in header.0 && '\n' !in header.1
    ensures '\n' !in HeaderLine(header)
  {
    var line := HeaderLine(header);
    var n := |header.0|;
    forall j | 0 <= j < |line| ensures line[j] != '\n' {
      if j < n {
        assert line[j] == header.0[j];
      } else if j < n + 2 {
        assert line[j] == ": "[j - n];
      } else {
        assert line[j] == header.1[j - n - 2];
      }
    }
  }

  /** The log is `"(empty)"` exactly when there are no headers. */
  lemma HeaderLogIsEmptyOnlyWithoutHeaders(entries: seq<(string, string)>)
    ensures HeaderLog(entries) == EmptyLog <==> entries == []
  {
    if entries != [] {
      var lines := Seqs.Map(entries, HeaderLine);
      JoinStartsWithFirst(lines, "\n");
      var k := |entries[0].0|;
      assert HeaderLog(entries)[k] == lines[0][k] == ':';
      assert forall j :: 0 <= j < |EmptyLog| ==> EmptyLog[j] != ':';
    }
  }

  /** `entries` lists the pairs of `headers`, each name once. */
  predicate Lists(entries: seq<(string, string)>, headers: HeaderMap) {
    && (forall i :: 0 <= i < |entries| ==> entries[i].0 in headers && headers[entries[i].0] == entries[i].1)
    && (forall k :: k in headers ==> exists i :: 0 <= i < |entries| && entries[i].0 == k)
    && (forall i, j :: 0 <= i < j < |entries| ==> entries[i].0 != entries[j].0)
  }

  /** The session's header log is `"(empty)"` exactly when the request has no headers. */
  lemma HeaderLogIsEmptyIffNoHeaders(entries: seq<(string, string)>, headers: HeaderMap)
    requires Lists(entries, headers)
    ensures HeaderLog(entries) == EmptyLog <==> headers == map[]
  {
    HeaderLogIsEmptyOnlyWithoutHeaders(entries);
    if headers != map[] {
      var k :| k in headers;
      assert entries != [];
    }
  }

  // ---------------------------------------------------------------------------------------
  // The session

  /** The request payload a session holds: the parsed body, the raw bytes, the log text, the
      note and the model the body names. */
  function Payload(verb: string, body: seq<bv8>, decode: seq<bv8> -> string,
                   parse: string -> Option<Json>, stringify: Json -> string): (r: RequestPayload)
    ensures var b := ParseRequestBody(verb, body, decode, parse, stringify);
      r.message == b.message && r.buffer == b.buffer && r.model == ModelOf(b.message)
  {
    var b := ParseRequestBody(verb, body, decode, parse, stringify);
    RequestPayload(b.message, b.buffer, b.log, b.note, ModelOf(b.message))
  }

  class ProxySession {
    const startTime: int
    const verb: string
    const requestUrl: Url.RequestUrl
    const headers: HeaderMap
    const headerLog: string
    const request: RequestPayload
    var userName: string
    var authState: Option<AuthState>
    var provider: Option<Provider>
    var messageContext: Option<MessageContext>

    /** A fresh session: no user name yet, nothing authenticated, chosen or recorded. */
    constructor (startTime: int, verb: string, requestUrl: Url.RequestUrl, headers: HeaderMap,
                 headerLog: string, request: RequestPayload)
      ensures this.startTime == startTime && this.verb == verb && this.requestUrl == requestUrl
      ensures this.headers == headers && this.headerLog == headerLog && this.request == request
      ensures userName == "unknown" && authState.None? && provider.None? && messageContext.None?
    {
      this.startTime := startTime;
      this.verb := verb;
      this.requestUrl := requestUrl;
      this.headers := headers;
      this.headerLog := headerLog;
      this.request := request;
      userName := "unknown";
      authState := None;
      provider := None;
      messageContext := None;
    }

    /** `ProxySession.fromContext(c)`: `now` is `Date.now()`, `entries` the request headers in
        iteration order and `body` the request bytes. */
    static method FromContext(now: int, rawMethod: string, requestUrl: Url.RequestUrl, headers: HeaderMap,
                              entries: seq<(string, string)>, body: seq<bv8>, decode: seq<bv8> -> string,
                              parse: string -> Option<Json>, stringify: Json -> string)
      returns (s: ProxySession)
      requires Lists(entries, headers)
      ensures fresh(s)
      ensures s.startTime == now && s.verb == ToUpper(rawMethod) && s.requestUrl == requestUrl && s.headers == headers
      ensures s.headerLog == HeaderLog(entries)
      ensures s.request == Payload(ToUpper(rawMethod), body, decode, parse, stringify)
      ensures s.userName == "unknown" && s.authState.None? && s.provider.None? && s.messageContext.None?
    {
      var verb := ToUpper(rawMethod);
      var headerLog := FormatHeadersForLog(entries);
      var request := Payload(verb, body, decode, parse, stringify);
      s := new ProxySession(now, verb, requestUrl, headers, headerLog, request);
    }

    /** `setAuthState(state)`: the user name follows the authenticated user, when there is one. */
    method SetAuthState(state: AuthState)
      modifies this
      ensures authState == Some(state)
      ensures userName == (if state.user.Some? then state.user.value.name else old(userName))
      ensures provider == old(provider) && messageContext == old(messageContext)
    {
      authState := Some(state);
      if state.user.Some? {
        userName := state.user.value.name;
      }
    }

    /** `setProvider(provider)` */
    method SetProvider(p: Option<Provider>)
      modifies this
      ensures provider == p
      ensures userName == old(userName) && authState == old(authState) && messageContext == old(messageContext)
    {
      provider := p;
    }

    /** `setMessageContext(context)`: the user name follows the context's user. */
    method SetMessageContext(context: Option<MessageContext>)
      modifies this
      ensures messageContext == context
      ensures userName == (if context.Some? then context.value.user.name else old(userName))
      ensures provider == old(provider) && authState == old(authState)
    {
      messageContext := context;
      if context.Some? {
        userName := context.value.user.name;
      }
    }

    /** `shouldReuseProvider()` */
    predicate ShouldReuseProvider()
      reads this
    {
      IsMultiMessage(request.message)
    }
  }
}
