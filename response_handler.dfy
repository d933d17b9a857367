/** src/app/v1/_lib/proxy/response-handler.ts: hands the upstream response to the client and
    completes the billing row (duration, then cost from the reported token usage). The work the
    source does in a detached task after returning is modelled as happening in sequence. */
module ResponseHandler {
  import opened Wrappers
  import opened Strings
  import opened Json
  import opened Domain
  import opened Headers
  import opened Responses
  import opened Cost
  import opened Sse
  import opened Session
  import opened MessageRepository
  import opened ModelPriceRepository

  const EventStream := "text/event-stream"
  const MessageDelta := "message_delta"

  const InputTokens := "input_tokens"
  const OutputTokens := "output_tokens"
  const CacheCreationInputTokens := "cache_creation_input_tokens"
  const CacheReadInputTokens := "cache_read_input_tokens"

  /** `(headers.get("content-type") || "").includes("text/event-stream")` */
  predicate IsEventStream(headers: HeaderMap) {
    "content-type" in headers && Contains(headers["content-type"], EventStream)
  }

  // ---------------------------------------------------------------------------------------
  // Usage metrics

  /** The usage a value reports: the numeric members among the four token counts of a truthy
      object-like value, when there is at least one. */
  function UsageOf(value: Option<Json>): (r: Option<UsageMetrics>)
    ensures r.Some? ==> Truthy(value) && IsObjectLike(value.value) && r.value != NoUsage
    ensures r.Some? ==> && r.value.inputTokens == NumberField(value.value, InputTokens)
                        && r.value.outputTokens == NumberField(value.value, OutputTokens)
                        && r.value.cacheCreationInputTokens == NumberField(value.value, CacheCreationInputTokens)
                        && r.value.cacheReadInputTokens == NumberField(value.value, CacheReadInputTokens)
  {
    if !Truthy(value) || !IsObjectLike(value.value) then None
    else
      var u := UsageMetrics(NumberField(value.value, InputTokens), NumberField(value.value, OutputTokens),
                            NumberField(value.value, CacheCreationInputTokens),
                            NumberField(value.value, CacheReadInputTokens));
      if u == NoUsage then None else Some(u)
  }

  /** `extractUsageMetrics(value)`: copies each numeric count and remembers whether it saw any. */
  method ExtractUsageMetrics(value: Option<Json>) returns (r: Option<UsageMetrics>)
    ensures r == UsageOf(value)
  {
    if !Truthy(value) || !IsObjectLike(value.value) {
      return None;
    }
    var usage := value.value;
    var result := NoUsage;
    var hasAny := false;
    var n := NumberField(usage, InputTokens);
    if n.Some? {
      result := result.(inputTokens := n);
      hasAny := true;
    }
    n := NumberField(usage, OutputTokens);
    if n.Some? {
      result := result.(outputTokens := n);
      hasAny := true;
    }
    n := NumberField(usage, CacheCreationInputTokens);
    if n.Some? {
      result := result.(cacheCreationInputTokens := n);
      hasAny := true;
    }
    n := NumberField(usage, CacheReadInputTokens);
    if n.Some? {
      result := result.(cacheReadInputTokens := n);
      hasAny := true;
    }
    r := if hasAny then Some(result) else None;
  }

  /** The `usage` object an upstream would send for the given counts: the present ones only. */
  function UsageJson(u: UsageMetrics): Json {
    JObject(Members(UsageCounts(u)))
  }

  /** The four counts under their member names. */
  function UsageCounts(u: UsageMetrics): seq<(string, Option<real>)> {
    [(InputTokens, u.inputTokens), (OutputTokens, u.outputTokens),
     (CacheCreationInputTokens, u.cacheCreationInputTokens), (CacheReadInputTokens, u.cacheReadInputTokens)]
  }

  /** The object members for named counts, skipping the absent ones. */
  function Members(counts: seq<(string, Option<real>)>): seq<(string, Json)> {
    if counts == [] then []
    else (if counts[0].1.Some? then [(counts[0].0, JNumber(counts[0].1.value))] else []) + Members(counts[1..])
  }

  function NumberOf(n: Option<real>): Option<Json> {
    if n.Some? then Some(JNumber(n.value)) else None
  }

  /** Members under names other than `name` do not hide a later member named `name`. */
  lemma {:induction false} LookupSkips(a: seq<(string, Json)>, b: seq<(string, Json)>, name: string)
    requires forall i :: 0 <= i < |a| ==> a[i].0 != name
    ensures Lookup(a + b, name) == Lookup(b, name)
  {
    if a == [] {
      assert a + b == b;
    } else {
      assert (a + b)[0] == a[0] && (a + b)[1..] == a[1..] + b;
      LookupSkips(a[1..], b, name);
    }
  }

  /** The members built for counts none of which is named `name` are not named `name`. */
  lemma {:induction false} MembersAvoid(counts: seq<(string, Option<real>)>, name: string)
    requires forall i :: 0 <= i < |counts| ==> counts[i].0 != name
    ensures forall i :: 0 <= i < |Members(counts)| ==> Members(counts)[i].0 != name
  {
    if counts != [] {
      MembersAvoid(counts[1..], name);
    }
  }

  /** Under distinct names, every count is found under its own name: the present ones as
      numbers, the absent ones not at all. */
  lemma {:induction false} LookupMembers(counts: seq<(string, Option<real>)>, k: nat)
    requires k < |counts|
    requires forall i, j :: 0 <= i < j < |counts| ==> counts[i].0 != counts[j].0
    ensures Lookup(Members(counts), counts[k].0) == NumberOf(counts[k].1)
  {
    var head := if counts[0].1.Some? then [(counts[0].0, JNumber(counts[0].1.value))] else [];
    assert Members(counts) == head + Members(counts[1..]);
    if k == 0 {
      if counts[0].1.None? {
        MembersAvoid(counts[1..], counts[0].0);
        LookupSkips(head, Members(counts[1..]), counts[0].0);
      }
    } else {
      LookupSkips(head, Members(counts[1..]), counts[k].0);
      LookupMembers(counts[1..], k - 1);
    }
  }

  lemma UsageNamesAreDistinct()
    ensures InputTokens != OutputTokens && InputTokens != CacheCreationInputTokens
    ensures InputTokens != CacheReadInputTokens && OutputTokens != CacheCreationInputTokens
    ensures OutputTokens != CacheReadInputTokens && CacheCreationInputTokens != CacheReadInputTokens
  {
    assert InputTokens[0] == 'i' && OutputTokens[0] == 'o' && CacheCreationInputTokens[0] == 'c';
    assert CacheCreationInputTokens[6] == 'c' && CacheReadInputTokens[6] == 'r' && CacheReadInputTokens[0] == 'c';
  }

  /** Reading back the counts of a `usage` object gives the counts, and nothing when it holds none. */
  lemma UsageCountsAreDistinct(u: UsageMetrics)
    ensures forall i, j :: 0 <= i < j < |UsageCounts(u)| ==> UsageCounts(u)[i].0 != UsageCounts(u)[j].0
  {
    UsageNamesAreDistinct();
  }

  /** Each count of a `usage` object is read back under its own name. */
  lemma UsageJsonFields(u: UsageMetrics)
    ensures NumberField(UsageJson(u), InputTokens) == u.inputTokens
    ensures NumberField(UsageJson(u), OutputTokens) == u.outputTokens
    ensures NumberField(UsageJson(u), CacheCreationInputTokens) == u.cacheCreationInputTokens
    ensures NumberField(UsageJson(u), CacheReadInputTokens) == u.cacheReadInputTokens
  {
    CountIsFound(u, 0);
    CountIsFound(u, 1);
    CountIsFound(u, 2);
    CountIsFound(u, 3);
  }

  lemma CountIsFound(u: UsageMetrics, k: nat)
    requires k < 4
    ensures NumberField(UsageJson(u), UsageCounts(u)[k].0) == UsageCounts(u)[k].1
  {
    UsageCountsAreDistinct(u);
    LookupMembers(UsageCounts(u), k);
  }

  /** Reading back the counts of a `usage` object gives the counts, and nothing when it holds none. */
  lemma UsageRoundTrip(u: UsageMetrics)
    ensures UsageOf(Some(UsageJson(u))) == if u == NoUsage then None else Some(u)
  {
    UsageJsonFields(u);
  }

  // ---------------------------------------------------------------------------------------
  // The usage of a stream

  /** The usage a `message_delta` event carries; other events and non-object data carry none. */
  function DeltaUsage(e: SseEvent): Option<UsageMetrics> {
    if e.event == MessageDelta && e.data.Parsed? && IsObjectLike(e.data.value)
    then UsageOf(Get(e.data.value, "usage"))
    else None
  }

  /** The usage each event carries, in order. */
  function DeltaUsages(events: seq<SseEvent>): (r: seq<Option<UsageMetrics>>)
    ensures |r| == |events| && forall i :: 0 <= i < |events| ==> r[i] == DeltaUsage(events[i])
  {
    seq(|events|, i requires 0 <= i < |events| => DeltaUsage(events[i]))
  }

  /** The last present value of a sequence. */
  function LastPresent(xs: seq<Option<UsageMetrics>>): Option<UsageMetrics> {
    if xs == [] then None
    else if xs[|xs| - 1].Some? then xs[|xs| - 1]
    else LastPresent(xs[..|xs| - 1])
  }

  /** The usage of the last `message_delta` event that carries one. */
  function LastDeltaUsage(events: seq<SseEvent>): Option<UsageMetrics> {
    LastPresent(DeltaUsages(events))
  }

  /** No value after position `i` is present. */
  predicate AbsentAfter(xs: seq<Option<UsageMetrics>>, i: int) {
    forall j :: 0 <= j < |xs| && i < j ==> xs[j].None?
  }

  /** The value at `i` is the last present one. */
  predicate LastAt(xs: seq<Option<UsageMetrics>>, i: int) {
    0 <= i < |xs| && xs[i] == LastPresent(xs) && AbsentAfter(xs, i)
  }

  /** Nothing is kept exactly when nothing is present; what is kept is the last present value. */
  lemma {:induction false} LastPresentIsLast(xs: seq<Option<UsageMetrics>>)
    ensures LastPresent(xs).None? <==> AbsentAfter(xs, -1)
    ensures LastPresent(xs).Some? ==> exists i :: LastAt(xs, i)
  {
    if xs != [] {
      var n := |xs| - 1;
      var init := xs[..n];
      LastPresentIsLast(init);
      assert forall j :: 0 <= j < n ==> init[j] == xs[j];
      if xs[n].Some? {
        assert LastAt(xs, n);
      } else if LastPresent(init).Some? {
        var i :| LastAt(init, i);
        assert LastAt(xs, i);
      } else {
        assert AbsentAfter(xs, -1);
      }
    }
  }

  /** The usage kept from a stream is that of a `message_delta` event after which no event
      carries usage; there is none exactly when no event carries usage. */
  lemma StreamUsageIsLastDelta(events: seq<SseEvent>)
    ensures LastDeltaUsage(events).None? <==> forall j :: 0 <= j < |events| ==> DeltaUsage(events[j]).None?
    ensures LastDeltaUsage(events).Some? ==>
      exists i :: && 0 <= i < |events| && events[i].event == MessageDelta
                  && DeltaUsage(events[i]) == LastDeltaUsage(events)
                  && forall j :: i < j < |events| ==> DeltaUsage(events[j]).None?
  {
    var xs := DeltaUsages(events);
    LastPresentIsLast(xs);
    if LastPresent(xs).Some? {
      var i :| LastAt(xs, i);
      assert DeltaUsage(events[i]).Some?;
    }
  }

  /** One more event keeps its own usage if it carries one, and the earlier last one otherwise. */
  lemma UsageStep(events: seq<SseEvent>, i: int)
    requires 0 <= i < |events|
    ensures LastPresent(DeltaUsages(events[..i + 1]))
            == if DeltaUsage(events[i]).Some? then DeltaUsage(events[i]) else LastPresent(DeltaUsages(events[..i]))
  {
    var xs := DeltaUsages(events[..i + 1]);
    assert xs[..i] == DeltaUsages(events[..i]);
  }

  /** The loop over the parsed events that keeps the latest usage it finds. */
  method SelectUsage(events: seq<SseEvent>) returns (usageForCost: Option<UsageMetrics>)
    ensures usageForCost == LastDeltaUsage(events)
  {
    usageForCost := None;
    for i := 0 to |events|
      invariant usageForCost == LastPresent(DeltaUsages(events[..i]))
    {
      var event := events[i];
      var found: Option<UsageMetrics> := None;
      if event.event == MessageDelta && event.data.Parsed? && IsObjectLike(event.data.value) {
        found := ExtractUsageMetrics(Get(event.data.value, "usage"));
        if found.Some? {
          usageForCost := found;
        }
      }
      assert found == DeltaUsage(events[i]);
      UsageStep(events, i);
    }
    assert events[..|events|] == events;
  }

  // ---------------------------------------------------------------------------------------
  // Cost

  /** The price row consulted for a model name, and none for a missing or empty name. */
  function PriceFor(modelName: Option<string>, prices: PriceTable): Option<ModelPrice>
    reads prices
    requires prices.Valid()
  {
    if modelName.None? || modelName.value == [] then None else prices.FindLatestPriceByModel(modelName.value)
  }

  /** The cost `updateRequestCostFromUsage` writes, if it writes one: only for a named model
      with usage and a price row with price data, and only when the cost is positive. */
  function CostToRecord(modelName: Option<string>, usage: Option<UsageMetrics>, prices: PriceTable): (r: Option<real>)
    reads prices
    requires prices.Valid()
    ensures r.Some? <==> && usage.Some? && PriceFor(modelName, prices).Some?
                         && Truthy(Some(PriceFor(modelName, prices).value.priceData))
                         && RequestCost(usage.value, PriceFor(modelName, prices).value.priceData) > 0.0
    ensures r.Some? ==> && r.value > 0.0 && modelName.Some? && modelName.value != []
                        && r.value == RequestCost(usage.value, PriceFor(modelName, prices).value.priceData)
  {
    if usage.None? then None
    else
      match PriceFor(modelName, prices)
      case None => None
      case Some(price) =>
        if !Truthy(Some(price.priceData)) then None
        else
          var cost := RequestCost(usage.value, price.priceData);
          if cost > 0.0 then Some(cost) else None
  }

  /** The rows after `updateRequestCostFromUsage`. */
  function CostApplied(rows: seq<MessageRow>, messageId: int, modelName: Option<string>,
                       usage: Option<UsageMetrics>, prices: PriceTable, now: int): seq<MessageRow>
    reads prices
    requires prices.Valid()
  {
    match CostToRecord(modelName, usage, prices)
    case Some(cost) => WithCost(rows, messageId, cost, now)
    case None => rows
  }

  /** `updateRequestCostFromUsage(messageId, modelName, usage)` */
  method UpdateRequestCostFromUsage(messageId: int, modelName: Option<string>, usage: Option<UsageMetrics>,
                                    prices: PriceTable, messages: MessageTable, now: int)
    requires prices.Valid() && messages.Valid()
    modifies messages
    ensures messages.Valid() && messages.nextId == old(messages.nextId)
    ensures messages.rows == CostApplied(old(messages.rows), messageId, modelName, usage, prices, now)
  {
    if modelName.None? || modelName.value == [] || usage.None? {
      return;
    }
    var priceData := prices.FindLatestPriceByModel(modelName.value);
    if priceData.Some? && Truthy(Some(priceData.value.priceData)) {
      var cost := CalculateRequestCost(usage.value, priceData.value.priceData);
      if cost > 0.0 {
        messages.UpdateMessageRequestCost(messageId, cost, now);
      }
    }
  }

  // ---------------------------------------------------------------------------------------
  // Dispatch

  /** Whether the stream path tees the body: it needs a billing row, a provider and a body. */
  predicate TeesStream(context: Option<MessageContext>, provider: Option<Provider>, response: Response) {
    context.Some? && provider.Some? && !response.body.NoBody?
  }

  /** The response the client receives: the upstream one itself, except on the stream path with
      a billing row, where it is a new response over the client's half of the teed body. */
  function ClientResponse(context: Option<MessageContext>, provider: Option<Provider>, response: Response): (r: Response)
    ensures r.status == response.status && r.statusText == response.statusText && r.headers == response.headers
    ensures r.body.NoBody? <==> response.body.NoBody?
    ensures r != response ==> IsEventStream(response.headers) && TeesStream(context, provider, response)
  {
    if IsEventStream(response.headers) && TeesStream(context, provider, response) then
      response.(body := match response.body
                        case UpstreamStream(source, _) => UpstreamStream(source, true)
                        case other => other)
    else response
  }

  /** The billing rows after the upstream response is fully read. Non-stream: cost from the
      body's `usage`, then the duration. Stream: the duration, then cost from the last
      `message_delta` usage. `text` is the decoded body and `now` the time of the writes. */
  function RecordedRows(rows: seq<MessageRow>, context: Option<MessageContext>, provider: Option<Provider>,
                        startTime: int, modelName: Option<string>, response: Response, text: string,
                        parse: string -> Option<Json>, prices: PriceTable, now: int): seq<MessageRow>
    reads prices
    requires prices.Valid()
  {
    if context.None? || provider.None? then rows
    else if !IsEventStream(response.headers) then
      var usage := match parse(text) case Some(v) => UsageOf(Get(v, "usage")) case None => None;
      WithDuration(CostApplied(rows, context.value.id, modelName, usage, prices, now),
                   context.value.id, now - startTime, now)
    else if response.body.NoBody? then rows
    else
      CostApplied(WithDuration(rows, context.value.id, now - startTime, now),
                  context.value.id, modelName, LastDeltaUsage(Decode(text, parse)), prices, now)
  }

  /** `ProxyResponseHandler.dispatch(session, response)` with the work it schedules. */
  method Dispatch(session: ProxySession, response: Response, text: string, parse: string -> Option<Json>,
                  prices: PriceTable, messages: MessageTable, now: int) returns (r: Response)
    requires prices.Valid() && messages.Valid()
    modifies messages
    ensures r == ClientResponse(session.messageContext, session.provider, response)
    ensures messages.Valid() && messages.nextId == old(messages.nextId)
    ensures messages.rows == RecordedRows(old(messages.rows), session.messageContext, session.provider,
                                          session.startTime, session.request.model, response, text, parse, prices, now)
  {
    var contentType := if "content-type" in response.headers then response.headers["content-type"] else "";
    var isSse := Contains(contentType, EventStream);
    if !isSse {
      r := HandleNonStream(session, response, text, parse, prices, messages, now);
    } else {
      r := HandleStream(session, response, text, parse, prices, messages, now);
    }
  }

  method HandleNonStream(session: ProxySession, response: Response, text: string, parse: string -> Option<Json>,
                         prices: PriceTable, messages: MessageTable, now: int) returns (r: Response)
    requires prices.Valid() && messages.Valid() && !IsEventStream(response.headers)
    modifies messages
    ensures r == response
    ensures messages.Valid() && messages.nextId == old(messages.nextId)
    ensures messages.rows == RecordedRows(old(messages.rows), session.messageContext, session.provider,
                                          session.startTime, session.request.model, response, text, parse, prices, now)
  {
    if session.provider.None? {
      return response;
    }
    var usageMetrics: Option<UsageMetrics> := None;
    var parsed := parse(text);
    if parsed.Some? {
      var usageValue := Get(parsed.value, "usage");
      if Truthy(usageValue) && IsObjectLike(usageValue.value) {
        usageMetrics := ExtractUsageMetrics(usageValue);
      }
    }
    var messageContext := session.messageContext;
    if usageMetrics.Some? && messageContext.Some? {
      UpdateRequestCostFromUsage(messageContext.value.id, session.request.model, usageMetrics, prices, messages, now);
    }
    if messageContext.Some? {
      messages.UpdateMessageRequestDuration(messageContext.value.id, now - session.startTime, now);
    }
    r := response;
  }

  method HandleStream(session: ProxySession, response: Response, text: string, parse: string -> Option<Json>,
                      prices: PriceTable, messages: MessageTable, now: int) returns (r: Response)
    requires prices.Valid() && messages.Valid() && IsEventStream(response.headers)
    modifies messages
    ensures r == ClientResponse(session.messageContext, session.provider, response)
    ensures messages.Valid() && messages.nextId == old(messages.nextId)
    ensures messages.rows == RecordedRows(old(messages.rows), session.messageContext, session.provider,
                                          session.startTime, session.request.model, response, text, parse, prices, now)
  {
    var messageContext := session.messageContext;
    if messageContext.None? || session.provider.None? || response.body.NoBody? {
      return response;
    }
    ghost var rows0 := messages.rows;
    var id := messageContext.value.id;
    var parsedEvents := ParseSseData(text, parse);
    messages.UpdateMessageRequestDuration(id, now - session.startTime, now);
    ghost var rows1 := messages.rows;
    assert rows1 == WithDuration(rows0, id, now - session.startTime, now);
    var usageForCost := SelectUsage(parsedEvents);
    UpdateRequestCostFromUsage(id, session.request.model, usageForCost, prices, messages, now);
    assert messages.rows == CostApplied(rows1, id, session.request.model, LastDeltaUsage(Decode(text, parse)), prices, now);
    assert TeesStream(messageContext, session.provider, response);
    r := ClientResponse(messageContext, session.provider, response);
  }

  // ---------------------------------------------------------------------------------------
  // Properties of the billing writes

  /** Without a billing row nothing is written. */
  lemma NoContextNoWrites(rows: seq<MessageRow>, provider: Option<Provider>, startTime: int,
                          modelName: Option<string>, response: Response, text: string,
                          parse: string -> Option<Json>, prices: PriceTable, now: int)
    requires prices.Valid()
    ensures RecordedRows(rows, None, provider, startTime, modelName, response, text, parse, prices, now) == rows
  {
  }

  /** Only the request's own row is written, and on it only the duration, the cost and the
      update time; a cost written is positive; the duration is the time since the start
      whenever the response is read (not an event stream without a body). */
  lemma WritesStayOnOwnRow(rows: seq<MessageRow>, context: MessageContext, provider: Provider, startTime: int,
                           modelName: Option<string>, response: Response, text: string,
                           parse: string -> Option<Json>, prices: PriceTable, now: int, i: int)
    requires prices.Valid() && 0 <= i < |rows|
    ensures var after := RecordedRows(rows, Some(context), Some(provider), startTime, modelName, response, text, parse, prices, now);
      && |after| == |rows|
      && (rows[i].id != context.id ==> after[i] == rows[i])
      && after[i].(durationMs := rows[i].durationMs, costUsd := rows[i].costUsd, updatedAt := rows[i].updatedAt) == rows[i]
      && (after[i].costUsd != rows[i].costUsd ==> after[i].costUsd.Some? && after[i].costUsd.value > 0.0)
      && (rows[i].id == context.id && (!IsEventStream(response.headers) || !response.body.NoBody?) ==>
            after[i].durationMs == Some(now - startTime))
  {
    var id := context.id;
    var d := WithDuration(rows, id, now - startTime, now);
    if !IsEventStream(response.headers) {
      var usage := match parse(text) case Some(v) => UsageOf(Get(v, "usage")) case None => None;
      var c := CostApplied(rows, id, modelName, usage, prices, now);
      assert |c| == |rows|;
    } else if !response.body.NoBody? {
      var c := CostApplied(d, id, modelName, LastDeltaUsage(Decode(text, parse)), prices, now);
      assert |c| == |rows|;
    }
  }
}
