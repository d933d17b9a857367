/** src/app/v1/_lib/proxy-handler.ts: the gateway pipeline for one request. The session is built
    from the request; authentication, provider choice, the billing row, forwarding and the
    response handling run in that order, the first two answering early on failure, and anything
    thrown after the session exists is answered by the error handler. */
module ProxyHandler {
  import opened Wrappers
  import opened Strings
  import opened Json
  import opened Domain
  import opened Headers
  import opened Responses
  import opened Session
  import Url
  import KeyRepository
  import UserRepository
  import ProviderRepository
  import MessageRepository
  import ModelPriceRepository
  import AuthGuard
  import ProviderSelector
  import MessageService
  import Forwarder
  import ResponseHandler
  import ErrorHandler

  /** The request as it arrives: method, URL, headers (as a map and in iteration order) and body. */
  datatype Incoming = Incoming(rawMethod: string, requestUrl: Url.RequestUrl, headers: HeaderMap,
                               entries: seq<(string, string)>, body: seq<bv8>)

  /** The library and platform calls the pipeline goes through: text decoding, `JSON.parse`,
      `JSON.stringify`, URL parsing, `new URL(s).host`. */
  datatype Platform = Platform(decode: seq<bv8> -> string, parse: string -> Option<Json>,
                               stringify: Json -> string, parseUrl: string -> Option<Url.UrlParts>,
                               urlHost: string -> Option<string>)

  /** The request payload the session holds. */
  function Request(incoming: Incoming, platform: Platform): RequestPayload {
    Payload(ToUpper(incoming.rawMethod), incoming.body, platform.decode, platform.parse, platform.stringify)
  }

  /** The authentication outcome for a request's headers. */
  function AuthOutcome(headers: HeaderMap, keys: KeyRepository.KeyTable, users: UserRepository.UserTable,
                       now: int): AuthState
    reads keys, users
  {
    AuthGuard.Validate(AuthGuard.HeaderValue(headers, "authorization"), AuthGuard.HeaderValue(headers, "x-api-key"),
                       keys, users, now)
  }

  /** The billing context opened for an authenticated request bound to a provider. */
  function OpenedContext(nextId: int, state: AuthState, chosen: Option<Provider>): Option<MessageContext> {
    if MessageService.Eligible(Some(state), chosen)
    then Some(MessageContext(nextId, state.user.value, state.apiKey.value))
    else None
  }

  /** The billing rows once the context is opened. */
  function OpenedRows(rows: seq<MessageRow>, nextId: int, state: AuthState, chosen: Option<Provider>,
                      message: Message, now: int): seq<MessageRow>
  {
    match MessageService.PlannedRecord(Some(state), chosen, message)
    case Some(data) =>
      rows + [MessageRow(nextId, data.providerId, data.userId, data.key, data.message, None, None, now, now, None)]
    case None => rows
  }

  /** What the pipeline answers and which billing rows it leaves behind. */
  datatype Outcome = Outcome(response: Response, rows: seq<MessageRow>)

  /** What the gated part of the pipeline answers and writes, for a session whose headers and
      request payload are given, starting from the billing rows `rows0`: 401 or 503 with nothing
      written, or the forwarded exchange. */
  function Expected(headers: HeaderMap, request: RequestPayload, verb: string, requestUrl: Url.RequestUrl,
                    start: int, finish: int, state: AuthState, chosen: Option<Provider>,
                    rows0: seq<MessageRow>, nextId: int, platform: Platform,
                    prices: ModelPriceRepository.PriceTable,
                    fetch: Forwarder.Outbound -> Result<Response, ErrorHandler.Thrown>, upstreamText: string): Outcome
    reads prices
    requires prices.Valid()
  {
    if !state.success then Outcome(BuildError(401, AuthGuard.AuthFailed), rows0)
    else if chosen.None? then Outcome(BuildError(503, ProviderSelector.NoProvider), rows0)
    else Exchanged(headers, request, verb, requestUrl, start, finish, state, chosen, rows0, nextId, platform,
                   prices, fetch, upstreamText)
  }

  /** What an authenticated request bound to a provider answers and writes: the billing row is
      opened, the upstream call is made, and either the failure is answered with 500 and the
      duration recorded, or the upstream response is passed on and its usage recorded. */
  function Exchanged(headers: HeaderMap, request: RequestPayload, verb: string, requestUrl: Url.RequestUrl,
                     start: int, finish: int, state: AuthState, chosen: Option<Provider>,
                     rows0: seq<MessageRow>, nextId: int, platform: Platform,
                     prices: ModelPriceRepository.PriceTable,
                     fetch: Forwarder.Outbound -> Result<Response, ErrorHandler.Thrown>, upstreamText: string): Outcome
    reads prices
    requires prices.Valid() && chosen.Some?
  {
    var context := OpenedContext(nextId, state, chosen);
    var rows1 := OpenedRows(rows0, nextId, state, chosen, request.message, start);
    var outbound := Forwarder.OutboundRequest(verb, requestUrl, headers, request, Some(state), chosen,
                                              platform.parseUrl, platform.urlHost).value;
    match fetch(outbound)
    case Err(e) =>
      Outcome(BuildError(500, ErrorHandler.FailureMessage(e)),
              if context.Some? then MessageRepository.WithDuration(rows1, context.value.id, finish - start, finish)
              else rows1)
    case Ok(upstream) =>
      Outcome(ResponseHandler.ClientResponse(context, chosen, upstream),
              ResponseHandler.RecordedRows(rows1, context, chosen, start, request.model, upstream,
                                           upstreamText, platform.parse, prices, finish))
  }

  /** `handleProxyRequest(c)`. `start` is the time the session is created (also the time of the
      key check and of the billing insert), `finish` the time the upstream response has been
      read, `u` the random draw, `fetch` the upstream call (an error when it throws) and
      `upstreamText` the upstream body as text. A failed authentication answers 401 and a
      missing provider 503, both before anything is written; otherwise the billing row is
      opened, the request forwarded, and the upstream response or the failure answered. */
  method HandleProxyRequest(incoming: Incoming, platform: Platform, start: int, finish: int, u: real,
                            keys: KeyRepository.KeyTable, users: UserRepository.UserTable,
                            providers: ProviderRepository.ProviderTable, messages: MessageRepository.MessageTable,
                            prices: ModelPriceRepository.PriceTable,
                            fetch: Forwarder.Outbound -> Result<Response, ErrorHandler.Thrown>, upstreamText: string)
    returns (r: Response)
    requires Lists(incoming.entries, incoming.headers) && IsHeaderMap(incoming.headers)
    requires providers.Valid() && messages.Valid() && messages.CanInsertAt(start) && prices.Valid()
    requires 0.0 <= u < 1.0
    modifies messages
    ensures messages.Valid()
    ensures var state := old(AuthOutcome(incoming.headers, keys, users, start));
      var request := Request(incoming, platform);
      Outcome(r, messages.rows)
      == Expected(incoming.headers, request, ToUpper(incoming.rawMethod), incoming.requestUrl, start, finish, state,
                  old(ProviderSelector.Resolve(request.message, Some(state), providers, messages, u)),
                  old(messages.rows), old(messages.nextId), platform, prices, fetch, upstreamText)
  {
    ghost var state := AuthOutcome(incoming.headers, keys, users, start);
    ghost var request := Request(incoming, platform);
    ghost var chosen := ProviderSelector.Resolve(request.message, Some(state), providers, messages, u);
    var session := ProxySession.FromContext(start, incoming.rawMethod, incoming.requestUrl, incoming.headers,
                                            incoming.entries, incoming.body, platform.decode, platform.parse,
                                            platform.stringify);
    assert unchanged(keys, users, providers, messages);
    r := Gate(session, keys, users, providers, messages, prices, platform, finish, u, fetch, upstreamText,
              state, chosen);
  }

  /** Authentication, then the provider step, on a fresh session; `state` and `chosen` are what
      the key check and the provider choice come to. */
  method Gate(session: ProxySession, keys: KeyRepository.KeyTable, users: UserRepository.UserTable,
              providers: ProviderRepository.ProviderTable, messages: MessageRepository.MessageTable,
              prices: ModelPriceRepository.PriceTable, platform: Platform, finish: int, u: real,
              fetch: Forwarder.Outbound -> Result<Response, ErrorHandler.Thrown>, upstreamText: string,
              ghost state: AuthState, ghost chosen: Option<Provider>)
    returns (r: Response)
    requires session.authState.None? && session.provider.None? && session.messageContext.None?
    requires IsHeaderMap(session.headers)
    requires providers.Valid() && messages.Valid() && messages.CanInsertAt(session.startTime) && prices.Valid()
    requires 0.0 <= u < 1.0
    requires state == AuthOutcome(session.headers, keys, users, session.startTime)
    requires chosen == ProviderSelector.Resolve(session.request.message, Some(state), providers, messages, u)
    modifies session, messages
    ensures messages.Valid()
    ensures Outcome(r, messages.rows)
            == Expected(session.headers, session.request, session.verb, session.requestUrl, session.startTime, finish,
                        state, chosen, old(messages.rows), old(messages.nextId), platform, prices, fetch, upstreamText)
  {
    label Unauthenticated:
    var unauthorized := AuthGuard.Ensure(session, keys, users, session.startTime);
    assert unchanged@Unauthenticated(providers, messages, prices);
    if unauthorized.Some? {
      return unauthorized.value;
    }
    r := Choose(session, providers, messages, prices, platform, finish, u, fetch, upstreamText, state, chosen);
  }

  /** The provider step on an authenticated session, then the rest of the pipeline. */
  method Choose(session: ProxySession, providers: ProviderRepository.ProviderTable,
                messages: MessageRepository.MessageTable, prices: ModelPriceRepository.PriceTable,
                platform: Platform, finish: int, u: real,
                fetch: Forwarder.Outbound -> Result<Response, ErrorHandler.Thrown>, upstreamText: string,
                ghost state: AuthState, ghost chosen: Option<Provider>)
    returns (r: Response)
    requires session.authState == Some(state) && state.success
    requires session.provider.None? && session.messageContext.None?
    requires IsHeaderMap(session.headers)
    requires providers.Valid() && messages.Valid() && messages.CanInsertAt(session.startTime) && prices.Valid()
    requires 0.0 <= u < 1.0
    requires chosen == ProviderSelector.Resolve(session.request.message, Some(state), providers, messages, u)
    modifies session, messages
    ensures messages.Valid()
    ensures Outcome(r, messages.rows)
            == Expected(session.headers, session.request, session.verb, session.requestUrl, session.startTime, finish,
                        state, chosen, old(messages.rows), old(messages.nextId), platform, prices, fetch, upstreamText)
  {
    label Unselected:
    var providerUnavailable := ProviderSelector.Ensure(session, providers, messages, u);
    assert unchanged@Unselected(messages, prices);
    if providerUnavailable.Some? {
      return providerUnavailable.value;
    }
    r := Forward(session, finish, prices, messages, platform, fetch, upstreamText, state, chosen);
  }

  /** The pipeline from the billing row on, for a session with a successful authentication
      state and a provider. */
  method Forward(session: ProxySession, finish: int, prices: ModelPriceRepository.PriceTable,
                 messages: MessageRepository.MessageTable, platform: Platform,
                 fetch: Forwarder.Outbound -> Result<Response, ErrorHandler.Thrown>, upstreamText: string,
                 ghost state: AuthState, ghost chosen: Option<Provider>)
    returns (r: Response)
    requires session.authState == Some(state) && state.success && session.provider == chosen && chosen.Some?
    requires IsHeaderMap(session.headers)
    requires messages.Valid() && messages.CanInsertAt(session.startTime) && prices.Valid()
    modifies session, messages
    ensures messages.Valid()
    ensures Outcome(r, messages.rows)
            == Exchanged(session.headers, session.request, session.verb, session.requestUrl, session.startTime, finish,
                         state, chosen, old(messages.rows), old(messages.nextId), platform, prices, fetch, upstreamText)
  {
    ghost var rows0 := messages.rows;
    ghost var nextId := messages.nextId;
    label Unopened:
    MessageService.EnsureContext(session, messages, session.startTime);
    assert unchanged@Unopened(prices);
    r := Exchange(session, finish, prices, messages, platform, fetch, upstreamText, state, chosen, rows0, nextId);
  }

  /** The upstream call and its answer, once the billing context is open: `rows0` and `nextId`
      are the billing table before the context was opened. */
  method Exchange(session: ProxySession, finish: int, prices: ModelPriceRepository.PriceTable,
                  messages: MessageRepository.MessageTable, platform: Platform,
                  fetch: Forwarder.Outbound -> Result<Response, ErrorHandler.Thrown>, upstreamText: string,
                  ghost state: AuthState, ghost chosen: Option<Provider>, ghost rows0: seq<MessageRow>,
                  ghost nextId: int)
    returns (r: Response)
    requires session.authState == Some(state) && state.success && session.provider == chosen && chosen.Some?
    requires session.messageContext == OpenedContext(nextId, state, chosen)
    requires messages.rows == OpenedRows(rows0, nextId, state, chosen, session.request.message, session.startTime)
    requires IsHeaderMap(session.headers)
    requires messages.Valid() && prices.Valid()
    modifies messages
    ensures messages.Valid()
    ensures Outcome(r, messages.rows)
            == Exchanged(session.headers, session.request, session.verb, session.requestUrl, session.startTime, finish,
                         state, chosen, rows0, nextId, platform, prices, fetch, upstreamText)
  {
    var sent := Forwarder.Send(session, platform.parseUrl, platform.urlHost);
    assert sent.Ok?;
    var response := fetch(sent.value);
    if response.Err? {
      r := ErrorHandler.Handle(session, response.error, messages, finish);
      return;
    }
    r := ResponseHandler.Dispatch(session, response.value, upstreamText, platform.parse, prices, messages, finish);
  }

  /** Two billing rows for the same request: same id, provider, user and key. */
  predicate SameRecord(a: MessageRow, b: MessageRow) {
    a.id == b.id && a.providerId == b.providerId && a.userId == b.userId && a.key == b.key
  }

  /** Opening the billing context appends one row, with the provider, user and key, exactly
      when the request is eligible for billing, and nothing otherwise. */
  lemma OpeningAppendsOneRow(rows0: seq<MessageRow>, nextId: int, state: AuthState, chosen: Option<Provider>,
                             message: Message, start: int)
    ensures var rows1 := OpenedRows(rows0, nextId, state, chosen, message, start);
      && (OpenedContext(nextId, state, chosen).Some? <==> MessageService.Eligible(Some(state), chosen))
      && (OpenedContext(nextId, state, chosen).Some? ==> OpenedContext(nextId, state, chosen).value.id == nextId)
      && (!MessageService.Eligible(Some(state), chosen) ==> rows1 == rows0)
      && (MessageService.Eligible(Some(state), chosen) ==>
            && |rows1| == |rows0| + 1 && rows1[..|rows0|] == rows0
            && rows1[|rows0|].id == nextId && rows1[|rows0|].providerId == chosen.value.id
            && rows1[|rows0|].userId == state.user.value.id && rows1[|rows0|].key == state.apiKey.value)
  {
  }

  /** After the context is opened, the exchange only touches the request's own row, and never
      its provider, user or key. */
  lemma ExchangeTouchesOwnRow(headers: HeaderMap, request: RequestPayload, verb: string,
                              requestUrl: Url.RequestUrl, start: int, finish: int, state: AuthState,
                              chosen: Option<Provider>, rows0: seq<MessageRow>, nextId: int,
                              platform: Platform, prices: ModelPriceRepository.PriceTable,
                              fetch: Forwarder.Outbound -> Result<Response, ErrorHandler.Thrown>,
                              upstreamText: string)
    requires prices.Valid() && chosen.Some?
    ensures var o := Exchanged(headers, request, verb, requestUrl, start, finish, state, chosen, rows0, nextId,
                               platform, prices, fetch, upstreamText);
      var rows1 := OpenedRows(rows0, nextId, state, chosen, request.message, start);
      && |o.rows| == |rows1|
      && forall i :: 0 <= i < |rows1| ==> SameRecord(o.rows[i], rows1[i]) && (rows1[i].id != nextId ==> o.rows[i] == rows1[i])
  {
    var context := OpenedContext(nextId, state, chosen);
    var rows1 := OpenedRows(rows0, nextId, state, chosen, request.message, start);
    var outbound := Forwarder.OutboundRequest(verb, requestUrl, headers, request, Some(state), chosen,
                                              platform.parseUrl, platform.urlHost).value;
    OpeningAppendsOneRow(rows0, nextId, state, chosen, request.message, start);
    match fetch(outbound)
    case Err(e) =>
    case Ok(upstream) =>
      var after := ResponseHandler.RecordedRows(rows1, context, chosen, start, request.model, upstream,
                                                upstreamText, platform.parse, prices, finish);
      if context.Some? {
        forall i | 0 <= i < |rows1|
          ensures SameRecord(after[i], rows1[i]) && (rows1[i].id != nextId ==> after[i] == rows1[i])
        {
          ResponseHandler.WritesStayOnOwnRow(rows1, context.value, chosen.value, start, request.model, upstream,
                                             upstreamText, platform.parse, prices, finish, i);
        }
      }
  }

  /** A request that fails authentication or finds no provider is answered with nothing written.
      Otherwise at most one billing row is added, and only for an authenticated user and key
      bound to a provider; it carries that provider, user and key, and no earlier row changes. */
  lemma OnlyServedRequestsAreBilled(headers: HeaderMap, request: RequestPayload, verb: string,
                                    requestUrl: Url.RequestUrl, start: int, finish: int, state: AuthState,
                                    chosen: Option<Provider>, rows0: seq<MessageRow>, nextId: int,
                                    platform: Platform, prices: ModelPriceRepository.PriceTable,
                                    fetch: Forwarder.Outbound -> Result<Response, ErrorHandler.Thrown>,
                                    upstreamText: string)
    requires prices.Valid()
    requires forall i :: 0 <= i < |rows0| ==> rows0[i].id < nextId
    ensures var o := Expected(headers, request, verb, requestUrl, start, finish, state, chosen, rows0, nextId,
                              platform, prices, fetch, upstreamText);
      && (!state.success ==> o.response.status == 401 && o.rows == rows0)
      && (state.success && chosen.None? ==> o.response.status == 503 && o.rows == rows0)
      && (|o.rows| == |rows0| || |o.rows| == |rows0| + 1)
      && (forall i :: 0 <= i < |rows0| ==> o.rows[i] == rows0[i])
      && (|o.rows| == |rows0| + 1 ==>
            && MessageService.Eligible(Some(state), chosen)
            && o.rows[|rows0|].id == nextId && o.rows[|rows0|].providerId == chosen.value.id
            && o.rows[|rows0|].userId == state.user.value.id && o.rows[|rows0|].key == state.apiKey.value)
  {
    if state.success && chosen.Some? {
      var rows1 := OpenedRows(rows0, nextId, state, chosen, request.message, start);
      OpeningAppendsOneRow(rows0, nextId, state, chosen, request.message, start);
      ExchangeTouchesOwnRow(headers, request, verb, requestUrl, start, finish, state, chosen, rows0, nextId,
                            platform, prices, fetch, upstreamText);
      var o := Expected(headers, request, verb, requestUrl, start, finish, state, chosen, rows0, nextId,
                        platform, prices, fetch, upstreamText);
      forall i | 0 <= i < |rows0|
        ensures o.rows[i] == rows0[i]
      {
        assert rows1[i] == rows0[i];
      }
      if |o.rows| == |rows0| + 1 {
        assert SameRecord(o.rows[|rows0|], rows1[|rows0|]);
      }
    }
  }
}
