/** src/app/v1/_lib/proxy/responses.ts: HTTP responses, and the JSON error envelope the gateway
    answers with when it rejects or fails a request. */
module Responses {
  import opened Wrappers
  import opened Strings
  import opened Json
  import opened Headers

  /** A response body: none (`response.body === null`), a JSON document the gateway serialises
      itself, or an upstream body stream (`copy` when it is the gateway's tee of that stream
      rather than the original). */
  datatype Body = NoBody | JsonPayload(value: Json) | UpstreamStream(source: nat, copy: bool)

  datatype Response = Response(status: int, statusText: string, headers: HeaderMap, body: Body)

  const JsonContentType := "application/json; charset=utf-8"

  /** `{error: {message, type: String(status)}}` */
  function ErrorPayload(status: int, message: string): Json {
    JObject([("error", JObject([("message", JString(message)), ("type", JString(IntToDecimal(status)))]))])
  }

  /** `ProxyResponses.buildError(status, message)` */
  function BuildError(status: int, message: string): (r: Response)
    ensures r.status == status && r.statusText == []
    ensures r.headers == map["content-type" := JsonContentType]
    ensures r.body.JsonPayload? && Get(r.body.value, "error").Some?
  {
    Response(status, [], map["content-type" := JsonContentType], JsonPayload(ErrorPayload(status, message)))
  }

  /** What a client reads back from an error envelope: the message and the type. */
  function ErrorFields(r: Response): Option<(string, string)> {
    if r.body.JsonPayload? then
      match Get(r.body.value, "error")
      case Some(e) =>
        (match (Get(e, "message"), Get(e, "type"))
         case (Some(JString(m)), Some(JString(t))) => Some((m, t))
         case _ => None)
      case None => None
    else None
  }

  /** The envelope gives back the message verbatim, and a type that is the status's decimal
      numeral, so a non-negative status can be recovered from it. */
  lemma ErrorEnvelopeRoundTrip(status: nat, message: string)
    ensures ErrorFields(BuildError(status, message)).Some?
    ensures ErrorFields(BuildError(status, message)).value.0 == message
    ensures var t := ErrorFields(BuildError(status, message)).value.1;
      (forall i :: 0 <= i < |t| ==> '0' <= t[i] <= '9') && DecimalValue(t) == status
  {
    DecimalRoundTrip(status);
  }

  /** Distinct statuses give distinct envelope types. */
  lemma ErrorTypeIdentifiesStatus(s1: nat, s2: nat, m1: string, m2: string)
    requires ErrorFields(BuildError(s1, m1)) == ErrorFields(BuildError(s2, m2))
    ensures s1 == s2 && m1 == m2
  {
    ErrorEnvelopeRoundTrip(s1, m1);
    ErrorEnvelopeRoundTrip(s2, m2);
  }
}
