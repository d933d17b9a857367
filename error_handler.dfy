/** src/app/v1/_lib/proxy/error-handler.ts: the answer to a request whose pipeline threw. */
module ErrorHandler {
  import opened Wrappers
  import opened Strings
  import opened Responses
  import opened Session
  import opened MessageRepository

  const UnknownFailure := "代理请求发生未知错误"

  /** What was thrown: an `Error` with its message, or any other value. */
  datatype Thrown = ErrorValue(message: string) | OtherValue

  /** The text the client is told: the `Error`'s message, or the fixed fallback. */
  function FailureMessage(error: Thrown): (m: string)
    ensures error.ErrorValue? ==> m == error.message
    ensures error.OtherValue? ==> m == UnknownFailure
  {
    match error
    case ErrorValue(message) => message
    case OtherValue => UnknownFailure
  }

  /** `ProxyErrorHandler.handle(session, error)`: records the elapsed time on the request's
      billing row when one was opened, then answers 500 with the failure message. `now` is
      `Date.now()`; the failure log is output only. */
  method Handle(session: ProxySession, error: Thrown, messages: MessageTable, now: int) returns (r: Response)
    requires messages.Valid()
    modifies messages
    ensures messages.Valid() && messages.nextId == old(messages.nextId)
    ensures messages.rows == if session.messageContext.Some?
                             then WithDuration(old(messages.rows), session.messageContext.value.id, now - session.startTime, now)
                             else old(messages.rows)
    ensures r == BuildError(500, FailureMessage(error))
  {
    if session.messageContext.Some? {
      var duration := now - session.startTime;
      messages.UpdateMessageRequestDuration(session.messageContext.value.id, duration, now);
    }
    r := BuildError(500, FailureMessage(error));
  }

  /** A client reading the error envelope of a failed request finds the failure message and
      the type "500". */
  lemma FailureIsReported(error: Thrown)
    ensures var fields := ErrorFields(BuildError(500, FailureMessage(error)));
      && fields.Some? && fields.value.0 == FailureMessage(error)
      && DecimalValue(fields.value.1) == 500
      && (error.ErrorValue? ==> fields.value.0 == error.message)
  {
    ErrorEnvelopeRoundTrip(500, FailureMessage(error));
  }
}
