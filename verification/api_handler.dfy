/** `withApiHandler` from the utilities: it runs a route handler and turns whatever
    the handler throws into a JSON error response. The handler itself is abstracted
    to its outcome; the request is needed only for log lines, which are left out. */
module ApiHandler {
  import opened Wrappers
  import opened JsStrings
  import opened ErrorHelpers

  /** What a handler can throw. `OtherError(Some(m))` is any other `Error` with message
      `m`; `OtherError(None)` is a thrown value that is not an `Error`. */
  datatype Failure =
    | RateLimited(retryAfter: int)
    | ServerFailure(statusCode: int, message: string)
    | OtherError(errorMessage: Option<string>)

  const DefaultServerStatus := 500
  const DefaultServerMessage := "Internal server error"

  /** `new RateLimitError(retryAfter = 60)`. */
  function NewRateLimitError(retryAfter: Option<int>): (f: Failure)
    ensures f.RateLimited? && f.retryAfter == retryAfter.GetOr(DefaultRateLimitRetry)
  {
    RateLimited(retryAfter.GetOr(DefaultRateLimitRetry))
  }

  /** `new ServerError(statusCode = 500, message = "Internal server error")`. */
  function NewServerError(statusCode: Option<int>, message: Option<string>): (f: Failure)
    ensures f.ServerFailure?
    ensures f.statusCode == statusCode.GetOr(DefaultServerStatus)
    ensures f.message == message.GetOr(DefaultServerMessage)
  {
    ServerFailure(statusCode.GetOr(DefaultServerStatus), message.GetOr(DefaultServerMessage))
  }

  datatype HandlerOutcome<R> = Returned(response: R) | Threw(failure: Failure)

  /** The wrapper's answer: the handler's own response, or an error response built
      from what it threw. There is no third case: the wrapper never rethrows. */
  datatype Reply<R> =
    | Passed(response: R)
    | ErrorReply(status: int, body: ApiErrorResponse, headers: map<string, string>)

  function WithApiHandler<R>(outcome: HandlerOutcome<R>, nodeEnv: Option<string>): (r: Reply<R>)
    ensures outcome.Returned? ==> r == Passed(outcome.response)
    ensures r.ErrorReply? ==> !r.body.success && r.headers == GetErrorHeaders(r.body)
    ensures outcome.Threw? && outcome.failure.RateLimited? ==>
              && r.ErrorReply? && r.status == 429
              && r.body == RateLimitError(Some(outcome.failure.retryAfter), None, nodeEnv)
              && "Retry-After" in r.headers
              && ParseDecimal(r.headers["Retry-After"]) == Some(outcome.failure.retryAfter)
    ensures outcome.Threw? && outcome.failure.ServerFailure? ==>
              && r.ErrorReply? && r.status == outcome.failure.statusCode
              && r.body == ResolveServerError(outcome.failure.statusCode, Some(outcome.failure.message), nodeEnv)
    ensures outcome.Threw? && outcome.failure.OtherError? ==>
              && r.ErrorReply? && r.status == 500
              && r.body.error.code == 500 && r.body.error.errorType == "INTERNAL_SERVER_ERROR"
              && r.body.error.details
                   == ShownDetails(Some(outcome.failure.errorMessage.GetOr("Unknown error")), nodeEnv)
  {
    match outcome
    case Returned(response) => Passed(response)
    case Threw(RateLimited(retryAfter)) =>
      var body := RateLimitError(Some(retryAfter), None, nodeEnv);
      ErrorReply(429, body, GetErrorHeaders(body))
    case Threw(ServerFailure(statusCode, message)) =>
      var body := ResolveServerError(statusCode, Some(message), nodeEnv);
      ErrorReply(statusCode, body, GetErrorHeaders(body))
    case Threw(OtherError(message)) =>
      var body := ResolveServerError(500, Some(message.GetOr("Unknown error")), nodeEnv);
      ErrorReply(500, body, GetErrorHeaders(body))
  }

  /** The HTTP status and the body's `code` agree except for a `ServerError` whose
      status has no body of its own: then the body says 500 whatever the status. */
  lemma StatusAndBodyCode<R>(outcome: HandlerOutcome<R>, nodeEnv: Option<string>)
    requires outcome.Threw?
    ensures var r := WithApiHandler(outcome, nodeEnv);
            r.ErrorReply? &&
            (r.body.error.code == r.status <==>
               !(outcome.failure.ServerFailure? && outcome.failure.statusCode !in {500, 502, 503, 504}))
  {
  }

  /** Every rate-limit failure answers 429 with a `Retry-After` header holding the
      decimal form of its hint, and every `ServerError` with status 503 answers 503
      with `Retry-After: 30`, whatever its message. */
  lemma RetryHints<R>(retryAfter: int, message: string, nodeEnv: Option<string>)
    ensures var r := WithApiHandler(HandlerOutcome<R>.Threw(RateLimited(retryAfter)), nodeEnv);
            r.ErrorReply? && r.status == 429
            && "Retry-After" in r.headers && r.headers["Retry-After"] == IntToDecimal(retryAfter)
    ensures var r := WithApiHandler(HandlerOutcome<R>.Threw(ServerFailure(503, message)), nodeEnv);
            r.ErrorReply? && r.status == 503
            && "Retry-After" in r.headers && r.headers["Retry-After"] == "30"
  {
    RateLimitedHint<R>(retryAfter, nodeEnv);
    UnavailableHint<R>(message, nodeEnv);
  }

  lemma RateLimitedHint<R>(retryAfter: int, nodeEnv: Option<string>)
    ensures var r := WithApiHandler(HandlerOutcome<R>.Threw(RateLimited(retryAfter)), nodeEnv);
            r.ErrorReply? && r.status == 429
            && "Retry-After" in r.headers && r.headers["Retry-After"] == IntToDecimal(retryAfter)
  {
    RetryAfterHeader(WithApiHandler(HandlerOutcome<R>.Threw(RateLimited(retryAfter)), nodeEnv).body);
  }

  lemma UnavailableHint<R>(message: string, nodeEnv: Option<string>)
    ensures var r := WithApiHandler(HandlerOutcome<R>.Threw(ServerFailure(503, message)), nodeEnv);
            r.ErrorReply? && r.status == 503
            && "Retry-After" in r.headers && r.headers["Retry-After"] == "30"
  {
    var r := WithApiHandler(HandlerOutcome<R>.Threw(ServerFailure(503, message)), nodeEnv);
    assert r.body == ResolveServerError(503, Some(message), nodeEnv)
                   == ServiceUnavailableError(Some(30), Some(message), nodeEnv);
    RetryAfterHeader(r.body);
    DefaultHintDecimals();
  }

  /** A thrown `new RateLimitError(retryAfter)` answers 429 with the hint in the body
      and in `Retry-After`; without an argument the client is told to wait 60 seconds. */
  lemma ThrownRateLimitReply<R>(retryAfter: Option<int>, nodeEnv: Option<string>)
    ensures var r := WithApiHandler(HandlerOutcome<R>.Threw(NewRateLimitError(retryAfter)), nodeEnv);
            && r.ErrorReply? && r.status == 429 && "Retry-After" in r.headers
            && (retryAfter.Some? ==> r.body.error.retryAfter == retryAfter
                                     && r.headers["Retry-After"] == IntToDecimal(retryAfter.value))
            && (retryAfter.None? ==> r.body.error.retryAfter == Some(60) && r.headers["Retry-After"] == "60")
  {
    var f := NewRateLimitError(retryAfter);
    var r := WithApiHandler(HandlerOutcome<R>.Threw(f), nodeEnv);
    assert r.body.error.retryAfter == Some(f.retryAfter);
    RetryAfterHeader(r.body);
    DefaultHintDecimals();
  }
  /** A thrown `new ServerError(statusCode, message)` answers with its status (500
      when none is given); a bare `new ServerError()` gets the 500 body, which in a
      development build shows "Internal server error" as its details. */
  lemma ThrownServerErrorReply<R>(statusCode: Option<int>, message: Option<string>, nodeEnv: Option<string>)
    ensures var r := WithApiHandler(HandlerOutcome<R>.Threw(NewServerError(statusCode, message)), nodeEnv);
            && r.ErrorReply?
            && (statusCode.Some? ==> r.status == statusCode.value)
            && (statusCode.None? ==> r.status == 500 && r.body.error.code == 500
                                     && r.body.error.errorType == "INTERNAL_SERVER_ERROR")
            && (message.Some? ==> r.body.error.details == ShownDetails(message, nodeEnv))
            && (message.None? && IsDevelopment(nodeEnv) ==> r.body.error.details == Some("Internal server error"))
  {
  }

  /** Outside development the body never reveals the thrown message. */
  lemma MessagesHiddenOutsideDevelopment<R>(outcome: HandlerOutcome<R>, nodeEnv: Option<string>)
    requires !IsDevelopment(nodeEnv)
    ensures var r := WithApiHandler(outcome, nodeEnv);
            r.ErrorReply? ==> r.body.error.details == None
  {
  }
}
