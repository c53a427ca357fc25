/** The client-facing error envelope of the handler wrapper: one factory per error
    kind, the resolver from an HTTP status to a factory, and the response headers.
    `process.env.NODE_ENV` is the parameter `nodeEnv` (`None` when unset). */
module ErrorHelpers {
  import opened Wrappers
  import opened JsStrings

  datatype ErrorBody = ErrorBody(
    code: int,
    errorType: string,
    message: string,
    retryAfter: Option<int>,
    details: Option<string>)

  datatype ApiErrorResponse = ApiErrorResponse(success: bool, error: ErrorBody)

  predicate IsDevelopment(nodeEnv: Option<string>) {
    nodeEnv == Some("development")
  }

  /** `...(details && NODE_ENV === "development" ? { details } : {})`: the details
      appear only when they are a non-empty string and the build is a development
      one. */
  function ShownDetails(details: Option<string>, nodeEnv: Option<string>): (shown: Option<string>)
    ensures shown.Some? <==> details.Some? && details.value != "" && IsDevelopment(nodeEnv)
    ensures shown.Some? ==> shown == details
  {
    if details.Some? && details.value != "" && IsDevelopment(nodeEnv) then details else None
  }

  const DefaultRateLimitRetry := 60
  const DefaultUnavailableRetry := 30

  /** `rateLimitError(retryAfter = 60, details?)`. */
  function RateLimitError(retryAfter: Option<int>, details: Option<string>, nodeEnv: Option<string>)
    : (r: ApiErrorResponse)
    ensures !r.success
    ensures r.error.code == 429 && r.error.errorType == "RATE_LIMIT_EXCEEDED"
    ensures r.error.retryAfter == Some(retryAfter.GetOr(DefaultRateLimitRetry))
    ensures r.error.details == ShownDetails(details, nodeEnv)
  {
    ApiErrorResponse(false, ErrorBody(
      429, "RATE_LIMIT_EXCEEDED", "Too many requests. Please wait before trying again.",
      Some(retryAfter.GetOr(DefaultRateLimitRetry)), ShownDetails(details, nodeEnv)))
  }

  function InternalServerError(details: Option<string>, nodeEnv: Option<string>): (r: ApiErrorResponse)
    ensures !r.success
    ensures r.error.code == 500 && r.error.errorType == "INTERNAL_SERVER_ERROR"
    ensures r.error.retryAfter == None
    ensures r.error.details == ShownDetails(details, nodeEnv)
  {
    ApiErrorResponse(false, ErrorBody(
      500, "INTERNAL_SERVER_ERROR", "An unexpected error occurred. Please try again later.",
      None, ShownDetails(details, nodeEnv)))
  }

  function BadGatewayError(details: Option<string>, nodeEnv: Option<string>): (r: ApiErrorResponse)
    ensures !r.success
    ensures r.error.code == 502 && r.error.errorType == "BAD_GATEWAY"
    ensures r.error.retryAfter == None
    ensures r.error.details == ShownDetails(details, nodeEnv)
  {
    ApiErrorResponse(false, ErrorBody(
      502, "BAD_GATEWAY", "A upstream service returned an invalid response. Please try again later.",
      None, ShownDetails(details, nodeEnv)))
  }

  /** `serviceUnavailableError(retryAfter = 30, details?)`. */
  function ServiceUnavailableError(retryAfter: Option<int>, details: Option<string>, nodeEnv: Option<string>)
    : (r: ApiErrorResponse)
    ensures !r.success
    ensures r.error.code == 503 && r.error.errorType == "SERVICE_UNAVAILABLE"
    ensures r.error.retryAfter == Some(retryAfter.GetOr(DefaultUnavailableRetry))
    ensures r.error.details == ShownDetails(details, nodeEnv)
  {
    ApiErrorResponse(false, ErrorBody(
      503, "SERVICE_UNAVAILABLE", "The service is temporarily unavailable. Please try again later.",
      Some(retryAfter.GetOr(DefaultUnavailableRetry)), ShownDetails(details, nodeEnv)))
  }

  function GatewayTimeoutError(details: Option<string>, nodeEnv: Option<string>): (r: ApiErrorResponse)
    ensures !r.success
    ensures r.error.code == 504 && r.error.errorType == "GATEWAY_TIMEOUT"
    ensures r.error.retryAfter == None
    ensures r.error.details == ShownDetails(details, nodeEnv)
  {
    ApiErrorResponse(false, ErrorBody(
      504, "GATEWAY_TIMEOUT", "The request timed out. Please try again.",
      None, ShownDetails(details, nodeEnv)))
  }

  /** `resolveServerError`: 502, 503 and 504 have their own bodies (503 with a
      30-second retry hint); every other status, 5xx or not, is reported as 500. */
  function ResolveServerError(statusCode: int, details: Option<string>, nodeEnv: Option<string>)
    : (r: ApiErrorResponse)
    ensures !r.success
    ensures statusCode == 502 ==> r == BadGatewayError(details, nodeEnv)
    ensures statusCode == 503 ==> r == ServiceUnavailableError(Some(30), details, nodeEnv)
    ensures statusCode == 504 ==> r == GatewayTimeoutError(details, nodeEnv)
    ensures statusCode !in {502, 503, 504} ==> r == InternalServerError(details, nodeEnv)
    ensures r.error.code == (if statusCode in {502, 503, 504} then statusCode else 500)
    ensures r.error.retryAfter.Some? <==> statusCode == 503
    ensures r.error.details == ShownDetails(details, nodeEnv)
  {
    if statusCode == 502 then BadGatewayError(details, nodeEnv)
    else if statusCode == 503 then ServiceUnavailableError(Some(DefaultUnavailableRetry), details, nodeEnv)
    else if statusCode == 504 then GatewayTimeoutError(details, nodeEnv)
    else InternalServerError(details, nodeEnv)
  }

  /** `getErrorHeaders`: always a JSON content type, and a `Retry-After` header holding
      the decimal form of `retryAfter` exactly when the body has one. */
  function GetErrorHeaders(e: ApiErrorResponse): (headers: map<string, string>)
    ensures "Content-Type" in headers && headers["Content-Type"] == "application/json"
    ensures "Retry-After" in headers <==> e.error.retryAfter.Some?
    ensures "Retry-After" in headers ==> ParseDecimal(headers["Retry-After"]) == e.error.retryAfter
    ensures headers.Keys <= {"Content-Type", "Retry-After"}
  {
    var base := map["Content-Type" := "application/json"];
    if e.error.retryAfter.Some? then
      IntDecimalRoundTrip(e.error.retryAfter.value);
      base["Retry-After" := IntToDecimal(e.error.retryAfter.value)]
    else base
  }

  /** The `Retry-After` header is the decimal form of the body's hint. */
  lemma RetryAfterHeader(e: ApiErrorResponse)
    requires e.error.retryAfter.Some?
    ensures "Retry-After" in GetErrorHeaders(e)
    ensures GetErrorHeaders(e)["Retry-After"] == IntToDecimal(e.error.retryAfter.value)
  {
  }

  /** The decimal forms of the two default hints. */
  lemma DefaultHintDecimals()
    ensures IntToDecimal(DefaultUnavailableRetry) == "30"
    ensures IntToDecimal(DefaultRateLimitRetry) == "60"
  {
    assert NatToDecimal(3) == "3";
    assert NatToDecimal(6) == "6";
  }

  /** Outside a development build no factory ever puts `details` in a body. */
  lemma NoDetailsOutsideDevelopment(statusCode: int, retryAfter: Option<int>, details: Option<string>,
                                    nodeEnv: Option<string>)
    requires !IsDevelopment(nodeEnv)
    ensures ResolveServerError(statusCode, details, nodeEnv).error.details == None
    ensures RateLimitError(retryAfter, details, nodeEnv).error.details == None
  {
  }
}
