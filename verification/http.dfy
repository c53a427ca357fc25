/** What the hand-rolled routes share: reading query parameters and the shape of
    their answers, through `handleValidationError`. */
module Http {
  import opened Wrappers
  import opened JsValues
  import opened Validation

  /** The query string, one value per parameter name. */
  type Query = map<string, string>

  /** `searchParams.get(name)`: the value, or `null` when the parameter is absent. */
  function SearchParam(q: Query, name: string): (v: JsValue)
    ensures name in q ==> v == Str(q[name])
    ensures name !in q ==> v == Null
  {
    if name in q then Str(q[name]) else Null
  }

  /** `searchParams.get(name) ?? undefined`: the reading the validators
      expect, used by the corrected `GET` handlers. */
  function OptionalParam(q: Query, name: string): (v: JsValue)
    ensures name in q ==> v == Str(q[name])
    ensures name !in q ==> v == Undefined
  {
    if name in q then Str(q[name]) else Undefined
  }

  /** An answer of a route written with `try { ... } catch (e) { return handleValidationError(e) }`:
      a response it builds, the 400 answer for a `ValidationError`, or a rethrown
      error. */
  datatype RouteOutcome<T> =
    | Respond(status: int, body: T)
    | ErrorResponse(status: int, error: string, field: Option<string>)
    | Throws(thrown: Thrown)

  /** The `catch` block: `handleValidationError(error)`. */
  function Caught<T>(e: Thrown): (r: RouteOutcome<T>)
    ensures e.Invalid? ==> r == ErrorResponse(400, e.error.message, e.error.field)
    ensures e.Other? ==> r == Throws(e)
  {
    match HandleValidationError(e)
    case Responded(status, error, field) => ErrorResponse(status, error, field)
    case Rethrown(t) => Throws(t)
  }

  /** The `SyntaxError` that `request.json()` throws for a body that is not JSON. */
  const JsonSyntaxError := Other("SyntaxError")

  /** The `TypeError` of destructuring `null`. */
  const NullDestructuring := Other("TypeError")
}
