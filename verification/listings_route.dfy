/** `POST /api/marketplace/listings`: parse the body, check that it is an object,
    and hand it to the marketplace service, inside the backend's error wrapper. That
    wrapper and its envelope live in modules that are not part of this model; what
    is modelled is the status and `error.code` each error kind is answered with. */
module ListingsRoute {
  import opened Wrappers
  import opened JsValues
  import opened ServiceErrors
  import opened Marketplace

  /** `{ success: true, data: { listing } }` with its status, or
      `{ success: false, error: { code, message, details } }` with the kind's status. */
  datatype Envelope =
    | Success(status: int, listing: Listing)
    | Failure(status: int, code: string, error: ServiceError)

  const InvalidJson := "Invalid JSON in request body"
  const NotAnObject := "Request body must be an object"

  /** `req.json()` and the shape check: the body goes on to the service exactly as
      parsed when it is an object or an array, and every other outcome is a
      `ValidationError`. */
  function ParseBody(text: string, jsonParse: string -> Option<JsValue>): (r: Result<JsValue, ServiceError>)
    ensures jsonParse(text).None? ==> r == Err(ValidationError(InvalidJson, NoDetails))
    ensures jsonParse(text).Some? ==>
              (r.Ok? <==> jsonParse(text).value.Obj? || jsonParse(text).value.Arr?)
    ensures jsonParse(text).Some? && r.Err? ==> r == Err(ValidationError(NotAnObject, NoDetails))
    ensures r.Ok? ==> r.value == jsonParse(text).value && (r.value.Obj? || r.value.Arr?)
  {
    match jsonParse(text)
    case None => Err(ValidationError(InvalidJson, NoDetails))
    case Some(body) =>
      if !Truthy(body) || TypeOf(body) != "object" then Err(ValidationError(NotAnObject, NoDetails))
      else Ok(body)
  }

  function Reject(e: ServiceError): (env: Envelope)
    ensures env.Failure? && env.error == e
    ensures env.status == HttpStatus(e) && env.code == ErrorCode(e)
  {
    Failure(HttpStatus(e), ErrorCode(e), e)
  }

  /** The route with the service's state: a failure of any kind leaves the state as
      it was; success answers 201 with the listing that was stored. */
  function Post(s: Service, text: string, jsonParse: string -> Option<JsValue>,
                parseFloat: string -> JsNumber, clock: CreateClock): (o: (Service, Envelope))
    ensures ParseBody(text, jsonParse).Err? ==>
              o == (s, Failure(400, "VALIDATION_ERROR", ParseBody(text, jsonParse).error))
    ensures ParseBody(text, jsonParse).Ok? ==>
              var c := CreateListing(s, RequestOf(ParseBody(text, jsonParse).value), parseFloat, clock);
              && o.0 == c.service
              && (o.1.Success? <==> c.result.Ok?)
              && (c.result.Ok? ==> o.1 == Success(201, c.result.value))
              && (c.result.Err? ==> o.1 == Reject(c.result.error))
    ensures o.1.Failure? ==> o.0 == s && o.1.status == HttpStatus(o.1.error) && o.1.code == ErrorCode(o.1.error)
    ensures o.1.Success? ==>
              var body := jsonParse(text).value;
              && o.1.status == 201
              && Field(body, "commitmentId") == Str(o.1.listing.commitmentId)
              && Field(body, "price") == Str(o.1.listing.price)
              && o.1.listing.status == Active
              && o.0.listings == s.listings[o.1.listing.id := o.1.listing]
  {
    match ParseBody(text, jsonParse)
    case Err(e) => (s, Reject(e))
    case Ok(body) =>
      var c := CreateListing(s, RequestOf(body), parseFloat, clock);
      match c.result
      case Ok(listing) => (c.service, Success(201, listing))
      case Err(e) => (c.service, Reject(e))
  }

  /** The route keeps the service's invariant. */
  lemma PostPreservesValid(s: Service, text: string, jsonParse: string -> Option<JsValue>,
                           parseFloat: string -> JsNumber, clock: CreateClock)
    requires Valid(s)
    ensures Valid(Post(s, text, jsonParse, parseFloat, clock).0)
  {
    var p := ParseBody(text, jsonParse);
    if p.Ok? {
      CreatePreservesValid(s, RequestOf(p.value), parseFloat, clock);
    }
  }

  /** Posting the same listing twice: the first answers 201, the second 409 with
      code `CONFLICT`, and the second leaves the state alone. */
  lemma PostTwiceConflicts(s: Service, text: string, jsonParse: string -> Option<JsValue>,
                           parseFloat: string -> JsNumber, c1: CreateClock, c2: CreateClock)
    requires Valid(s)
    requires Post(s, text, jsonParse, parseFloat, c1).1.Success?
    ensures var first := Post(s, text, jsonParse, parseFloat, c1);
            var second := Post(first.0, text, jsonParse, parseFloat, c2);
            && second.0 == first.0
            && second.1.Failure? && second.1.status == 409 && second.1.code == "CONFLICT"
  {
    var body := ParseBody(text, jsonParse).value;
    DuplicateIsConflict(s, RequestOf(body), parseFloat, c1, c2);
  }
}
