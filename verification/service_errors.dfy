/** The error kinds the marketplace service and the chain stubs throw. Their classes
    live in a module that is not part of this model; what is modelled is the kind,
    the message, the structured details the throw sites attach, and the HTTP status
    and code the route tests expect for each kind. */
module ServiceErrors {

  /** The `details` object passed at each throw site. */
  datatype Details =
    | NoDetails
    | FieldErrors(errors: seq<string>)
    | DuplicateListing(commitmentId: string, existingListingId: string)
    | SellerMismatch(listingId: string, expectedSeller: string, providedSeller: string)
    | NotCancellable(listingId: string, currentStatus: string)
    | UnknownListing(listingId: string)

  datatype ServiceError =
    | ValidationError(message: string, details: Details)
    | NotFoundError(resource: string, details: Details)
    | ConflictError(message: string, details: Details)

  /** The HTTP status a route answers with for each kind. */
  function HttpStatus(e: ServiceError): (status: int)
    ensures e.ValidationError? <==> status == 400
    ensures e.NotFoundError? <==> status == 404
    ensures e.ConflictError? <==> status == 409
  {
    match e
    case ValidationError(_, _) => 400
    case NotFoundError(_, _) => 404
    case ConflictError(_, _) => 409
  }

  /** The machine-readable `error.code` of the failure envelope for each kind. */
  function ErrorCode(e: ServiceError): (code: string)
    ensures e.ValidationError? <==> code == "VALIDATION_ERROR"
    ensures e.NotFoundError? <==> code == "NOT_FOUND"
    ensures e.ConflictError? <==> code == "CONFLICT"
  {
    match e
    case ValidationError(_, _) => "VALIDATION_ERROR"
    case NotFoundError(_, _) => "NOT_FOUND"
    case ConflictError(_, _) => "CONFLICT"
  }
}
