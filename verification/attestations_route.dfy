/** `GET` and `POST /api/attestations`, the hand-rolled attestation routes that use
    the shared validators. As for the marketplace route, `jsonParse`, `Date.now()`
    and `toISOString()` are parameters. */
module AttestationsRoute {
  import opened Wrappers
  import opened JsValues
  import opened JsStrings
  import opened Validation
  import opened Http

  datatype SampleAttestation = SampleAttestation(
    id: string, commitmentId: string, attester: string, rating: int, comment: string)

  /** The fixed mock data the `GET` handler answers with. */
  const SampleAttestations := [SampleAttestation("1", "123", "GABC...", 5, "Great commitment!")]

  datatype AttestationPage = AttestationPage(
    attestations: seq<SampleAttestation>,
    pagination: Pagination,
    filters: seq<Entry>,
    total: int)

  /** The filter object `{ commitmentId, attester }` built from the query. */
  function FilterEntries(commitmentId: JsValue, attester: JsValue): seq<Entry> {
    [("commitmentId", commitmentId), ("attester", attester)]
  }

  /** The handler body once the query parameters have been read: the attester
      filter, when present and non-empty, must be a valid address. */
  method AttestationsFor(page: JsValue, limit: JsValue, commitmentId: JsValue, attester: JsValue,
                         parseInt: string -> JsNumber, isValidKey: string -> bool)
    returns (r: RouteOutcome<AttestationPage>)
    requires commitmentId.Str? || commitmentId.Null? || commitmentId.Undefined?
    requires attester.Str? || attester.Null? || attester.Undefined?
    ensures ValidatePagination(page, limit, parseInt).Err? ==>
              r == Caught(Invalid(ValidatePagination(page, limit, parseInt).error))
    ensures ValidatePagination(page, limit, parseInt).Ok? && Truthy(attester) ==>
              (r.Respond? <==> ValidateAddress(attester, isValidKey).Ok?)
    ensures ValidatePagination(page, limit, parseInt).Ok? && !Truthy(attester) ==> r.Respond?
    ensures r.Respond? ==>
              r == Respond(200, AttestationPage(SampleAttestations, ValidatePagination(page, limit, parseInt).value,
                                                Kept(FilterEntries(commitmentId, attester)), |SampleAttestations|))
    ensures !r.Respond? ==> r.ErrorResponse? && r.status == 400
  {
    var pagination := ValidatePagination(page, limit, parseInt);
    if pagination.Err? {
      return Caught(Invalid(pagination.error));
    }
    var entries := FilterEntries(commitmentId, attester);
    var filters := ValidateFilters(entries);
    // strings, `null` and `undefined` are all allowed, so this cannot fail
    assert filters.Ok?;
    KeptAttestationFilters(commitmentId, attester);
    var attesterFilter := Lookup(filters.value, "attester");
    if Truthy(attesterFilter) {
      var checked := ValidateAddress(attesterFilter, isValidKey);
      if checked.Err? {
        return Caught(Invalid(checked.error));
      }
    }
    return Respond(200, AttestationPage(SampleAttestations, pagination.value, filters.value, |SampleAttestations|));
  }

  /** `GET /api/attestations` as written: absent parameters reach the validators as
      `null`, so a request without a `page` parameter is always refused. */
  method Get(q: Query, parseInt: string -> JsNumber, isValidKey: string -> bool)
    returns (r: RouteOutcome<AttestationPage>)
    ensures "page" !in q ==> r == ErrorResponse(400, "Page must be a number", Some("page"))
    ensures "page" in q && "limit" !in q && ValidatePagination(Str(q["page"]), Undefined, parseInt).Ok? ==>
              r == ErrorResponse(400, "Limit must be a number", Some("limit"))
    ensures r.Respond? ==> "page" in q && "limit" in q
    ensures r.Respond? && "attester" in q && q["attester"] != "" ==> isValidKey(q["attester"])
  {
    r := AttestationsFor(SearchParam(q, "page"), SearchParam(q, "limit"), SearchParam(q, "commitmentId"),
                         SearchParam(q, "attester"), parseInt, isValidKey);
    if "page" !in q {
      assert NumericArg(Null, parseInt).None?;
    } else if "limit" !in q && ValidatePagination(Str(q["page"]), Undefined, parseInt).Ok? {
      assert ValidatePagination(Str(q["page"]), Null, parseInt)
          == Err(FieldError("Limit must be a number", Some("limit")));
    }
  }

  /** `GET /api/attestations` with absent parameters passed as `undefined`: a bare
      request gets the first page of ten with no filters. */
  method GetCorrected(q: Query, parseInt: string -> JsNumber, isValidKey: string -> bool)
    returns (r: RouteOutcome<AttestationPage>)
    ensures "page" !in q && "limit" !in q && "attester" !in q ==>
              && r.Respond? && r.status == 200
              && r.body.pagination == Pagination(DefaultPage, DefaultLimit)
              && r.body.filters == (if "commitmentId" in q then [("commitmentId", Str(q["commitmentId"]))] else [])
    ensures r.Respond? && "attester" in q && q["attester"] != "" ==> isValidKey(q["attester"])
  {
    var commitmentId := OptionalParam(q, "commitmentId");
    r := AttestationsFor(OptionalParam(q, "page"), OptionalParam(q, "limit"), commitmentId,
                         OptionalParam(q, "attester"), parseInt, isValidKey);
    KeptAttestationFilters(commitmentId, OptionalParam(q, "attester"));
  }

  /** The filters kept from the two query parameters, and the attester read back
      from them. */
  lemma KeptAttestationFilters(commitmentId: JsValue, attester: JsValue)
    requires commitmentId.Str? || commitmentId.Null? || commitmentId.Undefined?
    requires attester.Str? || attester.Null? || attester.Undefined?
    ensures Kept(FilterEntries(commitmentId, attester))
         == (if commitmentId.Str? then [("commitmentId", commitmentId)] else [])
            + (if attester.Str? then [("attester", attester)] else [])
    ensures Lookup(Kept(FilterEntries(commitmentId, attester)), "attester")
         == (if attester.Str? then attester else Undefined)
  {
    var entries := FilterEntries(commitmentId, attester);
    assert entries[..1] == [("commitmentId", commitmentId)];
    assert entries[..1][..0] == [];
    var first := if commitmentId.Str? then [entries[0]] else [];
    var second := if attester.Str? then [entries[1]] else [];
    assert Kept(entries) == first + second;
    assert "commitmentId"[0] != "attester"[0];
    if commitmentId.Str? {
      assert (first + second)[1..] == second;
      assert Lookup(first + second, "attester") == Lookup(second, "attester");
    }
    if attester.Str? {
      assert Lookup(second, "attester") == attester;
    } else {
      assert Lookup(second, "attester") == Undefined;
    }
  }

  // ------------------------------------------------------------ POST

  datatype NewAttestation = NewAttestation(
    id: string,
    commitmentId: string,
    attester: string,
    rating: JsNumber,
    comment: JsValue,
    createdAt: string)

  const CommitmentIdRequired := "Commitment ID is required and must be a string"
  const RatingOutOfRange := "Rating is required and must be between 1 and 5"

  /** The rating test `rating === undefined || typeof rating !== 'number' || rating < 1
      || rating > 5`, negated. Both comparisons are false for `NaN`, so `NaN` passes. */
  predicate RatingAccepted(rating: JsValue) {
    rating.Number? && (rating.n.Num? ==> 1 <= rating.n.v <= 5)
  }

  /** `POST /api/attestations`: commitment id, then rating, then attester address,
      each failing fast; the answer echoes the rating and defaults a falsy comment to
      the empty string. */
  function Post(bodyText: string, jsonParse: string -> Option<JsValue>, isValidKey: string -> bool,
                nowMs: nat, nowIso: string): (r: RouteOutcome<NewAttestation>)
    ensures jsonParse(bodyText).None? ==> r == Throws(JsonSyntaxError)
    ensures jsonParse(bodyText) == Some(Null) ==> r == Throws(NullDestructuring)
    ensures jsonParse(bodyText).Some? && !jsonParse(bodyText).value.Obj? && jsonParse(bodyText).value != Null
            && jsonParse(bodyText).value != Undefined ==>
              r == ErrorResponse(400, CommitmentIdRequired, Some("commitmentId"))
    ensures jsonParse(bodyText).Some? && jsonParse(bodyText).value.Obj? ==>
              var body := jsonParse(bodyText).value;
              var commitmentId := Field(body, "commitmentId");
              var rating := Field(body, "rating");
              var attester := ValidateAddress(Field(body, "attesterAddress"), isValidKey);
              && (MissingOrNotString(commitmentId) ==>
                    r == ErrorResponse(400, CommitmentIdRequired, Some("commitmentId")))
              && (!MissingOrNotString(commitmentId) && !RatingAccepted(rating) ==>
                    r == ErrorResponse(400, RatingOutOfRange, Some("rating")))
              && (!MissingOrNotString(commitmentId) && RatingAccepted(rating) && attester.Err? ==>
                    r == ErrorResponse(400, attester.error.message, Some("address")))
              && (r.Respond? <==> !MissingOrNotString(commitmentId) && RatingAccepted(rating) && attester.Ok?)
    ensures r.Respond? ==>
              var body := jsonParse(bodyText).value;
              body.Obj? &&
              var comment := Field(body, "comment");
              && r.status == 201
              && Str(r.body.commitmentId) == Field(body, "commitmentId") && r.body.commitmentId != ""
              && Number(r.body.rating) == Field(body, "rating")
              && (r.body.rating.Num? ==> 1 <= r.body.rating.v <= 5)
              && Str(r.body.attester) == Field(body, "attesterAddress") && isValidKey(r.body.attester)
              && r.body.comment == (if Truthy(comment) then comment else Str(""))
              && r.body.id == NatToDecimal(nowMs) && r.body.createdAt == nowIso
    ensures r.ErrorResponse? ==> r.status == 400
  {
    var parsed := jsonParse(bodyText);
    if parsed.None? then Caught(JsonSyntaxError)
    else
      var body := parsed.value;
      if body.Null? || body.Undefined? then Caught(NullDestructuring)
      else
        var commitmentId := Property(body, "commitmentId").value;
        var attesterAddress := Property(body, "attesterAddress").value;
        var rating := Property(body, "rating").value;
        var comment := Property(body, "comment").value;
        if MissingOrNotString(commitmentId) then
          Caught(Invalid(FieldError(CommitmentIdRequired, Some("commitmentId"))))
        else if !RatingAccepted(rating) then
          Caught(Invalid(FieldError(RatingOutOfRange, Some("rating"))))
        else
          match ValidateAddress(attesterAddress, isValidKey)
          case Err(e) => Caught(Invalid(e))
          case Ok(validatedAddress) =>
            Respond(201, NewAttestation(
              NatToDecimal(nowMs), commitmentId.s, validatedAddress, rating.n,
              if Truthy(comment) then comment else Str(""), nowIso))
  }
}
