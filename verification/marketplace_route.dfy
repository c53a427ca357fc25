/** `GET` and `POST /api/marketplace`, the hand-rolled listing routes that use the
    shared validators. The body parser is the uninterpreted `jsonParse` (`None` for
    text that is not JSON); `Date.now()` and `toISOString()` are parameters. */
module MarketplaceRoute {
  import opened Wrappers
  import opened JsValues
  import opened JsStrings
  import opened Validation
  import opened Http

  datatype SampleListing = SampleListing(id: string, title: string, category: string, price: int)

  /** The fixed mock data the `GET` handler answers with. */
  const SampleListings := [SampleListing("1", "Sample Listing", "impact", 50)]

  datatype ListingPage = ListingPage(
    listings: seq<SampleListing>,
    pagination: Pagination,
    filters: seq<Entry>,
    total: int)

  /** The filter object `{ category, minPrice, maxPrice }` built from the query. */
  function FilterEntries(category: JsValue, minPrice: JsValue, maxPrice: JsValue): seq<Entry> {
    [("category", category), ("minPrice", minPrice), ("maxPrice", maxPrice)]
  }

  /** The price filters of validated filters are acceptable: each one is either
      falsy or passes `validateAmount`. */
  predicate PriceFiltersAcceptable(filters: seq<Entry>, parseFloat: string -> JsNumber) {
    && (Truthy(Lookup(filters, "minPrice")) ==> ValidateAmount(Lookup(filters, "minPrice"), parseFloat).Ok?)
    && (Truthy(Lookup(filters, "maxPrice")) ==> ValidateAmount(Lookup(filters, "maxPrice"), parseFloat).Ok?)
  }

  /** The handler body once the query parameters have been read. */
  method ListingsFor(page: JsValue, limit: JsValue, category: JsValue, minPrice: JsValue, maxPrice: JsValue,
                     parseInt: string -> JsNumber, parseFloat: string -> JsNumber)
    returns (r: RouteOutcome<ListingPage>)
    requires category.Str? || category.Null? || category.Undefined?
    requires minPrice.Str? || minPrice.Null? || minPrice.Undefined?
    requires maxPrice.Str? || maxPrice.Null? || maxPrice.Undefined?
    ensures ValidatePagination(page, limit, parseInt).Err? ==>
              r == Caught(Invalid(ValidatePagination(page, limit, parseInt).error))
    ensures r.Respond? <==>
              ValidatePagination(page, limit, parseInt).Ok?
              && PriceFiltersAcceptable(Kept(FilterEntries(category, minPrice, maxPrice)), parseFloat)
    ensures r.Respond? ==>
              r == Respond(200, ListingPage(SampleListings, ValidatePagination(page, limit, parseInt).value,
                                            Kept(FilterEntries(category, minPrice, maxPrice)), |SampleListings|))
    ensures !r.Respond? ==> r.ErrorResponse? && r.status == 400
  {
    var pagination := ValidatePagination(page, limit, parseInt);
    if pagination.Err? {
      return Caught(Invalid(pagination.error));
    }
    var entries := FilterEntries(category, minPrice, maxPrice);
    var filters := ValidateFilters(entries);
    // strings, `null` and `undefined` are all allowed, so this cannot fail
    assert filters.Ok?;
    var minFilter := Lookup(filters.value, "minPrice");
    if Truthy(minFilter) {
      var checked := ValidateAmount(minFilter, parseFloat);
      if checked.Err? {
        return Caught(Invalid(checked.error));
      }
    }
    var maxFilter := Lookup(filters.value, "maxPrice");
    if Truthy(maxFilter) {
      var checked := ValidateAmount(maxFilter, parseFloat);
      if checked.Err? {
        return Caught(Invalid(checked.error));
      }
    }
    return Respond(200, ListingPage(SampleListings, pagination.value, filters.value, |SampleListings|));
  }

  /** `GET /api/marketplace` as written: absent parameters reach the validators as
      `null`. A request without a `page` parameter is therefore always refused,
      although the validator's default of page 1 was evidently meant for it. */
  method Get(q: Query, parseInt: string -> JsNumber, parseFloat: string -> JsNumber)
    returns (r: RouteOutcome<ListingPage>)
    ensures "page" !in q ==> r == ErrorResponse(400, "Page must be a number", Some("page"))
    ensures "page" in q && "limit" !in q && ValidatePagination(Str(q["page"]), Undefined, parseInt).Ok? ==>
              r == ErrorResponse(400, "Limit must be a number", Some("limit"))
    ensures r.Respond? ==> "page" in q && "limit" in q
    ensures r.Respond? ==> r.status == 200 && r.body.pagination.page >= 1
                           && 1 <= r.body.pagination.limit <= MaxLimit
    ensures r.Respond? ==> forall e :: e in r.body.filters ==> FromQuery(q, e)
  {
    r := ListingsFor(SearchParam(q, "page"), SearchParam(q, "limit"), SearchParam(q, "category"),
                     SearchParam(q, "minPrice"), SearchParam(q, "maxPrice"), parseInt, parseFloat);
    KeptFiltersFromQuery(q, SearchParam(q, "category"), SearchParam(q, "minPrice"), SearchParam(q, "maxPrice"));
    if "page" !in q {
      assert NumericArg(Null, parseInt).None?;
    } else if "limit" !in q && ValidatePagination(Str(q["page"]), Undefined, parseInt).Ok? {
      assert ValidatePagination(Str(q["page"]), Null, parseInt)
          == Err(FieldError("Limit must be a number", Some("limit")));
    }
  }

  /** A kept filter is a parameter of the query, with the value given there. */
  predicate FromQuery(q: Query, e: Entry) {
    e.1.Str? && e.0 in q && q[e.0] == e.1.s
  }

  lemma KeptFiltersFromQuery(q: Query, category: JsValue, minPrice: JsValue, maxPrice: JsValue)
    requires category.Str? ==> "category" in q && q["category"] == category.s
    requires minPrice.Str? ==> "minPrice" in q && q["minPrice"] == minPrice.s
    requires maxPrice.Str? ==> "maxPrice" in q && q["maxPrice"] == maxPrice.s
    requires category.Str? || category.Null? || category.Undefined?
    requires minPrice.Str? || minPrice.Null? || minPrice.Undefined?
    requires maxPrice.Str? || maxPrice.Null? || maxPrice.Undefined?
    ensures forall e :: e in Kept(FilterEntries(category, minPrice, maxPrice)) ==> FromQuery(q, e)
  {
    forall e | e in Kept(FilterEntries(category, minPrice, maxPrice))
      ensures FromQuery(q, e)
    {
      assert e in FilterEntries(category, minPrice, maxPrice) && IsFilterScalar(e.1);
    }
  }

  /** `GET /api/marketplace` with absent parameters passed as `undefined`: a bare
      request gets the first page of ten, and absent filters are dropped. */
  method GetCorrected(q: Query, parseInt: string -> JsNumber, parseFloat: string -> JsNumber)
    returns (r: RouteOutcome<ListingPage>)
    ensures "page" !in q && "limit" !in q && "minPrice" !in q && "maxPrice" !in q ==>
              && r.Respond? && r.status == 200
              && r.body.pagination == Pagination(DefaultPage, DefaultLimit)
              && r.body.filters == (if "category" in q then [("category", Str(q["category"]))] else [])
    ensures r.Respond? ==> r.body.pagination.page >= 1 && 1 <= r.body.pagination.limit <= MaxLimit
    ensures r.Respond? ==> forall e :: e in r.body.filters ==> FromQuery(q, e)
  {
    r := ListingsFor(OptionalParam(q, "page"), OptionalParam(q, "limit"), OptionalParam(q, "category"),
                     OptionalParam(q, "minPrice"), OptionalParam(q, "maxPrice"), parseInt, parseFloat);
    KeptFiltersFromQuery(q, OptionalParam(q, "category"), OptionalParam(q, "minPrice"), OptionalParam(q, "maxPrice"));
    if "page" !in q && "limit" !in q && "minPrice" !in q && "maxPrice" !in q {
      CategoryOnly(OptionalParam(q, "category"), parseFloat);
    }
  }

  /** With no price filters, only the category is kept, and the price checks pass. */
  lemma CategoryOnly(category: JsValue, parseFloat: string -> JsNumber)
    requires category.Str? || category.Undefined?
    ensures Kept(FilterEntries(category, Undefined, Undefined)) == (if category.Str? then [("category", category)] else [])
    ensures PriceFiltersAcceptable(Kept(FilterEntries(category, Undefined, Undefined)), parseFloat)
  {
    var entries := FilterEntries(category, Undefined, Undefined);
    assert entries[..2] == [("category", category), ("minPrice", Undefined)];
    assert entries[..1] == [("category", category)];
    assert entries[..0] == [];
    var kept := if category.Str? then [("category", category)] else [];
    assert Kept(entries) == kept;
    assert Lookup(kept, "minPrice") == Undefined;
    assert Lookup(kept, "maxPrice") == Undefined;
  }

  // ------------------------------------------------------------ POST

  datatype NewListing = NewListing(
    id: string,
    title: string,
    description: JsValue,
    price: int,
    category: string,
    seller: string,
    createdAt: string)

  const TitleRequired := "Title is required and must be a string"
  const CategoryRequired := "Category is required and must be a string"

  /** `POST /api/marketplace`: title, then category, then price, then seller address,
      each failing fast. The answer echoes the validated price and address and
      defaults a falsy description to the empty string. A body that is not JSON, or
      is `null`, is not a `ValidationError` and is thrown on. */
  function Post(bodyText: string, jsonParse: string -> Option<JsValue>, parseFloat: string -> JsNumber,
                isValidKey: string -> bool, nowMs: nat, nowIso: string): (r: RouteOutcome<NewListing>)
    ensures jsonParse(bodyText).None? ==> r == Throws(JsonSyntaxError)
    ensures jsonParse(bodyText) == Some(Null) ==> r == Throws(NullDestructuring)
    ensures jsonParse(bodyText).Some? && !jsonParse(bodyText).value.Obj? && jsonParse(bodyText).value != Null && jsonParse(bodyText).value != Undefined ==>
              r == ErrorResponse(400, TitleRequired, Some("title"))
    ensures jsonParse(bodyText).Some? && jsonParse(bodyText).value.Obj? ==>
              var fields := jsonParse(bodyText).value;
              var title := Field(fields, "title");
              var category := Field(fields, "category");
              var price := ValidateAmount(Field(fields, "price"), parseFloat);
              var seller := ValidateAddress(Field(fields, "sellerAddress"), isValidKey);
              && (!IsNonEmptyString(title) ==> r == ErrorResponse(400, TitleRequired, Some("title")))
              && (IsNonEmptyString(title) && !IsNonEmptyString(category) ==>
                    r == ErrorResponse(400, CategoryRequired, Some("category")))
              && (IsNonEmptyString(title) && IsNonEmptyString(category) && price.Err? ==>
                    r == ErrorResponse(400, price.error.message, Some("amount")))
              && (IsNonEmptyString(title) && IsNonEmptyString(category) && price.Ok? && seller.Err? ==>
                    r == ErrorResponse(400, seller.error.message, Some("address")))
              && (r.Respond? <==> IsNonEmptyString(title) && IsNonEmptyString(category) && price.Ok? && seller.Ok?)
    ensures r.Respond? ==>
              var body := jsonParse(bodyText).value;
              body.Obj? &&
              var description := Field(body, "description");
              && r.status == 201
              && Str(r.body.title) == Field(body, "title") && Str(r.body.category) == Field(body, "category")
              && r.body.price > 0 && Some(Num(r.body.price)) == AmountValue(Field(body, "price"), parseFloat)
              && Str(r.body.seller) == Field(body, "sellerAddress") && isValidKey(r.body.seller)
              && r.body.description == (if Truthy(description) then description else Str(""))
              && r.body.id == NatToDecimal(nowMs) && r.body.createdAt == nowIso
    ensures r.ErrorResponse? ==> r.status == 400
  {
    var parsed := jsonParse(bodyText);
    if parsed.None? then Caught(JsonSyntaxError)
    else
      var body := parsed.value;
      if body.Null? || body.Undefined? then Caught(NullDestructuring)
      else
        var title := Property(body, "title").value;
        var description := Property(body, "description").value;
        var price := Property(body, "price").value;
        var category := Property(body, "category").value;
        var sellerAddress := Property(body, "sellerAddress").value;
        if MissingOrNotString(title) then Caught(Invalid(FieldError(TitleRequired, Some("title"))))
        else if MissingOrNotString(category) then Caught(Invalid(FieldError(CategoryRequired, Some("category"))))
        else
          match ValidateAmount(price, parseFloat)
          case Err(e) => Caught(Invalid(e))
          case Ok(validatedPrice) =>
            match ValidateAddress(sellerAddress, isValidKey)
            case Err(e) => Caught(Invalid(e))
            case Ok(validatedAddress) =>
              Respond(201, NewListing(
                NatToDecimal(nowMs), title.s, if Truthy(description) then description else Str(""),
                validatedPrice, category.s, validatedAddress, nowIso))
  }
}
