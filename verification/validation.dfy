/** The hand-rolled validators shared by the marketplace and attestation routes.
    They fail fast with their own `ValidationError`, which carries a message and the
    name of the offending field. `parseFloat`, `parseInt` (radix 10) and
    `StrKey.isValidEd25519PublicKey` are uninterpreted functions. */
module Validation {
  import opened Wrappers
  import opened JsValues

  /** validation.ts's `ValidationError(message, field?)`. */
  datatype FieldError = FieldError(message: string, field: Option<string>)

  /** What a route's `try` block can throw: a `ValidationError`, or anything else
      (a JSON `SyntaxError`, a `TypeError` from destructuring `null`, ...). */
  datatype Thrown = Invalid(error: FieldError) | Other(name: string)

  datatype Pagination = Pagination(page: int, limit: int)

  // ------------------------------------------------------------ validateAddress

  const AddressRequired := "Address is required and must be a string"
  const AddressMalformed := "Invalid Stellar address format"

  /** `validateAddress`: a non-empty string that `isValidKey` accepts is returned
      unchanged; otherwise the error names the field `address`. */
  function ValidateAddress(address: JsValue, isValidKey: string -> bool): (r: Result<string, FieldError>)
    ensures r.Ok? <==> address.Str? && address.s != "" && isValidKey(address.s)
    ensures r.Ok? ==> r.value == address.s
    ensures r.Err? ==> r.error.field == Some("address")
    ensures !(address.Str? && address.s != "") ==> r == Err(FieldError(AddressRequired, Some("address")))
  {
    if MissingOrNotString(address) then Err(FieldError(AddressRequired, Some("address")))
    else if !isValidKey(address.s) then Err(FieldError(AddressMalformed, Some("address")))
    else Ok(address.s)
  }

  // ------------------------------------------------------------ validateAmount

  const AmountNotNumeric := "Amount must be a number or numeric string"
  const AmountNotPositive := "Amount must be a positive number"

  /** The number an amount denotes: `parseFloat` of a string, a number itself. */
  function AmountValue(amount: JsValue, parseFloat: string -> JsNumber): Option<JsNumber> {
    match amount
    case Str(s) => Some(parseFloat(s))
    case Number(n) => Some(n)
    case _ => None
  }

  /** `validateAmount`: a string or number denoting a value above zero; the result is
      that value. NaN, zero and negatives are refused, and so is any other type. */
  function ValidateAmount(amount: JsValue, parseFloat: string -> JsNumber): (r: Result<int, FieldError>)
    ensures r.Ok? ==> r.value > 0
    ensures r.Ok? <==> AmountValue(amount, parseFloat).Some?
                       && AmountValue(amount, parseFloat).value.Num?
                       && AmountValue(amount, parseFloat).value.v > 0
    ensures r.Ok? ==> AmountValue(amount, parseFloat) == Some(Num(r.value))
    ensures r.Err? ==> r.error.field == Some("amount")
    ensures !(amount.Str? || amount.Number?) ==> r == Err(FieldError(AmountNotNumeric, Some("amount")))
  {
    var numAmount :=
      if amount.Str? then parseFloat(amount.s)
      else if amount.Number? then amount.n
      else NaN;
    if !(amount.Str? || amount.Number?) then Err(FieldError(AmountNotNumeric, Some("amount")))
    else if numAmount.NaN? || numAmount.v <= 0 then Err(FieldError(AmountNotPositive, Some("amount")))
    else Ok(numAmount.v)
  }

  // ------------------------------------------------------------ validatePagination

  const DefaultPage := 1
  const DefaultLimit := 10
  const MaxLimit := 100

  /** `parseInt(x, 10)` of a string, a number itself, `None` for any other type. */
  function NumericArg(v: JsValue, parseInt: string -> JsNumber): Option<JsNumber> {
    match v
    case Str(s) => Some(parseInt(s))
    case Number(n) => Some(n)
    case _ => None
  }

  /** The `page` argument is acceptable: absent, or a number (or numeric string) of
      at least 1. */
  predicate PageAcceptable(page: JsValue, parseInt: string -> JsNumber) {
    page.Undefined? ||
    (NumericArg(page, parseInt).Some? && NumericArg(page, parseInt).value.Num?
     && NumericArg(page, parseInt).value.v >= 1)
  }

  predicate LimitAcceptable(limit: JsValue, parseInt: string -> JsNumber) {
    limit.Undefined? ||
    (NumericArg(limit, parseInt).Some? && NumericArg(limit, parseInt).value.Num?
     && 1 <= NumericArg(limit, parseInt).value.v <= MaxLimit)
  }

  /** `validatePagination`. `page` is checked before `limit`; only `undefined` takes
      the default, so `null` is an error like any other non-numeric type. */
  function ValidatePagination(page: JsValue, limit: JsValue, parseInt: string -> JsNumber)
    : (r: Result<Pagination, FieldError>)
    ensures page.Undefined? && limit.Undefined? ==> r == Ok(Pagination(DefaultPage, DefaultLimit))
    ensures r.Ok? <==> PageAcceptable(page, parseInt) && LimitAcceptable(limit, parseInt)
    ensures r.Ok? ==> r.value.page >= 1 && 1 <= r.value.limit <= MaxLimit
    ensures r.Ok? && !page.Undefined? ==> NumericArg(page, parseInt) == Some(Num(r.value.page))
    ensures r.Ok? && !limit.Undefined? ==> NumericArg(limit, parseInt) == Some(Num(r.value.limit))
    ensures !PageAcceptable(page, parseInt) ==> r.Err? && r.error.field == Some("page")
    ensures !page.Undefined? && NumericArg(page, parseInt).None? ==>
              r == Err(FieldError("Page must be a number", Some("page")))
    ensures PageAcceptable(page, parseInt) && !LimitAcceptable(limit, parseInt) ==>
              r.Err? && r.error.field == Some("limit")
  {
    if !page.Undefined? && NumericArg(page, parseInt).None? then
      Err(FieldError("Page must be a number", Some("page")))
    else
      var pageNum := if page.Undefined? then Num(DefaultPage) else NumericArg(page, parseInt).value;
      if pageNum.NaN? || pageNum.v < 1 then
        Err(FieldError("Page must be a positive integer", Some("page")))
      else if !limit.Undefined? && NumericArg(limit, parseInt).None? then
        Err(FieldError("Limit must be a number", Some("limit")))
      else
        var limitNum := if limit.Undefined? then Num(DefaultLimit) else NumericArg(limit, parseInt).value;
        if limitNum.NaN? || limitNum.v < 1 || limitNum.v > MaxLimit then
          Err(FieldError("Limit must be between 1 and 100", Some("limit")))
        else
          Ok(Pagination(pageNum.v, limitNum.v))
  }

  // ------------------------------------------------------------ validateFilters

  /** One `[key, value]` pair of `Object.entries(filters)`, in insertion order. */
  type Entry = (string, JsValue)

  predicate IsFilterScalar(v: JsValue) {
    v.Str? || v.Number? || v.Bool?
  }

  predicate IsFilterAllowed(v: JsValue) {
    v.Undefined? || v.Null? || IsFilterScalar(v)
  }

  /** The entries `validateFilters` keeps, in order: the string, number and boolean
      ones. */
  function Kept(filters: seq<Entry>): (r: seq<Entry>)
    ensures |r| <= |filters|
    ensures forall e :: e in r ==> e in filters && IsFilterScalar(e.1)
    ensures forall e :: e in filters && IsFilterScalar(e.1) ==> e in r
  {
    if filters == [] then []
    else
      var last := filters[|filters| - 1];
      Kept(filters[..|filters| - 1]) + (if IsFilterScalar(last.1) then [last] else [])
  }

  /** `i` is the first entry whose value is not allowed. */
  predicate FirstRejected(filters: seq<Entry>, i: int) {
    && 0 <= i < |filters| && !IsFilterAllowed(filters[i].1)
    && forall j :: 0 <= j < i ==> IsFilterAllowed(filters[j].1)
  }

  function FilterError(key: string): FieldError {
    FieldError("Filter " + key + " must be a string, number, or boolean", Some(key))
  }

  /** `validateFilters`: `null` and `undefined` entries are dropped, scalars kept as
      they are, and the first entry of any other type raises an error naming its
      key. */
  method ValidateFilters(filters: seq<Entry>) returns (r: Result<seq<Entry>, FieldError>)
    ensures r.Ok? <==> forall i :: 0 <= i < |filters| ==> IsFilterAllowed(filters[i].1)
    ensures r.Ok? ==> r.value == Kept(filters)
    ensures r.Err? ==> exists i :: FirstRejected(filters, i) && r.error == FilterError(filters[i].0)
  {
    var validated: seq<Entry> := [];
    var i := 0;
    while i < |filters|
      invariant 0 <= i <= |filters|
      invariant validated == Kept(filters[..i])
      invariant forall j :: 0 <= j < i ==> IsFilterAllowed(filters[j].1)
    {
      var (key, value) := filters[i];
      assert filters[..i + 1][..i] == filters[..i];
      if value.Undefined? || value.Null? {
      } else if IsFilterScalar(value) {
        validated := validated + [(key, value)];
      } else {
        assert FirstRejected(filters, i);
        return Err(FilterError(key));
      }
      i := i + 1;
    }
    assert filters[..i] == filters;
    return Ok(validated);
  }

  /** The value kept for `key` in validated filters, as `filters[key]` reads it. */
  function Lookup(entries: seq<Entry>, key: string): (v: JsValue)
    ensures v != Undefined ==> (key, v) in entries
  {
    if entries == [] then Undefined
    else if entries[0].0 == key then entries[0].1
    else Lookup(entries[1..], key)
  }

  // ------------------------------------------------------------ handleValidationError

  /** A route's answer after `handleValidationError`: a 400 response whose body is
      `{ error: message, field }`, or the original error thrown on. */
  datatype Handled = Responded(status: int, error: string, field: Option<string>) | Rethrown(thrown: Thrown)

  function HandleValidationError(e: Thrown): (h: Handled)
    ensures e.Invalid? ==> h == Responded(400, e.error.message, e.error.field)
    ensures e.Other? ==> h == Rethrown(e)
  {
    match e
    case Invalid(err) => Responded(400, err.message, err.field)
    case Other(_) => Rethrown(e)
  }
}
