/** The marketplace listing service: a table of listings keyed by id plus a counter,
    threaded explicitly through `CreateListing`, `CancelListing` and `GetListing`.
    The clock is a parameter (`nowMs` for `Date.now()`, `nowIso` for
    `new Date().toISOString()`, and a `CreateClock` for the three reads of one
    create), and `parseFloat` is an uninterpreted function. */
module Marketplace {
  import opened Wrappers
  import opened JsValues
  import opened JsStrings
  import opened ServiceErrors

  datatype ListingStatus = Active | Sold | Cancelled

  function StatusName(st: ListingStatus): string {
    match st
    case Active => "Active"
    case Sold => "Sold"
    case Cancelled => "Cancelled"
  }

  datatype Listing = Listing(
    id: string,
    commitmentId: string,
    price: string,
    currencyAsset: string,
    sellerAddress: string,
    status: ListingStatus,
    createdAt: string,
    updatedAt: string)

  /** The four fields `createListing` reads from its (untyped) request object. */
  datatype ListingRequest = ListingRequest(
    commitmentId: JsValue,
    price: JsValue,
    currencyAsset: JsValue,
    sellerAddress: JsValue)

  /** The request the service sees when a route forwards `body` to it. */
  function RequestOf(body: JsValue): (req: ListingRequest)
    requires body.Obj? || body.Arr?
    ensures req.commitmentId == Field(body, "commitmentId")
    ensures req.price == Field(body, "price")
    ensures req.currencyAsset == Field(body, "currencyAsset")
    ensures req.sellerAddress == Field(body, "sellerAddress")
  {
    ListingRequest(
      Field(body, "commitmentId"), Field(body, "price"),
      Field(body, "currencyAsset"), Field(body, "sellerAddress"))
  }

  /** The service's private state. `order` is the insertion order of the keys of
      `listings`, which is the order `Array.from(listings.values())` walks. */
  datatype Service = Service(listings: map<string, Listing>, order: seq<string>, counter: nat)

  /** A freshly constructed service. */
  const Initial := Service(map[], [], 0)

  /** A state after an operation, and what the operation returned or threw. */
  datatype Outcome<T> = Outcome(service: Service, result: Result<T, ServiceError>)

  // ------------------------------------------------------------ listing ids

  const ListingPrefix := "listing_"

  /** `listing_${counter}_${Date.now()}`. */
  function ListingId(counter: nat, nowMs: nat): string {
    ListingPrefix + NatToDecimal(counter) + "_" + NatToDecimal(nowMs)
  }

  /** The counter component of a listing id, read back. */
  function ListingCounter(id: string): Option<nat> {
    if |id| >= |ListingPrefix| && id[..|ListingPrefix|] == ListingPrefix then
      var rest := id[|ListingPrefix|..];
      var d := LeadingDigits(rest);
      if 0 < |d| < |rest| && rest[|d|] == '_' then Some(DecimalValue(d)) else None
    else None
  }

  /** An id records the counter it was generated from, whatever the timestamp. */
  lemma ListingCounterOfId(counter: nat, nowMs: nat)
    ensures ListingCounter(ListingId(counter, nowMs)) == Some(counter)
  {
    var id := ListingId(counter, nowMs);
    var d := NatToDecimal(counter);
    var rest := "_" + NatToDecimal(nowMs);
    assert id[..|ListingPrefix|] == ListingPrefix;
    assert id[|ListingPrefix|..] == d + rest;
    LeadingDigitsOf(d, rest);
    DecimalRoundTrip(counter);
  }

  /** Ids generated from different counter values differ. */
  lemma ListingIdInjective(c1: nat, t1: nat, c2: nat, t2: nat)
    requires c1 != c2
    ensures ListingId(c1, t1) != ListingId(c2, t2)
  {
    ListingCounterOfId(c1, t1);
    ListingCounterOfId(c2, t2);
  }

  // ------------------------------------------------------------ validation

  const CommitmentIdRequired := "commitmentId is required and must be a string"
  const PriceRequired := "price is required and must be a string"
  const PriceNotPositive := "price must be a positive number"
  const CurrencyAssetRequired := "currencyAsset is required and must be a string"
  const SellerAddressRequired := "sellerAddress is required and must be a string"

  /** A price string that `parseFloat` reads as a number above zero. */
  predicate PositivePrice(price: string, parseFloat: string -> JsNumber) {
    parseFloat(price).Num? && parseFloat(price).v > 0
  }

  /** The request passes validation: four non-empty strings and a positive price. */
  predicate WellFormed(req: ListingRequest, parseFloat: string -> JsNumber) {
    && IsNonEmptyString(req.commitmentId)
    && IsNonEmptyString(req.price) && PositivePrice(req.price.s, parseFloat)
    && IsNonEmptyString(req.currencyAsset)
    && IsNonEmptyString(req.sellerAddress)
  }

  /** The checks `validateCreateListingRequest` makes, in the order it makes them. */
  datatype Check = CommitmentIdCheck | PriceCheck | PricePositiveCheck | CurrencyAssetCheck | SellerAddressCheck

  /** The position of each check in the order they are made. */
  function CheckRank(c: Check): nat {
    match c
    case CommitmentIdCheck => 0
    case PriceCheck => 1
    case PricePositiveCheck => 2
    case CurrencyAssetCheck => 3
    case SellerAddressCheck => 4
  }

  function Message(c: Check): string {
    match c
    case CommitmentIdCheck => CommitmentIdRequired
    case PriceCheck => PriceRequired
    case PricePositiveCheck => PriceNotPositive
    case CurrencyAssetCheck => CurrencyAssetRequired
    case SellerAddressCheck => SellerAddressRequired
  }

  /** When each check fails: a field that is not a non-empty string, and a present
      price that does not read as a number above zero. */
  predicate Fails(c: Check, req: ListingRequest, parseFloat: string -> JsNumber) {
    match c
    case CommitmentIdCheck => !IsNonEmptyString(req.commitmentId)
    case PriceCheck => !IsNonEmptyString(req.price)
    case PricePositiveCheck => IsNonEmptyString(req.price) && !PositivePrice(req.price.s, parseFloat)
    case CurrencyAssetCheck => !IsNonEmptyString(req.currencyAsset)
    case SellerAddressCheck => !IsNonEmptyString(req.sellerAddress)
  }

  /** The check made after `c`. */
  function Next(c: Check): (n: Check)
    requires c != SellerAddressCheck
    ensures CheckRank(n) == CheckRank(c) + 1
  {
    match c
    case CommitmentIdCheck => PriceCheck
    case PriceCheck => PricePositiveCheck
    case PricePositiveCheck => CurrencyAssetCheck
    case CurrencyAssetCheck => SellerAddressCheck
  }

  /** Checks listed in the order they are made, each at most once. */
  ghost predicate Ordered(cs: seq<Check>) {
    forall i, j :: 0 <= i < j < |cs| ==> CheckRank(cs[i]) < CheckRank(cs[j])
  }

  lemma OrderedCons(c: Check, rest: seq<Check>)
    requires Ordered(rest)
    requires forall d :: d in rest ==> CheckRank(c) < CheckRank(d)
    ensures Ordered([c] + rest)
  {
    forall i, j | 0 <= i < j < |[c] + rest|
      ensures CheckRank(([c] + rest)[i]) < CheckRank(([c] + rest)[j])
    {
      assert ([c] + rest)[j] == rest[j - 1];
      if i > 0 {
        assert ([c] + rest)[i] == rest[i - 1];
      }
    }
  }

  /** The checks from `c` onwards that fail, in the order they are made. */
  function FailingFrom(c: Check, req: ListingRequest, parseFloat: string -> JsNumber): (cs: seq<Check>)
    ensures forall d :: d in cs <==> CheckRank(c) <= CheckRank(d) && Fails(d, req, parseFloat)
    ensures Ordered(cs)
    decreases 4 - CheckRank(c)
  {
    var rest := if c == SellerAddressCheck then [] else FailingFrom(Next(c), req, parseFloat);
    if Fails(c, req, parseFloat) then
      OrderedCons(c, rest);
      [c] + rest
    else rest
  }

  /** The checks that fail, as `validateCreateListingRequest` collects them: every
      failing one, in the order they are made; the price-positive check is made only
      once the price is a non-empty string. */
  function FailedChecks(req: ListingRequest, parseFloat: string -> JsNumber): (cs: seq<Check>)
    ensures forall c :: c in cs <==> Fails(c, req, parseFloat)
    ensures Ordered(cs)
    ensures cs == [] <==> WellFormed(req, parseFloat)
  {
    FailingFrom(CommitmentIdCheck, req, parseFloat)
  }

  /** Different checks report different messages. */
  lemma MessageInjective(c: Check, d: Check)
    requires Message(c) == Message(d)
    ensures c == d
  {
    assert Message(c)[0] == Message(d)[0] && Message(c)[6] == Message(d)[6];
  }

  /** `validateCreateListingRequest`'s list of failures: the message of every
      failing check, in check order. */
  function ValidationErrors(req: ListingRequest, parseFloat: string -> JsNumber): (errors: seq<string>)
    ensures |errors| == |FailedChecks(req, parseFloat)|
    ensures forall i :: 0 <= i < |errors| ==> errors[i] == Message(FailedChecks(req, parseFloat)[i])
    ensures forall c :: Message(c) in errors <==> Fails(c, req, parseFloat)
    ensures errors == [] <==> WellFormed(req, parseFloat)
  {
    var cs := FailedChecks(req, parseFloat);
    var errors := seq(|cs|, i requires 0 <= i < |cs| => Message(cs[i]));
    assert forall c :: Message(c) in errors ==> c in cs by {
      forall c | Message(c) in errors ensures c in cs {
        var i :| 0 <= i < |errors| && errors[i] == Message(c);
        MessageInjective(c, cs[i]);
      }
    }
    errors
  }

  // ------------------------------------------------------------ lookups

  predicate IsActiveFor(l: Listing, commitmentId: string) {
    l.commitmentId == commitmentId && l.status == Active
  }

  /** `keys[j]` is the first key of `keys` whose listing is `Active` for
      `commitmentId`. */
  predicate FirstActiveAt(keys: seq<string>, listings: map<string, Listing>, commitmentId: string, j: int) {
    && 0 <= j < |keys| && keys[j] in listings && IsActiveFor(listings[keys[j]], commitmentId)
    && forall i :: 0 <= i < j ==> !(keys[i] in listings && IsActiveFor(listings[keys[i]], commitmentId))
  }

  /** `find` over the listings in insertion order: the first key of `keys` whose
      listing is `Active` for `commitmentId`. */
  function FindActiveIn(keys: seq<string>, listings: map<string, Listing>, commitmentId: string): (r: Option<string>)
    ensures r.Some? ==> r.value in keys && r.value in listings
                        && IsActiveFor(listings[r.value], commitmentId)
    ensures r.Some? ==> exists j :: FirstActiveAt(keys, listings, commitmentId, j) && keys[j] == r.value
    ensures r.None? ==> forall k :: k in keys && k in listings ==> !IsActiveFor(listings[k], commitmentId)
  {
    if keys == [] then None
    else if keys[0] in listings && IsActiveFor(listings[keys[0]], commitmentId) then
      assert FirstActiveAt(keys, listings, commitmentId, 0);
      Some(keys[0])
    else
      var r := FindActiveIn(keys[1..], listings, commitmentId);
      assert r.Some? ==> exists j :: FirstActiveAt(keys, listings, commitmentId, j) && keys[j] == r.value by {
        if r.Some? {
          var j :| FirstActiveAt(keys[1..], listings, commitmentId, j) && keys[1..][j] == r.value;
          assert forall i :: 1 <= i < j + 1 ==> keys[i] == keys[1..][i - 1];
          assert FirstActiveAt(keys, listings, commitmentId, j + 1);
        }
      }
      r
  }

  function FindActive(s: Service, commitmentId: string): Option<string> {
    FindActiveIn(s.order, s.listings, commitmentId)
  }

  // ------------------------------------------------------------ operations

  /** The three clock reads `createListing` makes, in order: `Date.now()` for the
      id, then `new Date().toISOString()` once for `createdAt` and once more for
      `updatedAt`. */
  datatype CreateClock = CreateClock(idMs: nat, createdIso: string, updatedIso: string)

  /** `createListing`. Validation comes first and reports every failing field; then
      a commitment that already has an `Active` listing is refused; only then is the
      counter advanced and the new listing stored. A failure leaves the state as it
      was. */
  function CreateListing(s: Service, req: ListingRequest, parseFloat: string -> JsNumber,
                         clock: CreateClock): (o: Outcome<Listing>)
    ensures o.result.Err? ==> o.service == s
    ensures !WellFormed(req, parseFloat) ==>
              o.result == Err(ValidationError("Invalid listing request",
                                              FieldErrors(ValidationErrors(req, parseFloat))))
    ensures WellFormed(req, parseFloat) ==> !(o.result.Err? && o.result.error.ValidationError?)
    ensures WellFormed(req, parseFloat) && FindActive(s, req.commitmentId.s).Some? ==>
              o.result == Err(ConflictError("Commitment is already listed on the marketplace.",
                DuplicateListing(req.commitmentId.s, FindActive(s, req.commitmentId.s).value)))
    ensures o.result.Ok? <==> WellFormed(req, parseFloat) && FindActive(s, req.commitmentId.s).None?
    ensures o.result.Ok? ==>
              var l := o.result.value;
              && l.id == ListingId(s.counter + 1, clock.idMs)
              && l.commitmentId == req.commitmentId.s
              && l.price == req.price.s
              && l.currencyAsset == req.currencyAsset.s
              && l.sellerAddress == req.sellerAddress.s
              && l.status == Active
              && l.createdAt == clock.createdIso && l.updatedAt == clock.updatedIso
              && o.service == Service(s.listings[l.id := l], s.order + [l.id], s.counter + 1)
  {
    var errors := ValidationErrors(req, parseFloat);
    if |errors| > 0 then
      Outcome(s, Err(ValidationError("Invalid listing request", FieldErrors(errors))))
    else
      var existing := FindActive(s, req.commitmentId.s);
      if existing.Some? then
        Outcome(s, Err(ConflictError("Commitment is already listed on the marketplace.",
                                     DuplicateListing(req.commitmentId.s, existing.value))))
      else
        var counter := s.counter + 1;
        var id := ListingId(counter, clock.idMs);
        var listing := Listing(id, req.commitmentId.s, req.price.s, req.currencyAsset.s,
                               req.sellerAddress.s, Active, clock.createdIso, clock.updatedIso);
        Outcome(Service(s.listings[id := listing], s.order + [id], counter), Ok(listing))
  }

  /** `cancelListing`. Three checks in fixed order (unknown id, then a seller that is
      not exactly the stored one, then a listing that is not `Active`); the only
      transition is `Active` to `Cancelled`, which also refreshes `updatedAt`. */
  function CancelListing(s: Service, listingId: string, sellerAddress: string, nowIso: string): (o: Outcome<()>)
    ensures o.result.Err? ==> o.service == s
    ensures listingId !in s.listings ==>
              o.result == Err(NotFoundError("Listing", UnknownListing(listingId)))
    ensures listingId in s.listings && s.listings[listingId].sellerAddress != sellerAddress ==>
              o.result == Err(ValidationError("Only the seller can cancel this listing.",
                SellerMismatch(listingId, s.listings[listingId].sellerAddress, sellerAddress)))
    ensures listingId in s.listings && s.listings[listingId].sellerAddress == sellerAddress
            && s.listings[listingId].status != Active ==>
              o.result == Err(ConflictError("Only active listings can be cancelled.",
                NotCancellable(listingId, StatusName(s.listings[listingId].status))))
    ensures o.result.Ok? <==>
              listingId in s.listings && s.listings[listingId].sellerAddress == sellerAddress
              && s.listings[listingId].status == Active
    ensures o.result.Ok? ==>
              && o.service.order == s.order && o.service.counter == s.counter
              && o.service.listings.Keys == s.listings.Keys
              && o.service.listings[listingId]
                   == s.listings[listingId].(status := Cancelled, updatedAt := nowIso)
              && forall k :: k in s.listings && k != listingId ==> o.service.listings[k] == s.listings[k]
  {
    if listingId !in s.listings then
      Outcome(s, Err(NotFoundError("Listing", UnknownListing(listingId))))
    else
      var listing := s.listings[listingId];
      if listing.sellerAddress != sellerAddress then
        Outcome(s, Err(ValidationError("Only the seller can cancel this listing.",
                                       SellerMismatch(listingId, listing.sellerAddress, sellerAddress))))
      else if listing.status != Active then
        Outcome(s, Err(ConflictError("Only active listings can be cancelled.",
                                     NotCancellable(listingId, StatusName(listing.status)))))
      else
        var cancelled := listing.(status := Cancelled, updatedAt := nowIso);
        Outcome(s.(listings := s.listings[listingId := cancelled]), Ok(()))
  }

  /** `getListing`: the stored listing, or `None` (the source's `null`) for an
      unknown id; it never fails. */
  function GetListing(s: Service, listingId: string): (r: Option<Listing>)
    ensures r.Some? <==> listingId in s.listings
    ensures r.Some? ==> r.value == s.listings[listingId]
  {
    if listingId in s.listings then Some(s.listings[listingId]) else None
  }

  // ------------------------------------------------------------ invariant

  /** At most one `Active` listing per commitment. */
  ghost predicate AtMostOneActive(listings: map<string, Listing>) {
    forall k1, k2 ::
      (&& k1 in listings && k2 in listings
       && listings[k1].status == Active && listings[k2].status == Active
       && listings[k1].commitmentId == listings[k2].commitmentId) ==> k1 == k2
  }

  predicate NoDuplicates(keys: seq<string>) {
    forall i, j :: 0 <= i < j < |keys| ==> keys[i] != keys[j]
  }

  /** A key was generated by one of the first `counter` successful creates. */
  predicate IssuedUpTo(id: string, counter: nat) {
    ListingCounter(id).Some? && 1 <= ListingCounter(id).value <= counter
  }

  ghost predicate Valid(s: Service) {
    && AtMostOneActive(s.listings)
    && KeyedById(s.listings)
    && AllIssued(s.listings.Keys, s.counter)
    && OrderListsKeys(s.listings.Keys, s.order)
    && NoDuplicates(s.order)
    && AllFilledIn(s.listings)
  }

  /** Every listing is stored under its own id. */
  ghost predicate KeyedById(listings: map<string, Listing>) {
    forall k :: k in listings ==> listings[k].id == k
  }

  /** Every key was generated by one of the first `counter` successful creates. */
  ghost predicate AllIssued(keys: set<string>, counter: nat) {
    forall k :: k in keys ==> IssuedUpTo(k, counter)
  }

  /** `order` holds exactly the keys. */
  ghost predicate OrderListsKeys(keys: set<string>, order: seq<string>) {
    forall k :: k in keys <==> k in order
  }

  /** The four strings validation demanded are non-empty in every stored listing. */
  ghost predicate AllFilledIn(listings: map<string, Listing>) {
    forall k :: k in listings ==>
      && listings[k].commitmentId != "" && listings[k].price != ""
      && listings[k].currencyAsset != "" && listings[k].sellerAddress != ""
  }

  lemma InitialValid()
    ensures Valid(Initial)
  {
  }

  /** A fresh id is never one already stored: stored ids carry counters at most
      `s.counter`, the new one carries `s.counter + 1`. */
  lemma {:induction false} FreshIdNotStored(s: Service, nowMs: nat)
    requires Valid(s)
    ensures ListingId(s.counter + 1, nowMs) !in s.listings
    ensures ListingId(s.counter + 1, nowMs) !in s.order
  {
    ListingCounterOfId(s.counter + 1, nowMs);
  }

  /** Storing a new `Active` listing keeps at most one per commitment when no other
      listing is `Active` for its commitment. */
  lemma InsertKeepsOneActive(listings: map<string, Listing>, l: Listing)
    requires AtMostOneActive(listings)
    requires forall k :: k in listings ==> !IsActiveFor(listings[k], l.commitmentId)
    ensures AtMostOneActive(listings[l.id := l])
  {
  }

  lemma AppendKeepsNoDuplicates(keys: seq<string>, id: string)
    requires NoDuplicates(keys) && id !in keys
    ensures NoDuplicates(keys + [id])
  {
  }

  /** Storing a new, fully filled-in listing under a fresh id carrying the next
      counter keeps the invariant, provided its commitment has no `Active` listing. */
  lemma InsertPreservesValid(s: Service, l: Listing)
    requires Valid(s)
    requires l.id !in s.listings && IssuedUpTo(l.id, s.counter + 1)
    requires forall k :: k in s.listings ==> !IsActiveFor(s.listings[k], l.commitmentId)
    requires l.commitmentId != "" && l.price != "" && l.currencyAsset != "" && l.sellerAddress != ""
    ensures Valid(Service(s.listings[l.id := l], s.order + [l.id], s.counter + 1))
  {
    var s' := Service(s.listings[l.id := l], s.order + [l.id], s.counter + 1);
    InsertKeepsOneActive(s.listings, l);
    AppendKeepsNoDuplicates(s.order, l.id);
    assert forall k :: k in s'.listings <==> k in s'.order;
    assert forall k :: k in s'.listings ==> IssuedUpTo(k, s'.counter);
  }

  lemma {:induction false} CreatePreservesValid(s: Service, req: ListingRequest,
                                                parseFloat: string -> JsNumber, clock: CreateClock)
    requires Valid(s)
    ensures Valid(CreateListing(s, req, parseFloat, clock).service)
  {
    var o := CreateListing(s, req, parseFloat, clock);
    if o.result.Ok? {
      var l := o.result.value;
      FreshIdNotStored(s, clock.idMs);
      ListingCounterOfId(s.counter + 1, clock.idMs);
      assert FindActive(s, req.commitmentId.s).None?;
      assert forall k :: k in s.listings ==> !IsActiveFor(s.listings[k], l.commitmentId) by {
        forall k | k in s.listings ensures !IsActiveFor(s.listings[k], l.commitmentId) {
          assert k in s.order;
        }
      }
      InsertPreservesValid(s, l);
    }
  }

  /** Replacing a listing by one that is not `Active` keeps at most one `Active`
      listing per commitment. */
  lemma DeactivateKeepsOneActive(listings: map<string, Listing>, k: string, l: Listing)
    requires AtMostOneActive(listings) && l.status != Active
    ensures AtMostOneActive(listings[k := l])
  {
    var m := listings[k := l];
    forall k1, k2 | && k1 in m && k2 in m && m[k1].status == Active && m[k2].status == Active
                    && m[k1].commitmentId == m[k2].commitmentId
      ensures k1 == k2
    {
      assert k1 != k && k2 != k;
      assert m[k1] == listings[k1] && m[k2] == listings[k2];
    }
  }

  /** Marking a stored listing `Cancelled` keeps the invariant. */
  lemma CancelledPreservesValid(s: Service, listingId: string, nowIso: string)
    requires Valid(s) && listingId in s.listings
    ensures Valid(s.(listings := s.listings[listingId :=
                       s.listings[listingId].(status := Cancelled, updatedAt := nowIso)]))
  {
    var l := s.listings[listingId].(status := Cancelled, updatedAt := nowIso);
    var m := s.listings[listingId := l];
    DeactivateKeepsOneActive(s.listings, listingId, l);
    assert m.Keys == s.listings.Keys;
    assert forall k :: k in m ==> m[k].id == k && m[k].commitmentId == s.listings[k].commitmentId
                                  && m[k].price == s.listings[k].price
                                  && m[k].currencyAsset == s.listings[k].currencyAsset
                                  && m[k].sellerAddress == s.listings[k].sellerAddress;
  }

  lemma {:induction false} CancelPreservesValid(s: Service, listingId: string, sellerAddress: string, nowIso: string)
    requires Valid(s)
    ensures Valid(CancelListing(s, listingId, sellerAddress, nowIso).service)
  {
    if CancelListing(s, listingId, sellerAddress, nowIso).result.Ok? {
      CancelledPreservesValid(s, listingId, nowIso);
    }
  }

  /** Any operation sequence a client can issue against the service. */
  datatype Command =
    | Create(req: ListingRequest, clock: CreateClock)
    | Cancel(listingId: string, sellerAddress: string, nowIso: string)
    | Get(listingId: string)

  function Apply(s: Service, c: Command, parseFloat: string -> JsNumber): Service {
    match c
    case Create(req, clock) => CreateListing(s, req, parseFloat, clock).service
    case Cancel(id, seller, nowIso) => CancelListing(s, id, seller, nowIso).service
    case Get(_) => s
  }

  function Run(s: Service, cs: seq<Command>, parseFloat: string -> JsNumber): Service
    decreases |cs|
  {
    if cs == [] then s else Run(Apply(s, cs[0], parseFloat), cs[1..], parseFloat)
  }

  /** What one step leaves alone: no listing disappears, the counter does not go
      down, and a listing that is no longer `Active` is untouched. */
  ghost predicate Frame(s: Service, s': Service) {
    && s.listings.Keys <= s'.listings.Keys
    && s.counter <= s'.counter
    && forall k :: k in s.listings && s.listings[k].status != Active ==> s'.listings[k] == s.listings[k]
  }

  lemma CreateFrame(s: Service, req: ListingRequest, parseFloat: string -> JsNumber, clock: CreateClock)
    requires Valid(s)
    ensures Frame(s, CreateListing(s, req, parseFloat, clock).service)
  {
    FreshIdNotStored(s, clock.idMs);
  }

  lemma CancelFrame(s: Service, listingId: string, sellerAddress: string, nowIso: string)
    ensures Frame(s, CancelListing(s, listingId, sellerAddress, nowIso).service)
  {
  }

  /** One step keeps the invariant, never removes a listing, never lowers the counter,
      and never touches a listing that is no longer `Active`. */
  lemma {:induction false} ApplyStep(s: Service, c: Command, parseFloat: string -> JsNumber)
    requires Valid(s)
    ensures var s' := Apply(s, c, parseFloat);
            && Valid(s')
            && s.listings.Keys <= s'.listings.Keys
            && s.counter <= s'.counter
            && forall k :: k in s.listings && s.listings[k].status != Active ==> s'.listings[k] == s.listings[k]
  {
    match c
    case Create(req, clock) =>
      CreatePreservesValid(s, req, parseFloat, clock);
      CreateFrame(s, req, parseFloat, clock);
    case Cancel(id, seller, nowIso) =>
      CancelPreservesValid(s, id, seller, nowIso);
      CancelFrame(s, id, seller, nowIso);
    case Get(_) =>
  }

  /** Every reachable state satisfies the invariant; listings are never removed, and
      a `Cancelled` or `Sold` listing stays exactly as it is. */
  lemma {:induction false} RunPreservesValid(s: Service, cs: seq<Command>, parseFloat: string -> JsNumber)
    requires Valid(s)
    ensures var s' := Run(s, cs, parseFloat);
            && Valid(s')
            && s.listings.Keys <= s'.listings.Keys
            && s.counter <= s'.counter
            && forall k :: k in s.listings && s.listings[k].status != Active ==> s'.listings[k] == s.listings[k]
    decreases |cs|
  {
    if cs != [] {
      ApplyStep(s, cs[0], parseFloat);
      RunPreservesValid(Apply(s, cs[0], parseFloat), cs[1..], parseFloat);
    }
  }

  // ------------------------------------------------------------ scenarios

  /** Listing the same commitment twice in a row: the second create is a conflict
      that names the first listing, and changes nothing. */
  lemma DuplicateIsConflict(s: Service, req: ListingRequest, parseFloat: string -> JsNumber,
                            c1: CreateClock, c2: CreateClock)
    requires Valid(s)
    requires CreateListing(s, req, parseFloat, c1).result.Ok?
    ensures var o1 := CreateListing(s, req, parseFloat, c1);
            var o2 := CreateListing(o1.service, req, parseFloat, c2);
            && o2.service == o1.service
            && o2.result == Err(ConflictError("Commitment is already listed on the marketplace.",
                                              DuplicateListing(req.commitmentId.s, o1.result.value.id)))
  {
    var o1 := CreateListing(s, req, parseFloat, c1);
    var l := o1.result.value;
    CreatePreservesValid(s, req, parseFloat, c1);
    var found := FindActive(o1.service, req.commitmentId.s);
    assert l.id in o1.service.order;
    assert found.Some?;
    assert found.value == l.id;
  }

  /** Once its listing is cancelled by the seller, the same commitment can be
      listed again. */
  lemma RelistAfterCancel(s: Service, req: ListingRequest, parseFloat: string -> JsNumber,
                          c1: CreateClock, iso2: string, c3: CreateClock)
    requires Valid(s)
    requires CreateListing(s, req, parseFloat, c1).result.Ok?
    ensures var o1 := CreateListing(s, req, parseFloat, c1);
            var l := o1.result.value;
            var o2 := CancelListing(o1.service, l.id, l.sellerAddress, iso2);
            && o2.result.Ok?
            && GetListing(o2.service, l.id) == Some(l.(status := Cancelled, updatedAt := iso2))
            && CreateListing(o2.service, req, parseFloat, c3).result.Ok?
  {
    var o1 := CreateListing(s, req, parseFloat, c1);
    var l := o1.result.value;
    CreatePreservesValid(s, req, parseFloat, c1);
    var o2 := CancelListing(o1.service, l.id, l.sellerAddress, iso2);
    var cid := req.commitmentId.s;
    forall k | k in o2.service.order && k in o2.service.listings
      ensures !IsActiveFor(o2.service.listings[k], cid)
    {
      if k != l.id {
        assert IsActiveFor(o1.service.listings[k], cid) ==> k == l.id;
      }
    }
  }

  /** The cancel guards as a client meets them: an unknown id is not found, a
      cancel by anyone but the stored seller fails validation, and both change
      nothing; the seller's cancel of an `Active` listing leaves it `Cancelled`, and a
      second cancel is a conflict that reports the status `Cancelled`. */
  lemma CancelGuards(s: Service, listingId: string, seller: string, iso: string, iso': string)
    ensures listingId !in s.listings ==>
              var o := CancelListing(s, listingId, seller, iso);
              o.result.Err? && o.result.error.NotFoundError? && o.service == s
    ensures listingId in s.listings && seller != s.listings[listingId].sellerAddress ==>
              var o := CancelListing(s, listingId, seller, iso);
              o.result.Err? && o.result.error.ValidationError? && o.service == s
    ensures listingId in s.listings && s.listings[listingId].status == Active ==>
              var owner := s.listings[listingId].sellerAddress;
              var o := CancelListing(s, listingId, owner, iso);
              var o' := CancelListing(o.service, listingId, owner, iso');
              && o.result.Ok?
              && GetListing(o.service, listingId).value.status == Cancelled
              && o'.result == Err(ConflictError("Only active listings can be cancelled.",
                                                NotCancellable(listingId, "Cancelled")))
              && o'.service == o.service
  {
  }
}
