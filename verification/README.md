# Commitlabs backend core, modelled in Dafny

This project models the server-side core of the Commitlabs front end and a few of
its client helpers:

- the in-memory marketplace listing service, with create, cancel and get;
- the request validators and `handleValidationError`;
- the chain-to-DTO normalisers;
- the mock chain calls in `contracts.ts`;
- the contracts and backend configuration in `config.ts`;
- the error-response helpers and the `withApiHandler` wrapper under `src/utils`;
- the routes `POST /api/marketplace/listings`, `GET`/`POST /api/marketplace` and
  `GET`/`POST /api/attestations`;
- the display helpers of the marketplace card;
- the step machine and form checks of the create-commitment wizard.

Everything is a pure function over immutable datatypes. The listing service is an
explicit state record: a map of listings, their insertion order, and the id counter.
That state is threaded through every operation. Its invariant is proved to hold
after every operation and every sequence of operations. The invariant says:

- at most one Active listing per commitment;
- keys are unique and match the stored ids;
- every id was issued by the counter.

Untyped JavaScript values are the datatype `JsValues.JsValue`, with integer numbers
and `NaN`. Calls the model cannot see are parameters: `parseFloat`/`parseInt`/
`Number`, `JSON.parse`, `StrKey.isValidEd25519PublicKey`, and the clock
(`Date.now()` as `nowMs`, `toISOString()` as `nowIso`). Where one operation reads
the clock more than once, each read is a parameter of its own. The process environment is
a map from variable names to values. `Math.random()` is a sequence of draws.

Modules, one per file: `Wrappers`, `JsValues`, `JsStrings`, `ServiceErrors`,
`Marketplace`, `Dto`, `Validation`, `Http`, `ErrorHelpers`, `ApiHandler`, `Config`,
`ChainStubs`, `ListingsRoute`, `MarketplaceRoute`, `AttestationsRoute`,
`MarketplaceCard`, `CreateWizard`.

The listing route's own error wrapper (`src/lib/backend/withApiHandler.ts`),
`errors.ts` and `apiResponse.ts` are not part of this model. The status and
`error.code` for each error kind come from the route tests: 400 `VALIDATION_ERROR`,
404 `NOT_FOUND`, 409 `CONFLICT`.

## Model

| member | source | states |
|---|---|---|
| JsValues.MissingOrNotString | src/lib/backend/services/marketplace.ts:129-151 | `!v \|\| typeof v !== 'string'` holds exactly when the value is not a non-empty string (`IsNonEmptyString`, the one predicate every required-field check uses) |
| JsValues.Property | src/app/api/marketplace/route.ts:48 | destructuring a property throws a TypeError exactly for `null`/`undefined`; an object yields the stored value or `undefined`; any other value yields `undefined` |
| JsValues.Field | src/app/api/marketplace/listings/route.ts:35 | reading a property of an object or array never throws, and agrees with `Property` |
| JsStrings.Trim | src/lib/backend/dto.ts:52 | `trim()` returns a contiguous slice, everything cut off on both sides is ECMAScript whitespace, and the result neither starts nor ends with whitespace |
| JsStrings.TrimIdempotent | src/components/MarketplaceCard.tsx:33 | trimming twice equals trimming once |
| JsStrings.TrimUntrimmed | src/lib/backend/dto.ts:52 | a string that neither starts nor ends with whitespace is its own trim |
| JsStrings.TrimEnds | src/lib/backend/dto.ts:52 | a trimmed string is empty or neither starts nor ends with whitespace |
| JsStrings.ToLowerIdempotent | src/lib/backend/dto.ts:52 | lower-casing leaves no upper-case ASCII letter and is idempotent |
| JsStrings.ToUpperIdempotent | src/lib/backend/contracts.ts:22 | upper-casing leaves no lower-case ASCII letter and is idempotent |
| JsStrings.PadStart | src/components/MarketplaceCard.tsx:143 | `padStart` leaves a string of at least `width` unchanged; otherwise it reaches exactly `width`, and the result is fill characters followed by the original |
| JsStrings.NatToDecimal | src/lib/backend/services/marketplace.ts:45 | `String(n)` of a natural is a non-empty digit string with no leading zero |
| JsStrings.DecimalRoundTrip | src/lib/backend/services/marketplace.ts:45 | reading back the decimal form of `n` gives `n` |
| JsStrings.IntDecimalRoundTrip | src/utils/errorHelpers.ts:106 | parsing the plain decimal of an integer gives back the integer; this is `String(i)` for integers of magnitude at most 2^53, which JavaScript holds exactly and writes without an exponent |
| JsStrings.LeadingDigitsOf | src/lib/backend/services/marketplace.ts:45 | the digit run at the front of `digits + rest` is `digits`, when `rest` does not start with a digit |
| ServiceErrors.HttpStatus | src/app/api/marketplace/listings/route.test.ts:55-147 | validation, not-found and conflict errors are answered with 400, 404 and 409, each status identifying its kind |
| ServiceErrors.ErrorCode | src/app/api/marketplace/listings/route.test.ts:55-147 | a validation error's code is `VALIDATION_ERROR` and a conflict's `CONFLICT` (a missing resource's `NOT_FOUND`), and each code identifies its kind |
| Marketplace.RequestOf | src/app/api/marketplace/listings/route.ts:35-38 | the service reads the four request fields straight from the forwarded body |
| Marketplace.ListingCounterOfId | src/lib/backend/services/marketplace.ts:44-45 | the counter can be read back from a generated id `listing_<counter>_<time>` |
| Marketplace.ListingIdInjective | src/lib/backend/services/marketplace.ts:44-45 | ids with different counters differ, whatever the clock says |
| Marketplace.FailingFrom | src/lib/backend/services/marketplace.ts:126-154 | the checks from a given one onwards that fail: a check is listed exactly when it fails and comes no earlier, and the list is in check order |
| Marketplace.FailedChecks | src/lib/backend/services/marketplace.ts:126-154 | the failing checks, each listed exactly when it fails, in the order they are made; none fails exactly when the request is well formed |
| Marketplace.MessageInjective | src/lib/backend/services/marketplace.ts:129-149 | the five messages are pairwise different |
| Marketplace.ValidationErrors | src/lib/backend/services/marketplace.ts:126-154 | one message per failing check, in check order; each field's message is present exactly when its check fails; the price-positive check fails only for a non-empty string price; the list is empty exactly when the request is well formed |
| Marketplace.FindActiveIn | src/lib/backend/services/marketplace.ts:31-34 | the search returns the first listing in insertion order that is Active for the commitment, and `None` exactly when there is none |
| Marketplace.CreateListing | src/lib/backend/services/marketplace.ts:24-73 | validation runs first and fails with the field messages; then a duplicate Active listing fails with a conflict naming it; any failure leaves the state unchanged; success holds exactly when the request is well formed and no Active listing exists; success stores one new Active listing under `listing_<counter+1>_<time>` with the request's fields, `createdAt` and `updatedAt` from their own clock reads, appends it to the order and bumps the counter |
| Marketplace.CancelListing | src/lib/backend/services/marketplace.ts:78-114 | an unknown id fails with not-found, a different seller with a validation error, a non-Active listing with a conflict carrying its status, in that order; failures change nothing; success changes only that listing's status to Cancelled and its `updatedAt` |
| Marketplace.GetListing | src/lib/backend/services/marketplace.ts:119-121 | returns the stored listing, or `None` exactly when the id is unknown |
| Marketplace.InitialValid | src/lib/backend/services/marketplace.ts:18-19 | the freshly constructed service satisfies the invariant |
| Marketplace.FreshIdNotStored | src/lib/backend/services/marketplace.ts:44-45 | under the invariant, the next generated id is not a stored key |
| Marketplace.CreatePreservesValid | src/lib/backend/services/marketplace.ts:31-60 | create keeps the invariant, including at most one Active listing per commitment |
| Marketplace.InsertPreservesValid | src/lib/backend/services/marketplace.ts:44-60 | storing a new filled-in listing under a fresh id with the next counter keeps the invariant when its commitment has no Active listing |
| Marketplace.DeactivateKeepsOneActive | src/lib/backend/services/marketplace.ts:106-108 | replacing a listing by a non-Active one keeps at most one Active listing per commitment |
| Marketplace.CancelledPreservesValid | src/lib/backend/services/marketplace.ts:106-108 | marking a stored listing Cancelled keeps the invariant |
| Marketplace.CancelPreservesValid | src/lib/backend/services/marketplace.ts:106-108 | cancel keeps the invariant |
| Marketplace.CreateFrame | src/lib/backend/services/marketplace.ts:24-60 | create only adds a key, never lowers the counter, and leaves every non-Active listing as it was |
| Marketplace.CancelFrame | src/lib/backend/services/marketplace.ts:78-114 | cancel removes no key, keeps the counter, and leaves every non-Active listing as it was |
| Marketplace.ApplyStep | src/lib/backend/services/marketplace.ts:24-121 | one operation keeps the invariant, never removes a key, never lowers the counter, and never changes a non-Active listing |
| Marketplace.RunPreservesValid | src/lib/backend/services/marketplace.ts:18-121 | any sequence of operations from a valid state keeps the invariant, only adds keys, never lowers the counter, and leaves non-Active listings as they were |
| Marketplace.DuplicateIsConflict | src/lib/backend/services/marketplace.test.ts:122-138 | creating the same listing twice fails the second time with a conflict naming the first listing's id, and changes nothing |
| Marketplace.RelistAfterCancel | src/lib/backend/services/marketplace.ts:31-41 | once the Active listing of a commitment is cancelled, the commitment can be listed again |
| Marketplace.CancelGuards | src/lib/backend/services/marketplace.test.ts:160-199 | cancelling an unknown id gives not-found and the wrong seller a validation error, both changing nothing; the seller's cancel leaves the listing `Cancelled`, and cancelling again is a conflict reporting the status `Cancelled` |
| Dto.ToCommitmentType | src/lib/backend/dto.ts:51-57 | the normalised value selects `safe` or `aggressive` exactly when it spells them; every other value, `balanced` included, gives `balanced` |
| Dto.ToCommitmentStatus | src/lib/backend/dto.ts:59-68 | `settled`/`violated` exactly when spelled; the three spellings of early exit map to `early_exit`; anything else, or no value, is `active` |
| Dto.ToAttestationVerdict | src/lib/backend/dto.ts:70-76 | `pass`/`fail` exactly when spelled, otherwise `unknown` |
| Dto.NamesRecognised | src/lib/backend/dto.ts:51-76 | the comparisons on the normalised text map each type, status and verdict name back to its own value |
| Dto.CommitmentTypeIdempotent | src/lib/backend/dto.ts:51-57 | normalising the name of a type gives that type back |
| Dto.CommitmentStatusIdempotent | src/lib/backend/dto.ts:59-68 | normalising the name of a status gives that status back |
| Dto.AttestationVerdictIdempotent | src/lib/backend/dto.ts:70-76 | normalising the name of a verdict gives that verdict back |
| Dto.NameNormalizesToItself | src/lib/backend/dto.ts:52 | a lower-case name is unchanged by trim and lower-case |
| Dto.ScalarString | src/lib/backend/dto.ts:92 | `String(x)` keeps a string and gives, for an integer of magnitude at most 2^53, a decimal that parses back to the number |
| Dto.MapCommitmentFromChain | src/lib/backend/dto.ts:89-103 | the asset defaults to XLM; the issuer is `null` for XLM and otherwise the model's issuer or `null`; the NFT id is `null` exactly when absent; ids and amounts are stringified and enums normalised |
| Dto.MapCommitmentRoundTrip | src/lib/backend/dto.ts:89-103 | mapping the chain image of any consistent DTO gives the DTO back |
| Dto.MapAttestationFromChain | src/lib/backend/dto.ts:105-115 | `details` is present exactly when the model's is not `undefined`, and then equal to it; ids are stringified and the verdict normalised |
| Dto.MapAttestationRoundTrip | src/lib/backend/dto.ts:105-115 | mapping the chain image of any attestation DTO whose `details` is not `undefined` gives the DTO back |
| Validation.ValidateAddress | src/lib/backend/validation.ts:23-31 | a missing or non-string address fails first, a string the key check rejects fails second, and success returns the address unchanged |
| Validation.ValidateAmount | src/lib/backend/validation.ts:34-47 | a non-string non-number fails with the type message; NaN or a non-positive value fails with the positivity message; success returns the positive value |
| Validation.ValidatePagination | src/lib/backend/validation.ts:50-81 | absent parameters default to page 1 and limit 10; a non-string non-number, `null` included, is refused; the page is checked before the limit; success gives page ≥ 1 and 1 ≤ limit ≤ 100 |
| Validation.ValidateFilters | src/lib/backend/validation.ts:84-95 | succeeds exactly when every value is a scalar, `null` or `undefined`; then it keeps exactly the scalar entries in order; otherwise the error names the first offending key |
| Validation.HandleValidationError | src/lib/backend/validation.ts:98-103 | a validation error becomes a 400 answer with its message and field; anything else is rethrown unchanged |
| Http.SearchParam | src/app/api/marketplace/route.ts:8-12 | `searchParams.get` yields the parameter's text, or `null` when it is absent |
| Http.OptionalParam | src/lib/backend/validation.ts:50 | an absent parameter reaches the validator as `undefined` |
| Http.Caught | src/app/api/attestations/route.ts:36-38 | the catch block answers 400 for validation errors and rethrows the rest |
| MarketplaceRoute.ListingsFor | src/app/api/marketplace/route.ts:15-35 | pagination is validated first; the filters never fail; the price filters are checked only when truthy; success answers 200 with the mock listings, the pagination and the kept filters |
| MarketplaceRoute.Get | src/app/api/marketplace/route.ts:5-43 | without a `page` parameter the answer is always 400 "Page must be a number"; with a page but no limit it is 400 "Limit must be a number"; every kept filter is a query parameter's value |
| MarketplaceRoute.GetCorrected | src/app/api/marketplace/route.ts:5-43 | with absent parameters passed as `undefined`, a bare request answers 200 with page 1, limit 10 and only the category filter |
| MarketplaceRoute.CategoryOnly | src/app/api/marketplace/route.ts:17-26 | with no price filters only the category filter is kept, and the price checks pass |
| MarketplaceRoute.KeptFiltersFromQuery | src/app/api/marketplace/route.ts:10-18 | each kept filter is a parameter of the query, carrying that parameter's value |
| MarketplaceRoute.Post | src/app/api/marketplace/route.ts:45-78 | text that is not JSON and a `null` body are rethrown; then title, category, price and seller address are checked in that order, each with its own 400 answer; success answers 201 with the validated price and address, the description defaulted to `''`, and the id and time from the clock |
| AttestationsRoute.AttestationsFor | src/app/api/attestations/route.ts:14-35 | pagination is validated first; a truthy attester filter must be a valid address; success answers 200 with the mock attestations, the pagination and the kept filters |
| AttestationsRoute.Get | src/app/api/attestations/route.ts:5-39 | without a `page` parameter the answer is always 400 "Page must be a number"; a successful answer names only valid attesters |
| AttestationsRoute.GetCorrected | src/app/api/attestations/route.ts:5-39 | with absent parameters passed as `undefined`, a bare request answers 200 with page 1, limit 10 and only the commitment filter |
| AttestationsRoute.KeptAttestationFilters | src/app/api/attestations/route.ts:16-22 | exactly the string parameters are kept as filters, commitment first, and the attester read back is the attester parameter or `undefined` |
| AttestationsRoute.Post | src/app/api/attestations/route.ts:41-70 | commitment id, rating in 1..5, and attester address are checked in that order, each with its own 400 answer; NaN passes the rating check; success answers 201 echoing the fields, the comment defaulted to `''` |
| ListingsRoute.ParseBody | src/app/api/marketplace/listings/route.ts:22-33 | text that is not JSON fails with "Invalid JSON in request body"; a parsed body passes exactly when it is an object or array, unchanged; otherwise it fails with "Request body must be an object" |
| ListingsRoute.Post | src/app/api/marketplace/listings/route.ts:21-45 | a body failure answers 400 `VALIDATION_ERROR` and leaves the state; otherwise the service's outcome decides: 201 with the stored listing, or the error kind's status and code with the state unchanged |
| ListingsRoute.PostPreservesValid | src/app/api/marketplace/listings/route.ts:38 | the route keeps the service's invariant |
| ListingsRoute.PostTwiceConflicts | src/app/api/marketplace/listings/route.test.ts:124-147 | posting the same listing twice answers 201 and then 409 `CONFLICT`, and the second post changes nothing |
| ErrorHelpers.ShownDetails | src/utils/errorHelpers.ts:24 | details are shown exactly when they are non-empty and the environment is development |
| ErrorHelpers.RateLimitError | src/utils/errorHelpers.ts:17-28 | code 429, type `RATE_LIMIT_EXCEEDED`, retry hint defaulting to 60 |
| ErrorHelpers.InternalServerError | src/utils/errorHelpers.ts:31-41 | code 500, type `INTERNAL_SERVER_ERROR`, no retry hint |
| ErrorHelpers.BadGatewayError | src/utils/errorHelpers.ts:44-54 | code 502, type `BAD_GATEWAY`, no retry hint |
| ErrorHelpers.ServiceUnavailableError | src/utils/errorHelpers.ts:57-68 | code 503, type `SERVICE_UNAVAILABLE`, retry hint defaulting to 30 |
| ErrorHelpers.GatewayTimeoutError | src/utils/errorHelpers.ts:71-81 | code 504, type `GATEWAY_TIMEOUT`, no retry hint |
| ErrorHelpers.ResolveServerError | src/utils/errorHelpers.ts:85-96 | 502, 503 and 504 get their own bodies; every other status gets the 500 body; a retry hint is present exactly for 503 |
| ErrorHelpers.GetErrorHeaders | src/utils/errorHelpers.ts:100-110 | `Content-Type: application/json` always; `Retry-After` exactly when the body has a hint, with a value that parses back to it (a plain decimal, as JavaScript writes a hint of magnitude at most 2^53); no other header |
| ErrorHelpers.RetryAfterHeader | src/utils/errorHelpers.ts:100-110 | a body with a retry hint gets a `Retry-After` header holding the hint's decimal form |
| ErrorHelpers.NoDetailsOutsideDevelopment | src/utils/errorHelpers.ts:24 | outside development no error body reveals details |
| ApiHandler.ThrownRateLimitReply | src/utils/withApiHandler.ts:16-57 | a thrown `RateLimitError` answers 429 with its hint in the body and in `Retry-After`; without an argument the header is `60` |
| ApiHandler.ThrownServerErrorReply | src/utils/withApiHandler.ts:26-76 | a thrown `ServerError` answers with its status, 500 when none is given; a bare one gets the 500 body, showing "Internal server error" in development |
| ApiHandler.WithApiHandler | src/utils/withApiHandler.ts:39-95 | a returned response passes through; a rate-limit error answers 429 with a `Retry-After` that parses back to its hint; a server error answers its own status with the resolved body; anything else answers 500 with the message or "Unknown error" as details; every error answer carries the helper's headers |
| ApiHandler.StatusAndBodyCode | src/utils/withApiHandler.ts:60-76 | the HTTP status and the body's code agree, except for a server error whose status is not 500, 502, 503 or 504 |
| ApiHandler.RetryHints | src/utils/withApiHandler.ts:47-76 | every rate-limit error sends `Retry-After` with the decimal of its hint; every 503 server error, whatever its message, sends `Retry-After: 30` |
| ApiHandler.MessagesHiddenOutsideDevelopment | src/utils/withApiHandler.ts:79-93 | outside development no error answer reveals the thrown message |
| Config.BuildFromLegacyEnv | src/lib/backend/config.ts:12-29 | no configuration unless some legacy variable is non-empty; then version `v1` holds exactly the keys whose variable is non-empty, with those addresses |
| Config.ParseJsonEnv | src/lib/backend/config.ts:31-43 | the JSON variable takes precedence over the plain one when non-empty; invalid JSON and non-objects fail with the prefixed message; an object is returned as parsed |
| Config.LoadContractsConfig | src/lib/backend/config.ts:45-65 | a cached value is returned as is; otherwise JSON, then legacy variables, then the empty configuration, and the result is cached; only a JSON failure fails, and it caches nothing |
| Config.LoadIsStable | src/lib/backend/config.ts:48 | once a load has succeeded, every later load returns the same configuration whatever the environment |
| Config.GetActiveContractVersion | src/lib/backend/config.ts:67-69 | the first non-empty of the two version variables, else `v1` |
| Config.CheckVersion | src/lib/backend/config.ts:75-96 | an unknown version fails listing the known ones; the version passes exactly when every entry has an address, keeping all keys |
| Config.GetActiveContracts | src/lib/backend/config.ts:75-96 | the load's failure or the version check's outcome, for the active version |
| Config.GetContractAddress | src/lib/backend/config.ts:98-102 | success implies a successful load and yields the non-empty address stored for the key in the active version; once the active version passes, a key fails exactly when it is absent, with the not-configured error naming the key and the active version |
| Config.LegacyAddresses | src/lib/backend/config.ts:47-102 | with nothing cached, no JSON variable and `v1` active: no legacy variable means `v1` is not found; otherwise each legacy key whose variable is set answers that variable's value, and every other key is not configured in `v1` |
| Config.FirstDefined | src/lib/backend/config.ts:114-133 | `a ?? b ?? fallback`: the first variable that is set at all, even if empty |
| Config.GetBackendConfig | src/lib/backend/config.ts:112-136 | each field is its two variables in order, then the default; chain writes are on exactly when the flag is `'true'` |
| Config.EmptyVariableShadowsFallback | src/lib/backend/config.ts:120-122 | an empty primary contract variable wins over a set public one |
| ChainStubs.BuildMockReference | src/lib/backend/contracts.ts:21-23 | `TODO_CHAIN_CALL_` followed by the action upper-cased, character by character |
| ChainStubs.CreateReference | src/lib/backend/contracts.ts:21-23 | the create stub's reference is the prefix followed by `CREATE_COMMITMENT` |
| ChainStubs.EarlyExitReference | src/lib/backend/contracts.ts:21-23 | the early-exit stub's reference is the prefix followed by `EARLY_EXIT` |
| ChainStubs.ReferenceOf | src/lib/backend/contracts.ts:21-23 | an action whose characters upper-case to `upper` gets the prefix followed by `upper` |
| ChainStubs.CreateCommitmentOnChain | src/lib/backend/contracts.ts:25-67 | fails exactly when chain writes are enabled and the core or NFT contract is empty; otherwise ids are `cm_`/`nft_` plus their own clock reads, the mock commitment carries the input (an absent issuer stays `undefined`), and the reference is the create reference |
| ChainStubs.CreatedCommitmentDto | src/lib/backend/contracts.ts:45-66 | the created commitment maps to an active DTO of the requested type, under the returned ids, keeping the input's amount, asset and duration |
| ChainStubs.CreatedIdsShareTime | src/lib/backend/contracts.ts:29-30 | the two ids carry the same time part exactly when the two clock reads agree |
| ChainStubs.CreateModesAgree | src/lib/backend/contracts.ts:45-66 | with both contracts configured the create stub succeeds, and its answer is the same whether chain writes are enabled or not |
| ChainStubs.EarlyExitCommitmentOnChain | src/lib/backend/contracts.ts:69-99 | a blank id fails first, then a status other than active, then a missing core contract when writes are enabled; otherwise the mock penalty, returned amount and reference |
| ChainStubs.EarlyExitModesAgree | src/lib/backend/contracts.ts:81-99 | with the core contract configured, the early-exit stub's answer is the same whether chain writes are enabled or not |
| MarketplaceCard.ClampScore | src/components/MarketplaceCard.tsx:21-24 | NaN shows as 0; the result is always in [0, 100]; in-range scores are unchanged, others go to the nearer bound |
| MarketplaceCard.ClampScoreIdempotentMonotone | src/components/MarketplaceCard.tsx:21-24 | clamping twice equals clamping once, and clamping preserves order |
| MarketplaceCard.ScoreTier | src/components/MarketplaceCard.tsx:26-30 | high exactly from 90, mid exactly on 80..89, low exactly below 80 |
| MarketplaceCard.ScoreTierMonotone | src/components/MarketplaceCard.tsx:119-120 | a higher score never gets a lower tier |
| MarketplaceCard.TruncateAddress | src/components/MarketplaceCard.tsx:32-36 | the trimmed address, empty for a missing one, is kept when at most 12 long; otherwise its first 6 and last 4 characters around `...`, 13 in all |
| MarketplaceCard.TruncateAddressIdempotent | src/components/MarketplaceCard.tsx:32-36 | a shortened address is unchanged when shortened again |
| MarketplaceCard.IdLabel | src/components/MarketplaceCard.tsx:143 | `#CMT-` then the id, zero-padded on the left to 3; an id of 3 or more is kept as is |
| MarketplaceCard.IdLabelInjective | src/components/MarketplaceCard.tsx:143 | two ids of the same length with the same label are equal |
| CreateWizard.HandleNext | src/app/create/page.tsx:90-94 | moves one step forward below step 3 and stays at step 3 |
| CreateWizard.HandleBack | src/app/create/page.tsx:82-88 | moves one step back above step 1; at step 1 it stays and navigates home |
| CreateWizard.BackUndoesNext | src/app/create/page.tsx:82-94 | Back undoes Next below the last step, and Next undoes Back above the first |
| CreateWizard.AmountError | src/app/create/page.tsx:51-56 | a non-empty non-positive amount is refused first, then one over the balance; no error exactly for NaN, an empty amount within balance, or an amount in (0, 10000] |
| CreateWizard.Step2ValidAndAmountError | src/app/create/page.tsx:37-68 | a valid step 2 shows no amount error; for a typed-in numeric amount with duration and loss in range, validity is exactly the absence of an amount error |
| CreateWizard.IsStep2Valid | src/app/create/page.tsx:58-68 | the form is valid for an amount in (0, 10000], 1 to 365 days and 0 to 100% loss; a valid form never shows an amount error |
| CreateWizard.MaxLossWarning | src/app/create/page.tsx:70 | among the losses the form accepts, the warning shows exactly for 81% to 100% |
| CreateWizard.MaxLossWarningMonotone | src/app/create/page.tsx:70 | raising the loss limit never hides the warning |
| CreateWizard.PenaltyRate | src/app/create/page.tsx:41 | 5% for aggressive, 3% for balanced, 2% for safe |
| CreateWizard.GenerateCommitmentId | src/app/create/page.tsx:15-22 | `CMT-` followed by 7 characters from [A-Z0-9], each picked by its own draw |
| CreateWizard.Handle | src/app/create/page.tsx:72-133 | choosing a type sets both the selected and the used type; continuing from step 1 goes to step 2; editing changes only the four form fields; closing the dialog hides it and navigates to `/commitments`; Back and Next follow the step machine; "create another" returns the initial state, clearing the shown id; only a submission sets a new id and only "create another" clears it; the router moves only on close and on Back from step 1 |
| CreateWizard.SelectThenContinue | src/app/create/page.tsx:72-80 | choosing a type and continuing lands on step 2 with that type selected and in use, the form unchanged |
| CreateWizard.CloseAfterSubmit | src/app/create/page.tsx:106-133 | closing the dialog after a submission hides it, keeps the generated id and navigates to `/commitments` |
| CreateWizard.RunShowsIds | src/app/create/page.tsx:106-110 | when every submission uses a generated id, an open success dialog always shows a well-formed id |
| CreateWizard.CreateAnotherResets | src/app/create/page.tsx:26-34 | after "create another" every field is back at its initial value; with an empty amount the form is not valid, shows no amount error, and shows the loss warning for 100% |

## Findings

| source | as written | input that shows it | evidently intended | confidence | as-written member | corrected member |
|---|---|---|---|---|---|---|
| src/app/api/marketplace/route.ts:8-15 | an absent query parameter is passed to `validatePagination` as `null`, which is neither a string nor a number | `GET /api/marketplace` with no query string answers 400 "Page must be a number" | an absent page and limit fall back to the validator's defaults, page 1 and limit 10 | not executed | MarketplaceRoute.Get | MarketplaceRoute.GetCorrected |
| src/app/api/attestations/route.ts:8-14 | the same `null` reaches `validatePagination` | `GET /api/attestations` with no query string answers 400 "Page must be a number" | page 1 and limit 10 by default | not executed | AttestationsRoute.Get | AttestationsRoute.GetCorrected |

## Left out

- Numbers are integers or `NaN`. Fractions, infinities and `-0` are not modelled. So `Math.round` is the identity, `parseFloat("1.5")` is whatever the oracle says, and the penalty-amount arithmetic and formatting (src/app/create/page.tsx:42) are omitted.
- `Dto.ScalarString`: numbers are exact unbounded integers and are always written as a plain decimal. JavaScript rounds integers above 2^53 to the nearest double and writes any number of magnitude 1e21 or more with an exponent (`String(1e21)` is `"1e+21"`), so such a numeric `amount` is written differently by JavaScript.
- `JsStrings.IntDecimalRoundTrip`: it is about the model's plain decimal. It agrees with JavaScript's `String` only for integers of magnitude at most 2^53, for the reasons given for `Dto.ScalarString`.
- `ErrorHelpers.GetErrorHeaders`: the `Retry-After` value is the plain decimal of the hint. For a hint of 1e21 or more JavaScript writes an exponent form, which does not parse back as a decimal integer; that case is not modelled.
- Case mapping covers ASCII letters only. `toLowerCase`/`toUpperCase` on other scripts is not modelled.
- The foreign functions are uninterpreted parameters: `parseFloat`, `parseInt`, `Number`, `JSON.parse` and `StrKey.isValidEd25519PublicKey`. So are the clock (`Date.now`, `toISOString`, hence `toIsoDate`) and `Math.random`.
- Logging (`console`, `logger`) is not modelled. Neither is `encodeURIComponent` in the card's links, nor the React rendering, nor router side effects beyond the returned navigation target.
- `Marketplace.CancelListing` returns a new state; the source changes the stored listing object in place, so a listing object handed out earlier by create or get changes with it. Object identity and aliasing of returned listings are not modelled.
- The marketplace service is modelled sequentially. The read-check-then-write race between concurrent creates is not modelled.
- `Marketplace.CreateListing` models the id's time part as the clock parameter. It does not model two creates in the same millisecond beyond what the counter already guarantees.
- `Config.CheckVersion`: a version's value is always a map of entries. A present but falsy version value (`null`, `0`, `""`), which `!!versionConfig` reports as not found, cannot be expressed, and neither can a non-object entry.
- `Config.ParseJsonEnv`: a parsed object is taken to have the shape of a contracts configuration. A truthy address that is not a string, which `config.ts` accepts as an address, cannot be expressed.
- `JsStrings.PadStart`: widths are counted in code points. JavaScript counts UTF-16 code units, so a string with characters outside the Basic Multilingual Plane is padded less by JavaScript.
- `MarketplaceCard.TruncateAddress`: lengths and slices are counted in code points. JavaScript's `length` and `slice` count UTF-16 code units, so an address with characters outside the Basic Multilingual Plane is shortened differently by JavaScript.
- `MarketplaceCard.IdLabel`: the padding width is counted in code points, not UTF-16 code units, as for `JsStrings.PadStart`.
- `Config.CheckVersion`: the first key without an address, which appears in the error message, depends on object key order. The model reports only the version.
- `Config.CheckVersion`: a property read (`config[activeVersion]`) is modelled as membership among the object's own keys. Names inherited from `Object.prototype` are not modelled: an active version named `constructor`, which JavaScript finds truthy and passes with no entries (`{}`), is reported by the model as not found.
- `Config.GetContractAddress`: `contracts[key]` is modelled as own-key lookup. An inherited name such as `toString` gives JavaScript a function, which is truthy, so `getContractAddress` returns its `address`, `undefined`, instead of throwing; the model reports it as not configured.
- `Config.GetContractAddress` is modelled as its own function. As shown, `config.ts` lacks the closing brace of `getContractAddress` before `BackendConfig`, so the file does not compile.
- `AttestationsRoute.Post` accepts a NaN rating, as the source does. JSON cannot produce NaN, so this cannot be reached from a request body.
- `ListingsRoute.Post`: the envelope's `message` and `details` fields are carried as the error value. Their rendering by `apiResponse.ts` is not part of this model.
- `ApiHandler.WithApiHandler`: an out-of-range status given to `ServerError` makes `NextResponse.json` throw a RangeError. That throw is not modelled; the status is taken as given.
- The `DELETE /api/marketplace/listings/[id]` route is left out: it is a thin wrapper over `CancelListing`, and its status mapping is the one `ServiceErrors` states.
- The card's type icon and CSS class choice are left out, as they are rendering only.
- The wizard's `handleViewCommitment` and `handleViewOnExplorer` are left out, as they are navigation only.
- Also left out, as I/O or thin wrappers over unseen code: `mockDb.ts`, the seed, ready, health, auth and commitments routes, and `index.ts`. So are the parsers `parseCreateCommitmentInput`/`parseEarlyExitInput`, which are referenced but not defined in the shown validation module.
