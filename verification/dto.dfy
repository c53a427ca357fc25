/** Mapping the models returned by the (stubbed) chain layer into the DTOs the API
    serves: free strings are coerced into closed enumerations with documented
    fallbacks, identifiers and amounts are stringified. `Number(...)` on a string is
    an uninterpreted function; `toIsoDate` is not modelled and its result is passed
    in. */
module Dto {
  import opened Wrappers
  import opened JsValues
  import opened JsStrings

  datatype CommitmentType = Safe | Balanced | Aggressive

  function TypeName(t: CommitmentType): string {
    match t
    case Safe => "safe"
    case Balanced => "balanced"
    case Aggressive => "aggressive"
  }

  datatype CommitmentStatus = StatusActive | Settled | Violated | EarlyExit

  function StatusName(st: CommitmentStatus): string {
    match st
    case StatusActive => "active"
    case Settled => "settled"
    case Violated => "violated"
    case EarlyExit => "early_exit"
  }

  datatype Verdict = Pass | Fail | Unknown

  function VerdictName(v: Verdict): string {
    match v
    case Pass => "pass"
    case Fail => "fail"
    case Unknown => "unknown"
  }

  /** `value.trim().toLowerCase()`. */
  function Normalize(value: string): string {
    ToLower(Trim(value))
  }

  /** `toCommitmentType`: a recognised type name, after trimming and lower-casing, is
      kept; anything else becomes `balanced`. */
  function ToCommitmentType(value: string): (t: CommitmentType)
    ensures t == Safe <==> Normalize(value) == "safe"
    ensures t == Aggressive <==> Normalize(value) == "aggressive"
    ensures t == Balanced <==> Normalize(value) != "safe" && Normalize(value) != "aggressive"
    ensures Normalize(value) in {"safe", "balanced", "aggressive"} ==> TypeName(t) == Normalize(value)
  {
    TypeOfNormalized(Normalize(value))
  }

  /** The comparisons `toCommitmentType` makes on the normalised text. */
  function TypeOfNormalized(normalized: string): CommitmentType {
    if normalized == "safe" then Safe
    else if normalized == "balanced" then Balanced
    else if normalized == "aggressive" then Aggressive
    else Balanced
  }

  /** `toCommitmentStatus`: the three plain names map to themselves, the three
      spellings of "early exit" map to `early_exit`, and `undefined` or anything
      else becomes `active`. */
  function ToCommitmentStatus(value: Option<string>): (st: CommitmentStatus)
    ensures st == Settled <==> value.Some? && Normalize(value.value) == "settled"
    ensures st == Violated <==> value.Some? && Normalize(value.value) == "violated"
    ensures st == EarlyExit <==>
              value.Some? && Normalize(value.value) in {"early exit", "early_exit", "early-exit"}
    ensures st == StatusActive <==>
              value.None? || Normalize(value.value) !in
                {"settled", "violated", "early exit", "early_exit", "early-exit"}
  {
    if value.None? then StatusActive else StatusOfNormalized(Normalize(value.value))
  }

  /** The comparisons `toCommitmentStatus` makes on the normalised text. */
  function StatusOfNormalized(normalized: string): CommitmentStatus {
    if normalized == "active" then StatusActive
    else if normalized == "settled" then Settled
    else if normalized == "violated" then Violated
    else if normalized == "early exit" || normalized == "early_exit" || normalized == "early-exit" then EarlyExit
    else StatusActive
  }

  /** `toAttestationVerdict`: `pass` or `fail` after trimming and lower-casing,
      `unknown` for `undefined` and everything else. */
  function ToAttestationVerdict(value: Option<string>): (v: Verdict)
    ensures v == Pass <==> value.Some? && Normalize(value.value) == "pass"
    ensures v == Fail <==> value.Some? && Normalize(value.value) == "fail"
    ensures v == Unknown <==> value.None? || Normalize(value.value) !in {"pass", "fail"}
  {
    if value.None? then Unknown else VerdictOfNormalized(Normalize(value.value))
  }

  /** The comparisons `toAttestationVerdict` makes on the normalised text. */
  function VerdictOfNormalized(normalized: string): Verdict {
    if normalized == "pass" then Pass
    else if normalized == "fail" then Fail
    else Unknown
  }

  /** Each name is recognised as its own value. */
  lemma NamesRecognised(t: CommitmentType, st: CommitmentStatus, v: Verdict)
    ensures TypeOfNormalized(TypeName(t)) == t
    ensures StatusOfNormalized(StatusName(st)) == st
    ensures VerdictOfNormalized(VerdictName(v)) == v
  {
  }

  /** Normalising the name of a normaliser's output gives that output back. */
  lemma CommitmentTypeIdempotent(t: CommitmentType)
    ensures ToCommitmentType(TypeName(t)) == t
  {
    NameNormalizesToItself(TypeName(t));
    NamesRecognised(t, StatusActive, Pass);
  }

  lemma CommitmentStatusIdempotent(st: CommitmentStatus)
    ensures ToCommitmentStatus(Some(StatusName(st))) == st
  {
    NameNormalizesToItself(StatusName(st));
    NamesRecognised(Safe, st, Pass);
  }

  lemma AttestationVerdictIdempotent(v: Verdict)
    ensures ToAttestationVerdict(Some(VerdictName(v))) == v
  {
    NameNormalizesToItself(VerdictName(v));
    NamesRecognised(Safe, StatusActive, v);
  }

  /** A name spelt in lower-case letters and `_` has nothing to trim or lower. */
  lemma NameNormalizesToItself(name: string)
    requires |name| > 0
    requires forall i :: 0 <= i < |name| ==> ('a' <= name[i] <= 'z' || name[i] == '_')
    ensures Normalize(name) == name
  {
    assert !IsTrimmable(name[0]) && !IsTrimmable(name[|name| - 1]);
    TrimUntrimmed(name);
    LowerNameUnchanged(name);
  }

  /** A name spelt in lower-case letters and `_` is its own lower-case form. */
  lemma LowerNameUnchanged(name: string)
    requires forall i :: 0 <= i < |name| ==> ('a' <= name[i] <= 'z' || name[i] == '_')
    ensures ToLower(name) == name
  {
    assert forall i :: 0 <= i < |name| ==> LowerChar(name[i]) == name[i];
  }

  // ------------------------------------------------------------ commitments

  /** A value the chain model types as `string | number`. */
  datatype Scalar = Text(s: string) | Numeric(n: JsNumber)

  /** A field that may be `undefined`, `null`, or a value. */
  datatype Nullable<T> = Absent | NullValue | Present(value: T)

  /** `String(x)`. */
  function ScalarString(x: Scalar): (r: string)
    ensures x.Text? ==> r == x.s
    ensures x.Numeric? && x.n.Num? ==> ParseDecimal(r) == Some(x.n.v)
  {
    match x
    case Text(s) => s
    case Numeric(NaN) => "NaN"
    case Numeric(Num(v)) => IntDecimalRoundTrip(v); IntToDecimal(v)
  }

  /** `Number(x)`: the identity on numbers, `toNumber` on strings. */
  function ScalarNumber(x: Scalar, toNumber: string -> JsNumber): JsNumber {
    match x
    case Text(s) => toNumber(s)
    case Numeric(n) => n
  }

  datatype ChainCommitment = ChainCommitment(
    id: Scalar,
    ownerAddress: string,
    amount: Scalar,
    assetCode: Nullable<string>,
    assetIssuer: Nullable<string>,
    durationDays: Scalar,
    maxLossPercent: Scalar,
    commitmentType: string,
    status: Option<string>,
    nftTokenId: Nullable<Scalar>)

  datatype CommitmentDto = CommitmentDto(
    commitmentId: string,
    ownerAddress: string,
    amount: string,
    assetCode: string,
    assetIssuer: Option<string>,
    durationDays: JsNumber,
    maxLossPercent: JsNumber,
    commitmentType: CommitmentType,
    status: CommitmentStatus,
    nftTokenId: Option<string>)

  const NativeAsset := "XLM"

  /** `mapCommitmentFromChain`. */
  function MapCommitmentFromChain(model: ChainCommitment, toNumber: string -> JsNumber): (dto: CommitmentDto)
    // `??` defaults only undefined and null; an empty asset code is kept
    ensures model.assetCode.Present? ==> dto.assetCode == model.assetCode.value
    ensures !model.assetCode.Present? ==> dto.assetCode == NativeAsset
    // the native asset never has an issuer; any other keeps the model's, if any
    ensures dto.assetCode == NativeAsset ==> dto.assetIssuer == None
    ensures dto.assetCode != NativeAsset ==>
              dto.assetIssuer == (if model.assetIssuer.Present? then Some(model.assetIssuer.value) else None)
    ensures dto.nftTokenId.None? <==> !model.nftTokenId.Present?
    ensures model.nftTokenId.Present? ==> dto.nftTokenId == Some(ScalarString(model.nftTokenId.value))
    ensures dto.commitmentId == ScalarString(model.id) && dto.amount == ScalarString(model.amount)
    ensures dto.ownerAddress == model.ownerAddress
    ensures dto.durationDays == ScalarNumber(model.durationDays, toNumber)
    ensures dto.maxLossPercent == ScalarNumber(model.maxLossPercent, toNumber)
    ensures dto.commitmentType == ToCommitmentType(model.commitmentType)
    ensures dto.status == ToCommitmentStatus(model.status)
  {
    var assetCode := if model.assetCode.Present? then model.assetCode.value else NativeAsset;
    CommitmentDto(
      ScalarString(model.id),
      model.ownerAddress,
      ScalarString(model.amount),
      assetCode,
      if assetCode == NativeAsset then None
      else if model.assetIssuer.Present? then Some(model.assetIssuer.value) else None,
      ScalarNumber(model.durationDays, toNumber),
      ScalarNumber(model.maxLossPercent, toNumber),
      ToCommitmentType(model.commitmentType),
      ToCommitmentStatus(model.status),
      if model.nftTokenId.Present? then Some(ScalarString(model.nftTokenId.value)) else None)
  }

  /** A DTO as the chain layer would report it back. */
  function ChainOf(dto: CommitmentDto): ChainCommitment {
    ChainCommitment(
      Text(dto.commitmentId), dto.ownerAddress, Text(dto.amount), Present(dto.assetCode),
      if dto.assetIssuer.Some? then Present(dto.assetIssuer.value) else NullValue,
      Numeric(dto.durationDays), Numeric(dto.maxLossPercent),
      TypeName(dto.commitmentType), Some(StatusName(dto.status)),
      if dto.nftTokenId.Some? then Present(Text(dto.nftTokenId.value)) else NullValue)
  }

  /** Every DTO the mapper can produce is a fixed point of mapping it back and forth:
      the mapper loses nothing a DTO holds. */
  lemma MapCommitmentRoundTrip(dto: CommitmentDto, toNumber: string -> JsNumber)
    requires dto.assetCode == NativeAsset ==> dto.assetIssuer == None
    ensures MapCommitmentFromChain(ChainOf(dto), toNumber) == dto
  {
    var r := MapCommitmentFromChain(ChainOf(dto), toNumber);
    assert r.commitmentType == dto.commitmentType by {
      CommitmentTypeIdempotent(dto.commitmentType);
    }
    assert r.status == dto.status by {
      CommitmentStatusIdempotent(dto.status);
    }
    assert r.assetCode == dto.assetCode && r.assetIssuer == dto.assetIssuer;
    assert r.nftTokenId == dto.nftTokenId;
  }

  // ------------------------------------------------------------ attestations

  /** `details` is `unknown` in the source; `Undefined` stands for the key being
      absent. */
  datatype ChainAttestation = ChainAttestation(
    id: Scalar,
    commitmentId: Scalar,
    ownerAddress: string,
    kind: string,
    verdict: Option<string>,
    details: JsValue)

  datatype AttestationDto = AttestationDto(
    attestationId: string,
    commitmentId: string,
    ownerAddress: string,
    kind: string,
    verdict: Verdict,
    observedAt: string,
    details: Option<JsValue>)

  /** `mapAttestationFromChain`; `observedAt` is what `toIsoDate(model.observedAt)`
      returned. The `details` key is present exactly when the model's `details` is
      not `undefined`, and is never defaulted. */
  function MapAttestationFromChain(model: ChainAttestation, observedAt: string): (dto: AttestationDto)
    ensures dto.details.Some? <==> model.details != Undefined
    ensures dto.details.Some? ==> dto.details.value == model.details
    ensures dto.attestationId == ScalarString(model.id)
    ensures dto.commitmentId == ScalarString(model.commitmentId)
    ensures dto.ownerAddress == model.ownerAddress && dto.kind == model.kind
    ensures dto.verdict == ToAttestationVerdict(model.verdict)
    ensures dto.observedAt == observedAt
  {
    AttestationDto(
      ScalarString(model.id), ScalarString(model.commitmentId), model.ownerAddress, model.kind,
      ToAttestationVerdict(model.verdict), observedAt,
      if model.details != Undefined then Some(model.details) else None)
  }

  /** An attestation DTO as the chain layer would report it back; an absent
      `details` key is reported as `undefined`. */
  function AttestationChainOf(dto: AttestationDto): ChainAttestation {
    ChainAttestation(
      Text(dto.attestationId), Text(dto.commitmentId), dto.ownerAddress, dto.kind,
      Some(VerdictName(dto.verdict)), if dto.details.Some? then dto.details.value else Undefined)
  }

  /** Every attestation DTO the mapper can produce (one whose `details`, when
      present, is not `undefined`) survives the chain image and mapping back, given
      its own observation time. */
  lemma MapAttestationRoundTrip(dto: AttestationDto)
    requires dto.details != Some(Undefined)
    ensures MapAttestationFromChain(AttestationChainOf(dto), dto.observedAt) == dto
  {
    AttestationVerdictIdempotent(dto.verdict);
  }
}
