/** The chain operation stubs: with chain writes disabled they answer with
    deterministic mock results; with them enabled they first require the contract
    addresses to be configured, and then still answer with the same mock results.
    Each `Date.now()` call is a parameter of its own: `idMs` for the commitment id
    and `nftMs` for the NFT token id, read one after the other. */
module ChainStubs {
  import opened Wrappers
  import opened JsValues
  import opened JsStrings
  import opened ServiceErrors
  import opened Config
  import opened Dto

  const MockPrefix := "TODO_CHAIN_CALL_"

  /** `buildMockReference`: the prefix followed by the upper-cased action. */
  function BuildMockReference(action: string): (r: string)
    ensures |r| == |MockPrefix| + |action|
    ensures r[..|MockPrefix|] == MockPrefix
    ensures forall i :: 0 <= i < |action| ==> r[|MockPrefix| + i] == UpperChar(action[i])
  {
    MockPrefix + ToUpper(action)
  }

  /** The create stub's reference: the prefix and `CREATE_COMMITMENT`. */
  lemma CreateReference()
    ensures BuildMockReference("create_commitment") == MockPrefix + "CREATE_COMMITMENT"
  {
    ReferenceOf("create_commitment", "CREATE_COMMITMENT");
  }

  /** The early-exit stub's reference: the prefix and `EARLY_EXIT`. */
  lemma EarlyExitReference()
    ensures BuildMockReference("early_exit") == MockPrefix + "EARLY_EXIT"
  {
    ReferenceOf("early_exit", "EARLY_EXIT");
  }

  /** The reference for an action whose upper-cased spelling is `upper`. */
  lemma ReferenceOf(action: string, upper: string)
    requires |action| == |upper|
    requires forall i :: 0 <= i < |action| ==> UpperChar(action[i]) == upper[i]
    ensures BuildMockReference(action) == MockPrefix + upper
  {
    assert ToUpper(action) == upper;
  }

  /** The already-validated create-commitment command. */
  datatype CreateCommitmentInput = CreateCommitmentInput(
    ownerAddress: string,
    amount: string,
    assetCode: string,
    assetIssuer: Option<string>,
    durationDays: int,
    maxLossPercent: int,
    commitmentType: CommitmentType)

  datatype CreateCommitmentResult = CreateCommitmentResult(
    commitment: ChainCommitment,
    commitmentId: string,
    nftTokenId: string,
    txHash: Option<string>,
    reference: Option<string>)

  /** The chain model built from the input; a missing issuer is copied as
      `undefined`, exactly as the input holds it. */
  function CommitmentModel(input: CreateCommitmentInput, commitmentId: string, nftTokenId: string): ChainCommitment {
    ChainCommitment(
      Text(commitmentId), input.ownerAddress, Text(input.amount), Present(input.assetCode),
      if input.assetIssuer.Some? then Present(input.assetIssuer.value) else Absent,
      Numeric(Num(input.durationDays)), Numeric(Num(input.maxLossPercent)),
      TypeName(input.commitmentType), Some("active"), Present(Text(nftTokenId)))
  }

  /** `createCommitmentOnChain`. */
  function CreateCommitmentOnChain(config: BackendConfig, input: CreateCommitmentInput, idMs: nat, nftMs: nat)
    : (r: Result<CreateCommitmentResult, ServiceError>)
    ensures r.Ok? <==> !config.chainWritesEnabled
                       || (config.commitmentCoreContract != "" && config.commitmentNftContract != "")
    ensures r.Err? ==> r.error == ValidationError(
              "Missing COMMITMENT_CORE_CONTRACT or COMMITMENT_NFT_CONTRACT for on-chain create.", NoDetails)
    ensures r.Ok? ==>
              var c := r.value.commitment;
              && r.value.commitmentId == "cm_" + NatToDecimal(idMs)
              && r.value.nftTokenId == "nft_" + NatToDecimal(nftMs)
              && c.id == Text(r.value.commitmentId)
              && c.nftTokenId == Present(Text(r.value.nftTokenId))
              && c.ownerAddress == input.ownerAddress
              && c.amount == Text(input.amount)
              && c.assetCode == Present(input.assetCode)
              && c.assetIssuer == (if input.assetIssuer.Some? then Present(input.assetIssuer.value) else Absent)
              && c.durationDays == Numeric(Num(input.durationDays))
              && c.maxLossPercent == Numeric(Num(input.maxLossPercent))
              && c.commitmentType == TypeName(input.commitmentType)
              && c.status == Some("active")
              && r.value.txHash.None?
              && r.value.reference == Some(BuildMockReference("create_commitment"))
  {
    var commitmentId := "cm_" + NatToDecimal(idMs);
    var nftTokenId := "nft_" + NatToDecimal(nftMs);
    var commitment := CommitmentModel(input, commitmentId, nftTokenId);
    var result := CreateCommitmentResult(commitment, commitmentId, nftTokenId, None,
                                         Some(BuildMockReference("create_commitment")));
    if !config.chainWritesEnabled then Ok(result)
    else if config.commitmentCoreContract == "" || config.commitmentNftContract == "" then
      Err(ValidationError("Missing COMMITMENT_CORE_CONTRACT or COMMITMENT_NFT_CONTRACT for on-chain create.",
                          NoDetails))
    else Ok(result)
  }

  /** The created commitment, mapped to its DTO, is an active commitment of the
      requested type, under the returned ids, keeping the input's figures. */
  lemma CreatedCommitmentDto(config: BackendConfig, input: CreateCommitmentInput, idMs: nat, nftMs: nat,
                             toNumber: string -> JsNumber)
    requires CreateCommitmentOnChain(config, input, idMs, nftMs).Ok?
    ensures var r := CreateCommitmentOnChain(config, input, idMs, nftMs).value;
            var dto := MapCommitmentFromChain(r.commitment, toNumber);
            && dto.commitmentId == r.commitmentId
            && dto.nftTokenId == Some(r.nftTokenId)
            && dto.status == StatusActive
            && dto.commitmentType == input.commitmentType
            && dto.amount == input.amount && dto.assetCode == input.assetCode
            && dto.durationDays == Num(input.durationDays)
  {
    CommitmentTypeIdempotent(input.commitmentType);
    CommitmentStatusIdempotent(StatusActive);
  }

  /** The two ids come from their own clock reads, so they agree on the time part
      exactly when the two reads do. */
  lemma CreatedIdsShareTime(config: BackendConfig, input: CreateCommitmentInput, idMs: nat, nftMs: nat)
    requires CreateCommitmentOnChain(config, input, idMs, nftMs).Ok?
    ensures var r := CreateCommitmentOnChain(config, input, idMs, nftMs).value;
            r.commitmentId[3..] == r.nftTokenId[4..] <==> idMs == nftMs
  {
    var r := CreateCommitmentOnChain(config, input, idMs, nftMs).value;
    assert r.commitmentId[3..] == NatToDecimal(idMs);
    assert r.nftTokenId[4..] == NatToDecimal(nftMs);
    if NatToDecimal(idMs) == NatToDecimal(nftMs) {
      DecimalRoundTrip(idMs);
      DecimalRoundTrip(nftMs);
    }
  }

  /** With both contracts configured, enabling or disabling chain writes does not
      change what the create stub answers. */
  lemma CreateModesAgree(config: BackendConfig, input: CreateCommitmentInput, idMs: nat, nftMs: nat)
    requires config.commitmentCoreContract != "" && config.commitmentNftContract != ""
    ensures CreateCommitmentOnChain(config, input, idMs, nftMs)
            == CreateCommitmentOnChain(config.(chainWritesEnabled := !config.chainWritesEnabled), input, idMs, nftMs)
    ensures CreateCommitmentOnChain(config, input, idMs, nftMs).Ok?
  {
  }

  datatype EarlyExitInput = EarlyExitInput(currentStatus: Option<string>)

  datatype EarlyExitResult = EarlyExitResult(
    penaltyAmount: string,
    returnedAmount: string,
    txHash: Option<string>,
    reference: Option<string>)

  const MockEarlyExit := EarlyExitResult("0", "0", None, Some(BuildMockReference("early_exit")))

  /** `earlyExitCommitmentOnChain`: a blank id first, then a known status other than
      `active`, then (with writes enabled) a missing core contract; otherwise the mock
      result, the same in both flag modes. */
  function EarlyExitCommitmentOnChain(config: BackendConfig, commitmentId: string, input: EarlyExitInput)
    : (r: Result<EarlyExitResult, ServiceError>)
    ensures Trim(commitmentId) == "" ==> r == Err(ValidationError("Commitment id is required.", NoDetails))
    ensures Trim(commitmentId) != "" && input.currentStatus.Some? && input.currentStatus.value != "active" ==>
              r == Err(ConflictError("Commitment cannot be early-exited from its current state.", NoDetails))
    ensures r.Ok? <==> Trim(commitmentId) != ""
                       && (input.currentStatus.None? || input.currentStatus.value == "active")
                       && (!config.chainWritesEnabled || config.commitmentCoreContract != "")
    ensures r.Ok? ==> r.value == MockEarlyExit
    ensures r.Err? && r.error.ValidationError? && Trim(commitmentId) != "" ==>
              config.chainWritesEnabled && config.commitmentCoreContract == ""
  {
    if Trim(commitmentId) == "" then Err(ValidationError("Commitment id is required.", NoDetails))
    else if input.currentStatus.Some? && input.currentStatus.value != "active" then
      Err(ConflictError("Commitment cannot be early-exited from its current state.", NoDetails))
    else if !config.chainWritesEnabled then Ok(MockEarlyExit)
    else if config.commitmentCoreContract == "" then
      Err(ValidationError("Missing COMMITMENT_CORE_CONTRACT for on-chain early exit.", NoDetails))
    else Ok(MockEarlyExit)
  }

  /** With the core contract configured, enabling or disabling chain writes does
      not change what the early-exit stub answers. */
  lemma EarlyExitModesAgree(config: BackendConfig, commitmentId: string, input: EarlyExitInput)
    requires config.commitmentCoreContract != ""
    ensures EarlyExitCommitmentOnChain(config, commitmentId, input)
            == EarlyExitCommitmentOnChain(config.(chainWritesEnabled := !config.chainWritesEnabled), commitmentId, input)
  {
  }
}
