/** Contract configuration and backend configuration. `process.env` is the map
    `env` (a variable that is unset is absent from it), `JSON.parse` is an
    uninterpreted function, and the module-level cache is an explicit value threaded
    in and out. */
module Config {
  import opened Wrappers

  type Env = map<string, string>

  /** `process.env[name]` is set and non-empty, i.e. truthy. */
  predicate EnvSet(env: Env, name: string) {
    name in env && env[name] != ""
  }

  datatype ContractEntry = ContractEntry(address: string, network: Option<string>)

  /** A version's entries; `None` is an entry that is `undefined` or `null`. */
  type VersionConfig = map<string, Option<ContractEntry>>

  type ContractsConfig = map<string, VersionConfig>

  datatype ConfigError =
    | InvalidJson(message: string)
    | VersionNotFound(version: string, available: set<string>)
    | IncompleteEntry(version: string)
    | NotConfigured(key: string, version: string)

  /** A result together with the contents of the module-level cache afterwards. */
  datatype Step<T> = Step(cache: Option<ContractsConfig>, result: Result<T, ConfigError>)

  // ------------------------------------------------------------ legacy variables

  const NftVar := "NEXT_PUBLIC_COMMITMENT_NFT_CONTRACT"
  const CoreVar := "NEXT_PUBLIC_COMMITMENT_CORE_CONTRACT"
  const AttestationVar := "NEXT_PUBLIC_ATTESTATION_ENGINE_CONTRACT"

  /** `buildFromLegacyEnv`: `null` when none of the three legacy variables is set;
      otherwise a `v1` version holding exactly the contracts whose variable is set. */
  function BuildFromLegacyEnv(env: Env): (r: Option<ContractsConfig>)
    ensures r.None? <==> !EnvSet(env, NftVar) && !EnvSet(env, CoreVar) && !EnvSet(env, AttestationVar)
    ensures r.Some? ==> r.value.Keys == {"v1"}
    ensures r.Some? ==>
              var v1 := r.value["v1"];
              && v1.Keys <= {"commitmentNFT", "commitmentCore", "attestationEngine"}
              && ("commitmentNFT" in v1 <==> EnvSet(env, NftVar))
              && ("commitmentCore" in v1 <==> EnvSet(env, CoreVar))
              && ("attestationEngine" in v1 <==> EnvSet(env, AttestationVar))
              && ("commitmentNFT" in v1 ==> v1["commitmentNFT"] == Some(ContractEntry(env[NftVar], None)))
              && ("commitmentCore" in v1 ==> v1["commitmentCore"] == Some(ContractEntry(env[CoreVar], None)))
              && ("attestationEngine" in v1 ==>
                    v1["attestationEngine"] == Some(ContractEntry(env[AttestationVar], None)))
  {
    var anySet := EnvSet(env, NftVar) || EnvSet(env, CoreVar) || EnvSet(env, AttestationVar);
    if !anySet then None
    else
      var v1: VersionConfig := map[];
      var v1 := if EnvSet(env, NftVar) then v1["commitmentNFT" := Some(ContractEntry(env[NftVar], None))] else v1;
      var v1 := if EnvSet(env, CoreVar) then v1["commitmentCore" := Some(ContractEntry(env[CoreVar], None))] else v1;
      var v1 := if EnvSet(env, AttestationVar)
                then v1["attestationEngine" := Some(ContractEntry(env[AttestationVar], None))] else v1;
      if |v1| > 0 then Some(map["v1" := v1]) else None
  }

  // ------------------------------------------------------------ JSON variable

  /** What `JSON.parse` makes of the variable's text. */
  datatype ParsedJson = SyntaxError(message: string) | NonObject | ObjectValue(config: ContractsConfig)

  const NotAnObject := "NEXT_PUBLIC_CONTRACTS_JSON must be a JSON object mapping versions to contract entries"

  /** `NEXT_PUBLIC_CONTRACTS_JSON || CONTRACTS_JSON`. */
  function RawJson(env: Env): Option<string> {
    if EnvSet(env, "NEXT_PUBLIC_CONTRACTS_JSON") then Some(env["NEXT_PUBLIC_CONTRACTS_JSON"])
    else if EnvSet(env, "CONTRACTS_JSON") then Some(env["CONTRACTS_JSON"])
    else None
  }

  /** `parseJsonEnv`: nothing when neither variable is set, the parsed object when
      it is one, and an error (both for bad syntax and for a non-object, since the
      inner throw is caught and rethrown with the same prefix) otherwise. */
  function ParseJsonEnv(env: Env, jsonParse: string -> ParsedJson): (r: Result<Option<ContractsConfig>, ConfigError>)
    ensures RawJson(env).None? ==> r == Ok(None)
    ensures RawJson(env).Some? ==>
              match jsonParse(RawJson(env).value)
              case ObjectValue(c) => r == Ok(Some(c))
              case NonObject => r == Err(InvalidJson("Failed to parse NEXT_PUBLIC_CONTRACTS_JSON: " + NotAnObject))
              case SyntaxError(m) => r == Err(InvalidJson("Failed to parse NEXT_PUBLIC_CONTRACTS_JSON: " + m))
  {
    var raw := RawJson(env);
    if raw.None? then Ok(None)
    else
      match jsonParse(raw.value)
      case ObjectValue(c) => Ok(Some(c))
      case NonObject => Err(InvalidJson("Failed to parse NEXT_PUBLIC_CONTRACTS_JSON: " + NotAnObject))
      case SyntaxError(m) => Err(InvalidJson("Failed to parse NEXT_PUBLIC_CONTRACTS_JSON: " + m))
  }

  // ------------------------------------------------------------ loading

  /** `loadContractsConfig`: the cached value if there is one (an empty object is
      truthy, so even `{}` stays cached); else the JSON configuration, else the legacy
      one, else `{}`; whatever is chosen is cached. A JSON error caches nothing. */
  function LoadContractsConfig(cache: Option<ContractsConfig>, env: Env, jsonParse: string -> ParsedJson)
    : (s: Step<ContractsConfig>)
    ensures cache.Some? ==> s == Step(cache, Ok(cache.value))
    ensures s.result.Ok? ==> s.cache == Some(s.result.value)
    ensures s.result.Err? ==> s.cache == cache && cache.None? && ParseJsonEnv(env, jsonParse).Err?
    ensures cache.None? && ParseJsonEnv(env, jsonParse).Ok? ==>
              s.result == Ok(
                if ParseJsonEnv(env, jsonParse).value.Some? then ParseJsonEnv(env, jsonParse).value.value
                else if BuildFromLegacyEnv(env).Some? then BuildFromLegacyEnv(env).value
                else map[])
  {
    if cache.Some? then Step(cache, Ok(cache.value))
    else
      match ParseJsonEnv(env, jsonParse)
      case Err(e) => Step(cache, Err(e))
      case Ok(byJson) =>
        if byJson.Some? then Step(byJson, Ok(byJson.value))
        else
          var byLegacy := BuildFromLegacyEnv(env);
          if byLegacy.Some? then Step(byLegacy, Ok(byLegacy.value))
          else Step(Some(map[]), Ok(map[]))
  }

  /** Once a load has succeeded, every later load returns the same configuration,
      whatever the environment has become. */
  lemma LoadIsStable(cache: Option<ContractsConfig>, env: Env, env': Env,
                     jsonParse: string -> ParsedJson, jsonParse': string -> ParsedJson)
    requires LoadContractsConfig(cache, env, jsonParse).result.Ok?
    ensures var first := LoadContractsConfig(cache, env, jsonParse);
            var second := LoadContractsConfig(first.cache, env', jsonParse');
            second == first
  {
  }

  // ------------------------------------------------------------ active version

  /** `getActiveContractVersion`: the first non-empty of the two variables, else `v1`. */
  function GetActiveContractVersion(env: Env): (v: string)
    ensures EnvSet(env, "NEXT_PUBLIC_ACTIVE_CONTRACT_VERSION") ==> v == env["NEXT_PUBLIC_ACTIVE_CONTRACT_VERSION"]
    ensures !EnvSet(env, "NEXT_PUBLIC_ACTIVE_CONTRACT_VERSION") && EnvSet(env, "ACTIVE_CONTRACT_VERSION") ==>
              v == env["ACTIVE_CONTRACT_VERSION"]
    ensures !EnvSet(env, "NEXT_PUBLIC_ACTIVE_CONTRACT_VERSION") && !EnvSet(env, "ACTIVE_CONTRACT_VERSION") ==>
              v == "v1"
    ensures v != ""
  {
    if EnvSet(env, "NEXT_PUBLIC_ACTIVE_CONTRACT_VERSION") then env["NEXT_PUBLIC_ACTIVE_CONTRACT_VERSION"]
    else if EnvSet(env, "ACTIVE_CONTRACT_VERSION") then env["ACTIVE_CONTRACT_VERSION"]
    else "v1"
  }

  predicate HasAddress(entry: Option<ContractEntry>) {
    entry.Some? && entry.value.address != ""
  }

  /** The check `getActiveContracts` applies to the active version's entries. */
  function CheckVersion(config: ContractsConfig, active: string): (r: Result<map<string, ContractEntry>, ConfigError>)
    ensures active !in config ==> r == Err(VersionNotFound(active, config.Keys))
    ensures r.Ok? <==> active in config && forall k :: k in config[active] ==> HasAddress(config[active][k])
    ensures r.Ok? ==> r.value.Keys == config[active].Keys
                      && forall k :: k in r.value ==> config[active][k] == Some(r.value[k])
    ensures active in config && r.Err? ==> r == Err(IncompleteEntry(active))
  {
    if active !in config then Err(VersionNotFound(active, config.Keys))
    else
      var vc := config[active];
      if exists k :: k in vc && !HasAddress(vc[k]) then Err(IncompleteEntry(active))
      else Ok(map k | k in vc :: vc[k].value)
  }

  /** `getActiveContracts`: load, then require the active version to exist and every
      one of its entries to be present with a non-empty address. A failure after the
      load still leaves the loaded configuration cached. */
  function GetActiveContracts(cache: Option<ContractsConfig>, env: Env, jsonParse: string -> ParsedJson)
    : (s: Step<map<string, ContractEntry>>)
    ensures var loaded := LoadContractsConfig(cache, env, jsonParse);
            && s.cache == loaded.cache
            && (loaded.result.Err? ==> s.result == Err(loaded.result.error))
            && (loaded.result.Ok? ==> s.result == CheckVersion(loaded.result.value, GetActiveContractVersion(env)))
  {
    var loaded := LoadContractsConfig(cache, env, jsonParse);
    match loaded.result
    case Err(e) => Step(loaded.cache, Err(e))
    case Ok(config) => Step(loaded.cache, CheckVersion(config, GetActiveContractVersion(env)))
  }

  /** The first half of `getContractAddress`: the address of `key` among the active
      contracts, an error when the key is absent. */
  function ContractAddressIn(contracts: map<string, ContractEntry>, key: string, version: string)
    : (r: Result<string, ConfigError>)
    ensures key !in contracts ==> r == Err(NotConfigured(key, version))
    ensures key in contracts ==> r == Ok(contracts[key].address)
  {
    if key !in contracts then Err(NotConfigured(key, version)) else Ok(contracts[key].address)
  }

  /** `getContractAddress`, composed with the load: a successful answer is a
      non-empty address taken unchanged from the active version's entry. */
  function GetContractAddress(cache: Option<ContractsConfig>, env: Env, jsonParse: string -> ParsedJson, key: string)
    : (s: Step<string>)
    ensures s.cache == GetActiveContracts(cache, env, jsonParse).cache
    ensures s.result.Ok? ==> LoadContractsConfig(cache, env, jsonParse).result.Ok?
    ensures s.result.Ok? && LoadContractsConfig(cache, env, jsonParse).result.Ok? ==>
              var config := LoadContractsConfig(cache, env, jsonParse).result.value;
              var active := GetActiveContractVersion(env);
              && active in config && key in config[active]
              && config[active][key].Some? && config[active][key].value.address == s.result.value
              && s.result.value != ""
    ensures GetActiveContracts(cache, env, jsonParse).result.Ok? ==>
              (s.result.Err? <==> key !in GetActiveContracts(cache, env, jsonParse).result.value)
              && (s.result.Err? ==> s.result.error == NotConfigured(key, GetActiveContractVersion(env)))
  {
    var active := GetActiveContracts(cache, env, jsonParse);
    match active.result
    case Err(e) => Step(active.cache, Err(e))
    case Ok(contracts) => Step(active.cache, ContractAddressIn(contracts, key, GetActiveContractVersion(env)))
  }

  /** With nothing cached, no JSON variable and `v1` active, the legacy variables
      alone decide every address: no legacy variable at all means version `v1` is
      not found; otherwise a legacy key whose variable is set answers that variable's
      value unchanged, and every other key is not configured in `v1`. */
  lemma {:induction false} LegacyAddresses(env: Env, jsonParse: string -> ParsedJson, key: string)
    requires RawJson(env).None? && GetActiveContractVersion(env) == "v1"
    ensures var r := GetContractAddress(None, env, jsonParse, key).result;
            && (BuildFromLegacyEnv(env).None? ==> r == Err(VersionNotFound("v1", {})))
            && (BuildFromLegacyEnv(env).Some? ==>
                  && (key == "commitmentNFT" && EnvSet(env, NftVar) ==> r == Ok(env[NftVar]))
                  && (key == "commitmentCore" && EnvSet(env, CoreVar) ==> r == Ok(env[CoreVar]))
                  && (key == "attestationEngine" && EnvSet(env, AttestationVar) ==> r == Ok(env[AttestationVar]))
                  && (r.Err? <==> key !in BuildFromLegacyEnv(env).value["v1"])
                  && (r.Err? ==> r.error == NotConfigured(key, "v1")))
  {
    assert ParseJsonEnv(env, jsonParse) == Ok(None);
    var loaded := LoadContractsConfig(None, env, jsonParse);
    match BuildFromLegacyEnv(env)
    case None =>
      assert loaded.result == Ok(map[]);
      assert loaded.result.value.Keys == {};
      assert GetActiveContracts(None, env, jsonParse).result == Err(VersionNotFound("v1", {}));
    case Some(config) =>
      assert loaded.result == Ok(config);
      var v1 := config["v1"];
      assert forall k :: k in v1 ==> HasAddress(v1[k]);
      var contracts := CheckVersion(config, "v1");
      assert contracts.Ok?;
  }

  // ------------------------------------------------------------ backend config

  datatype BackendConfig = BackendConfig(
    sorobanRpcUrl: string,
    networkPassphrase: string,
    commitmentCoreContract: string,
    commitmentNftContract: string,
    attestationEngineContract: string,
    chainWritesEnabled: bool)

  /** `env[first] ?? env[second] ?? fallback`: the first variable that is set at all,
      even to the empty string. */
  function FirstDefined(env: Env, first: string, second: string, fallback: string): (v: string)
    ensures first in env ==> v == env[first]
    ensures first !in env && second in env ==> v == env[second]
    ensures first !in env && second !in env ==> v == fallback
  {
    if first in env then env[first] else if second in env then env[second] else fallback
  }

  /** `getBackendConfig`. */
  function GetBackendConfig(env: Env): (c: BackendConfig)
    ensures c.chainWritesEnabled <==> "COMMITLABS_ENABLE_CHAIN_WRITES" in env
                                      && env["COMMITLABS_ENABLE_CHAIN_WRITES"] == "true"
    ensures c.sorobanRpcUrl == FirstDefined(env, "SOROBAN_RPC_URL", "NEXT_PUBLIC_SOROBAN_RPC_URL",
                                            "https://soroban-testnet.stellar.org:443")
    ensures c.networkPassphrase == FirstDefined(env, "SOROBAN_NETWORK_PASSPHRASE", "NEXT_PUBLIC_NETWORK_PASSPHRASE",
                                                "Test SDF Network ; September 2015")
    ensures c.commitmentCoreContract == FirstDefined(env, "COMMITMENT_CORE_CONTRACT", CoreVar, "")
    ensures c.commitmentNftContract == FirstDefined(env, "COMMITMENT_NFT_CONTRACT", NftVar, "")
    ensures c.attestationEngineContract == FirstDefined(env, "ATTESTATION_ENGINE_CONTRACT", AttestationVar, "")
  {
    BackendConfig(
      FirstDefined(env, "SOROBAN_RPC_URL", "NEXT_PUBLIC_SOROBAN_RPC_URL", "https://soroban-testnet.stellar.org:443"),
      FirstDefined(env, "SOROBAN_NETWORK_PASSPHRASE", "NEXT_PUBLIC_NETWORK_PASSPHRASE", "Test SDF Network ; September 2015"),
      FirstDefined(env, "COMMITMENT_CORE_CONTRACT", CoreVar, ""),
      FirstDefined(env, "COMMITMENT_NFT_CONTRACT", NftVar, ""),
      FirstDefined(env, "ATTESTATION_ENGINE_CONTRACT", AttestationVar, ""),
      "COMMITLABS_ENABLE_CHAIN_WRITES" in env && env["COMMITLABS_ENABLE_CHAIN_WRITES"] == "true")
  }

  /** An empty core-contract variable shadows the public fallback: `??` is not `||`. */
  lemma EmptyVariableShadowsFallback(env: Env)
    requires "COMMITMENT_CORE_CONTRACT" in env && env["COMMITMENT_CORE_CONTRACT"] == ""
    requires EnvSet(env, CoreVar)
    ensures GetBackendConfig(env).commitmentCoreContract == ""
  {
  }
}
