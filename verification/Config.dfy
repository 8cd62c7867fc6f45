/**
 Start-up configuration (src/config.ts): environment variables read into the
 settings record, with required variables failing start-up and optional ones
 falling back to defaults, and the chain chosen from the network name.
 */
module Config {
  import opened JsText
  import opened Results

  /** `process.env`: a key that is not in the map reads as `undefined`. */
  type Env = map<Str, Str>

  /** The variable holds a truthy value: `undefined` and "" are both falsy. */
  predicate IsSet(env: Env, key: Str)
  {
    key in env && |env[key]| > 0
  }

  const PrivateKeyVar: Str := Lit("PRIVATE_KEY")
  const ContractAddressVar: Str := Lit("NFT_CONTRACT_ADDRESS")
  const NetworkVar: Str := Lit("NETWORK")
  const OpenAiKeyVar: Str := Lit("OPENAI_API_KEY")
  const PinataKeyVar: Str := Lit("PINATA_API_KEY")
  const PinataSecretVar: Str := Lit("PINATA_SECRET_KEY")
  const NeynarKeyVar: Str := Lit("NEYNAR_API_KEY")
  const SignerUuidVar: Str := Lit("FARCASTER_SIGNER_UUID")
  const TwitterKeyVar: Str := Lit("TWITTER_API_KEY")
  const TwitterSecretVar: Str := Lit("TWITTER_API_SECRET")
  const TwitterTokenVar: Str := Lit("TWITTER_ACCESS_TOKEN")
  const TwitterTokenSecretVar: Str := Lit("TWITTER_ACCESS_SECRET")
  const IntervalVar: Str := Lit("CREATION_INTERVAL_MINUTES")
  const ThemesVar: Str := Lit("ART_THEMES")

  const DefaultNetwork: Str := Lit("baseSepolia")
  const MainnetName: Str := Lit("base")
  const DefaultInterval: Str := Lit("60")
  const Comma: CodeUnit := 0x2C

  /** The five default themes, in the order of the default ART_THEMES value. */
  const DefaultThemeNames: seq<Str> :=
    [Lit("surreal"), Lit("cyberpunk"), Lit("abstract"), Lit("cosmic"), Lit("dreamscape")]

  /** The default ART_THEMES value, "surreal,cyberpunk,abstract,cosmic,dreamscape". */
  const DefaultThemes: Str := Join(DefaultThemeNames, Comma)

  /** The error `requireEnv` throws for a missing variable. */
  function MissingVariable(key: Str): Error
  {
    Error(Lit("❌ Missing required environment variable: ") + key)
  }

  /** `requireEnv`: the value of a set variable, or the "missing" error naming the key. */
  function RequireEnv(env: Env, key: Str): (r: Result<Str>)
    ensures r.Ok? <==> IsSet(env, key)
    ensures r.Ok? ==> r.value == env[key] && |r.value| > 0
    ensures r.Err? ==> r.error == MissingVariable(key)
  {
    if IsSet(env, key) then Ok(env[key]) else Err(MissingVariable(key))
  }

  /** `optionalEnv`: the value of a set variable, otherwise the default. */
  function OptionalEnv(env: Env, key: Str, default: Str): (r: Str)
    ensures IsSet(env, key) ==> r == env[key]
    ensures !IsSet(env, key) ==> r == default
  {
    if IsSet(env, key) then env[key] else default
  }

  /** The exported `config` object. */
  datatype Settings = Settings(
    privateKey: Str,
    contractAddress: Str,
    network: Str,
    openaiApiKey: Str,
    pinataApiKey: Str,
    pinataSecretKey: Str,
    neynarApiKey: Str,
    farcasterSignerUuid: Str,
    twitterApiKey: Str,
    twitterApiSecret: Str,
    twitterAccessToken: Str,
    twitterAccessSecret: Str,
    creationInterval: Str,
    artThemes: seq<Str>)

  /**
   Building `config`: the fields are evaluated in declaration order, so the first
   required variable that is not set is the one named in the start-up error.
   */
  function LoadSettings(env: Env): (r: Result<Settings>)
    ensures r.Ok? <==> IsSet(env, PrivateKeyVar) && IsSet(env, OpenAiKeyVar)
                       && IsSet(env, PinataKeyVar) && IsSet(env, PinataSecretVar)
    ensures !IsSet(env, PrivateKeyVar) ==> r == Err(MissingVariable(PrivateKeyVar))
    ensures IsSet(env, PrivateKeyVar) && !IsSet(env, OpenAiKeyVar) ==>
              r == Err(MissingVariable(OpenAiKeyVar))
    ensures IsSet(env, PrivateKeyVar) && IsSet(env, OpenAiKeyVar) && !IsSet(env, PinataKeyVar) ==>
              r == Err(MissingVariable(PinataKeyVar))
    ensures IsSet(env, PrivateKeyVar) && IsSet(env, OpenAiKeyVar) && IsSet(env, PinataKeyVar)
            && !IsSet(env, PinataSecretVar)
            ==> r == Err(MissingVariable(PinataSecretVar))
    ensures r.Ok? ==> r.value.privateKey == env[PrivateKeyVar] && r.value.openaiApiKey == env[OpenAiKeyVar]
                      && r.value.pinataApiKey == env[PinataKeyVar] && r.value.pinataSecretKey == env[PinataSecretVar]
    ensures r.Ok? && !IsSet(env, NetworkVar) ==> r.value.network == DefaultNetwork
    ensures r.Ok? && IsSet(env, NetworkVar) ==> r.value.network == env[NetworkVar]
    ensures r.Ok? ==> |r.value.artThemes| >= 1
    ensures r.Ok? ==> forall i :: 0 <= i < |r.value.artThemes| ==> Comma !in r.value.artThemes[i]
    ensures r.Ok? && !IsSet(env, ThemesVar) ==> Join(r.value.artThemes, Comma) == DefaultThemes
    ensures r.Ok? && IsSet(env, ThemesVar) ==> Join(r.value.artThemes, Comma) == env[ThemesVar]
  {
    var privateKey :- RequireEnv(env, PrivateKeyVar);
    var contractAddress := OptionalEnv(env, ContractAddressVar, []);
    var network := OptionalEnv(env, NetworkVar, DefaultNetwork);
    var openaiApiKey :- RequireEnv(env, OpenAiKeyVar);
    var pinataApiKey :- RequireEnv(env, PinataKeyVar);
    var pinataSecretKey :- RequireEnv(env, PinataSecretVar);
    Ok(Settings(
         privateKey, contractAddress, network, openaiApiKey, pinataApiKey, pinataSecretKey,
         OptionalEnv(env, NeynarKeyVar, []),
         OptionalEnv(env, SignerUuidVar, []),
         OptionalEnv(env, TwitterKeyVar, []),
         OptionalEnv(env, TwitterSecretVar, []),
         OptionalEnv(env, TwitterTokenVar, []),
         OptionalEnv(env, TwitterTokenSecretVar, []),
         OptionalEnv(env, IntervalVar, DefaultInterval),
         Split(OptionalEnv(env, ThemesVar, DefaultThemes), Comma)))
  }

  /** The default ART_THEMES value splits into the five default themes. */
  lemma DefaultThemesSplit()
    ensures Split(DefaultThemes, Comma) == DefaultThemeNames
  {
    assert forall i :: 0 <= i < |DefaultThemeNames| ==> Comma !in DefaultThemeNames[i] by {
      assert Comma !in Lit("surreal") && Comma !in Lit("cyberpunk") && Comma !in Lit("abstract");
      assert Comma !in Lit("cosmic") && Comma !in Lit("dreamscape");
    }
    SplitJoin(DefaultThemeNames, Comma);
  }

  /** Without ART_THEMES the agent draws from exactly the five default themes, in order. */
  lemma DefaultThemeList(env: Env)
    requires LoadSettings(env).Ok? && !IsSet(env, ThemesVar)
    ensures LoadSettings(env).value.artThemes == DefaultThemeNames
  {
    var themes := LoadSettings(env).value.artThemes;
    SplitJoin(themes, Comma);
    DefaultThemesSplit();
  }

  /** The chains the agent can talk to. */
  datatype Chain = BaseMainnet | BaseSepolia

  /** `chain`: Base mainnet exactly when the network setting is "base". */
  function ChainOf(network: Str): (c: Chain)
    ensures c == BaseMainnet <==> network == MainnetName
  {
    if network == MainnetName then BaseMainnet else BaseSepolia
  }

  /** With NETWORK unset the agent runs on Base Sepolia. */
  lemma DefaultChainIsSepolia(env: Env)
    requires LoadSettings(env).Ok? && !IsSet(env, NetworkVar)
    ensures ChainOf(LoadSettings(env).value.network) == BaseSepolia
  {
    assert |DefaultNetwork| == 11 && |MainnetName| == 4;
  }
}
