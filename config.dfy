/**
 * The application configuration, read from an explicit environment (a map
 * from variable names to values) instead of the process environment.
 */
module Config {
  import opened Wrappers
  import opened Text
  import OpenRouter

  datatype OpenRouterConfig = OpenRouterConfig(
    apiKey: string,
    model: string,
    referer: Option<string>,
    title: Option<string>)

  datatype SequentialThinkingConfig = SequentialThinkingConfig(defaultEnabled: bool)

  datatype LoggingConfig = LoggingConfig(level: string)

  datatype AppConfig = AppConfig(
    openrouter: OpenRouterConfig,
    sequentialThinking: SequentialThinkingConfig,
    logging: LoggingConfig)

  const ApiKeyVar := "OPENROUTER_API_KEY"
  const ModelVar := "OPENROUTER_MODEL"
  const RefererVar := "OPENROUTER_REFERER"
  const TitleVar := "OPENROUTER_TITLE"
  const EnableThinkingVar := "ENABLE_SEQUENTIAL_THINKING"
  const LogLevelVar := "LOG_LEVEL"

  const DefaultModel := "openrouter/auto"
  const DefaultLogLevel := "info"
  const MissingApiKey := ApiKeyVar + " environment variable is required"

  /** The tokens that switch sequential thinking on, in lower case. */
  const TruthyTokens: set<string> := {"true", "1", "yes", "on"}

  /** The tokens that switch it off, in lower case. */
  const FalsyTokens: set<string> := {"false", "0", "no", "off"}

  /**
   * Rust's `get_enable_sequential_thinking_default`: the value, lower-cased,
   * is matched against the truthy tokens, then the falsy ones; an
   * unrecognised or unset value means enabled.
   */
  function EnableSequentialThinkingDefault(env: map<string, string>): (enabled: bool)
    ensures EnableThinkingVar !in env ==> enabled
    ensures EnableThinkingVar in env && ToLower(env[EnableThinkingVar]) in TruthyTokens ==> enabled
  {
    match OpenRouter.Lookup(env, EnableThinkingVar)
    case None => true
    case Some(v) =>
      var lower := ToLower(v);
      if lower in TruthyTokens then true
      else if lower in FalsyTokens then false
      else true
  }

  /** Sequential thinking is off exactly when the variable holds one of the falsy tokens, in any case. */
  lemma DisabledIffFalsy(env: map<string, string>)
    ensures !EnableSequentialThinkingDefault(env) <==>
      EnableThinkingVar in env && ToLower(env[EnableThinkingVar]) in FalsyTokens
  {
    if EnableThinkingVar in env {
      var lower := ToLower(env[EnableThinkingVar]);
      assert lower in FalsyTokens ==> lower !in TruthyTokens by {
        assert "false"[0] != "true"[0] && "false"[0] != "1"[0] && "false"[0] != "yes"[0] && "false"[0] != "on"[0];
        assert "0"[0] != "true"[0] && "0"[0] != "1"[0] && "0"[0] != "yes"[0] && "0"[0] != "on"[0];
        assert "no"[0] != "true"[0] && "no"[0] != "1"[0] && "no"[0] != "yes"[0] && "no"[0] != "on"[0];
        assert "off"[0] != "true"[0] && "off"[0] != "1"[0] && "off"[0] != "yes"[0] && "off"[1] != "on"[1];
      }
    }
  }

  /** Values that differ only in the case of their letters give the same setting. */
  lemma EnableIgnoresCase(env: map<string, string>, v: string, w: string)
    requires ToLower(v) == ToLower(w)
    ensures EnableSequentialThinkingDefault(env[EnableThinkingVar := v])
         == EnableSequentialThinkingDefault(env[EnableThinkingVar := w])
  {
  }

  /** Rust's `OpenRouterConfig::from_env`. */
  function OpenRouterConfigFromEnv(env: map<string, string>): (r: Result<OpenRouterConfig, string>)
    ensures r.Failure? <==> ApiKeyVar !in env
    ensures r.Failure? ==> r.error == MissingApiKey
    ensures r.Success? ==>
      && r.value.apiKey == env[ApiKeyVar]
      && r.value.model == (if ModelVar in env then env[ModelVar] else DefaultModel)
      && r.value.referer == (if RefererVar in env then Some(env[RefererVar]) else None)
      && r.value.title == (if TitleVar in env then Some(env[TitleVar]) else None)
  {
    match OpenRouter.Lookup(env, ApiKeyVar)
    case None => Failure(MissingApiKey)
    case Some(key) =>
      Success(OpenRouterConfig(key, OpenRouter.Lookup(env, ModelVar).GetOr(DefaultModel), OpenRouter.Lookup(env, RefererVar), OpenRouter.Lookup(env, TitleVar)))
  }

  /** The error names the missing variable. */
  lemma MissingApiKeyNamesVariable()
    ensures IsPrefix(ApiKeyVar, MissingApiKey)
  {
    PrefixSuffixOfConcat(ApiKeyVar, " environment variable is required");
  }

  /**
   * The configuration and the provider's own `from_env` read the same
   * variables: they succeed on the same environments, with the same settings.
   */
  lemma ConfigAgreesWithProvider(env: map<string, string>)
    ensures OpenRouterConfigFromEnv(env).Success? <==> OpenRouter.FromEnv(env).Success?
    ensures OpenRouterConfigFromEnv(env).Success? ==>
      var c := OpenRouterConfigFromEnv(env).value;
      var p := OpenRouter.FromEnv(env).value;
      c.apiKey == p.apiKey && c.model == p.model && c.referer == p.referer && c.title == p.title
  {
  }

  /** Rust's `SequentialThinkingConfig::from_env`: disabled exactly by a falsy token. */
  function SequentialThinkingConfigFromEnv(env: map<string, string>): (c: SequentialThinkingConfig)
    ensures !c.defaultEnabled <==> EnableThinkingVar in env && ToLower(env[EnableThinkingVar]) in FalsyTokens
  {
    DisabledIffFalsy(env);
    SequentialThinkingConfig(EnableSequentialThinkingDefault(env))
  }

  /** Rust's `LoggingConfig::from_env`: the level, "info" when unset. */
  function LoggingConfigFromEnv(env: map<string, string>): (c: LoggingConfig)
    ensures LogLevelVar in env ==> c.level == env[LogLevelVar]
    ensures LogLevelVar !in env ==> c.level == DefaultLogLevel
  {
    LoggingConfig(OpenRouter.Lookup(env, LogLevelVar).GetOr(DefaultLogLevel))
  }

  /** Rust's `Config::from_env`: fails exactly when the OpenRouter part does, with its error. */
  function ConfigFromEnv(env: map<string, string>): (r: Result<AppConfig, string>)
    ensures r.Failure? <==> ApiKeyVar !in env
    ensures r.Failure? ==> r.error == MissingApiKey
    ensures r.Success? ==>
      && r.value.openrouter == OpenRouterConfigFromEnv(env).value
      && r.value.sequentialThinking.defaultEnabled == EnableSequentialThinkingDefault(env)
      && r.value.logging == LoggingConfigFromEnv(env)
  {
    match OpenRouterConfigFromEnv(env)
    case Failure(e) => Failure(e)
    case Success(openrouter) =>
      Success(AppConfig(openrouter, SequentialThinkingConfigFromEnv(env), LoggingConfigFromEnv(env)))
  }

  /** Rust's `sequential_thinking_enabled`. */
  function SequentialThinkingEnabled(c: AppConfig): bool {
    c.sequentialThinking.defaultEnabled
  }

  /** A loaded configuration enables sequential thinking unless the variable says one of the falsy tokens. */
  lemma LoadedThinkingSetting(env: map<string, string>)
    requires ConfigFromEnv(env).Success?
    ensures !SequentialThinkingEnabled(ConfigFromEnv(env).value) <==>
      EnableThinkingVar in env && ToLower(env[EnableThinkingVar]) in FalsyTokens
  {
    DisabledIffFalsy(env);
  }
}
