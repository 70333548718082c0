/** Provider resolution: `get_model` and `get_provider_name`
    (backend/config/model_provider.py). The configuration `get_config()`
    returns is passed in as `cfg`. */
module ModelProvider {
  import opened Wrappers
  import opened Settings
  import opened Agno

  /** Python's `arg or fallback` on an optional string: `None` and `""`
      both fall back. */
  function OrElse(arg: Option<string>, fallback: string): string {
    if arg.Some? && arg.value != "" then arg.value else fallback
  }

  function FinalProvider(cfg: Config, provider: Option<string>): string {
    OrElse(provider, cfg.model.provider)
  }

  function FinalModelId(cfg: Config, modelId: Option<string>): string {
    OrElse(modelId, cfg.model.modelId)
  }

  const SUPPORTED: set<string> := {"openai", "anthropic"}

  const UNSUPPORTED_PREFIX := "\U{274C} Unsupported provider: "
  const UNSUPPORTED_SUFFIX := "\n   Supported: 'openai', 'anthropic'"

  /** `get_model(provider, model_id)`. */
  function GetModel(cfg: Config, provider: Option<string>, modelId: Option<string>): (r: Result<ModelClient>)
    ensures r.Ok? <==> FinalProvider(cfg, provider) in SUPPORTED
    ensures r.Ok? ==> r.value.id == FinalModelId(cfg, modelId)
    ensures r.Ok? ==> (r.value.OpenAIChat? <==> FinalProvider(cfg, provider) == "openai")
    ensures r.Ok? && r.value.OpenAIChat? ==> r.value.apiKey == cfg.openai.apiKey
    ensures r.Ok? && r.value.Claude? ==> r.value.apiKey == cfg.anthropic.apiKey
    ensures r.Err? ==> r.error == UNSUPPORTED_PREFIX + FinalProvider(cfg, provider) + UNSUPPORTED_SUFFIX
  {
    var finalProvider := FinalProvider(cfg, provider);
    var finalModelId := FinalModelId(cfg, modelId);
    if finalProvider == "openai" then
      Ok(OpenAIChat(finalModelId, cfg.openai.apiKey))
    else if finalProvider == "anthropic" then
      Ok(Claude(finalModelId, cfg.anthropic.apiKey))
    else
      Err(UNSUPPORTED_PREFIX + finalProvider + UNSUPPORTED_SUFFIX)
  }

  const PROVIDER_NAMES: map<string, string> :=
    map["openai" := "OpenAI ChatGPT", "anthropic" := "Anthropic Claude"]

  /** `get_provider_name(provider)`: a dictionary lookup with a default, so
      it never raises. */
  function GetProviderName(cfg: Config, provider: Option<string>): (name: string)
    ensures name in {"OpenAI ChatGPT", "Anthropic Claude", "Unknown Provider"}
    ensures name == "Unknown Provider" <==> FinalProvider(cfg, provider) !in SUPPORTED
    ensures FinalProvider(cfg, provider) == "openai" ==> name == "OpenAI ChatGPT"
    ensures FinalProvider(cfg, provider) == "anthropic" ==> name == "Anthropic Claude"
  {
    var finalProvider := FinalProvider(cfg, provider);
    if finalProvider in PROVIDER_NAMES then PROVIDER_NAMES[finalProvider] else "Unknown Provider"
  }

  /** An empty argument is the same as no argument, for both parameters. */
  lemma EmptyArgumentsFallBack(cfg: Config, provider: Option<string>, modelId: Option<string>)
    ensures GetModel(cfg, Some(""), modelId) == GetModel(cfg, None, modelId)
    ensures GetModel(cfg, provider, Some("")) == GetModel(cfg, provider, None)
  {
  }

  /** A non-empty argument acts exactly as if the configuration had held it. */
  lemma ArgumentsOverrideConfig(cfg: Config, provider: string, modelId: string)
    requires provider != "" && modelId != ""
    ensures GetModel(cfg, Some(provider), Some(modelId)) ==
            GetModel(cfg.(model := ModelConfig(provider, modelId)), None, None)
  {
  }

  /** Each client receives only its own provider's key: the other key has
      no influence on the result. */
  lemma ClientUsesOnlyItsKey(cfg: Config, other: string, provider: Option<string>, modelId: Option<string>)
    ensures FinalProvider(cfg, provider) == "openai" ==>
      GetModel(cfg.(anthropic := AnthropicConfig(other)), provider, modelId) == GetModel(cfg, provider, modelId)
    ensures FinalProvider(cfg, provider) == "anthropic" ==>
      GetModel(cfg.(openai := OpenAIConfig(other)), provider, modelId) == GetModel(cfg, provider, modelId)
  {
  }

  /** `get_provider_name` names a provider exactly when `get_model` can
      build a client for it. */
  lemma ProviderNameMatchesGetModel(cfg: Config, provider: Option<string>, modelId: Option<string>)
    ensures GetProviderName(cfg, provider) != "Unknown Provider" <==> GetModel(cfg, provider, modelId).Ok?
  {
  }

  /** Settings lower-case the provider, so a MODEL_PROVIDER spelled in any
      case selects the same client. */
  lemma ProviderCaseInsensitive(env: Env)
    requires "MODEL_PROVIDER" in env
    requires Text.Lower(env["MODEL_PROVIDER"]) == "anthropic"
    ensures GetModel(ConfigFromEnv(env), None, None).Ok?
    ensures GetModel(ConfigFromEnv(env), None, None).value.Claude?
  {
  }

  /** Validation asks for either key, not for the selected provider's:
      selecting anthropic with only an OpenAI key passes validation and
      yields a Claude client with an empty key. */
  lemma OtherProvidersKeySuffices(openaiKey: string)
    requires openaiKey != ""
    ensures var cfg := ConfigFromEnv(map["MODEL_PROVIDER" := "anthropic", "OPENAI_API_KEY" := openaiKey]);
      && Validate(cfg).Pass?
      && GetModel(cfg, None, None) == Ok(Claude("claude-3-5-sonnet-20241022", ""))
  {
    Text.LowerKeeps("anthropic");
  }
}
