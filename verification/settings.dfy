/** Typed configuration read from the environment, its validation, its
    masked dictionary form and the global instance
    (backend/config/settings.py). The process environment is an explicit
    map; a variable that is present but empty differs from an absent one. */
module Settings {
  import opened Wrappers
  import opened Text
  import opened Constants

  type Env = map<string, string>

  datatype OpenAIConfig = OpenAIConfig(apiKey: string)
  datatype AnthropicConfig = AnthropicConfig(apiKey: string)
  datatype DatabaseConfig = DatabaseConfig(dbFile: string, vectorDbFile: string)
  datatype ModelConfig = ModelConfig(provider: string, modelId: string)
  datatype AgentConfig = AgentConfig(modelId: string, mcpUrl: string)
  datatype ServerConfig = ServerConfig(host: string, port: int, reload: bool, logLevel: string)

  /** The value of `name` when it is set, even to the empty string. */
  function Getenv(env: Env, name: string, default: string): (v: string)
    ensures name in env ==> v == env[name]
    ensures name !in env ==> v == default
  {
    if name in env then env[name] else default
  }

  function OpenAIFromEnv(env: Env): (c: OpenAIConfig)
    ensures "OPENAI_API_KEY" in env ==> c.apiKey == env["OPENAI_API_KEY"]
    ensures "OPENAI_API_KEY" !in env ==> c.apiKey == ""
  {
    OpenAIConfig(Getenv(env, "OPENAI_API_KEY", ""))
  }

  function AnthropicFromEnv(env: Env): (c: AnthropicConfig)
    ensures "ANTHROPIC_API_KEY" in env ==> c.apiKey == env["ANTHROPIC_API_KEY"]
    ensures "ANTHROPIC_API_KEY" !in env ==> c.apiKey == ""
  {
    AnthropicConfig(Getenv(env, "ANTHROPIC_API_KEY", ""))
  }

  function DatabaseFromEnv(env: Env): (c: DatabaseConfig)
    ensures c.dbFile == (if "AGNO_DB_FILE" in env then env["AGNO_DB_FILE"] else "agno.db")
    ensures c.vectorDbFile == (if "VECTOR_DB_FILE" in env then env["VECTOR_DB_FILE"] else "vector.db")
  {
    DatabaseConfig(Getenv(env, "AGNO_DB_FILE", DEFAULT_DB_FILE),
                   Getenv(env, "VECTOR_DB_FILE", DEFAULT_VECTOR_DB_FILE))
  }

  /** The per-provider default model ids of `ModelConfig.from_env`. */
  const DEFAULT_MODELS: map<string, string> :=
    map["openai" := "gpt-4", "anthropic" := "claude-3-5-sonnet-20241022"]

  /** `os.getenv("MODEL_PROVIDER", "openai").lower()` */
  function ProviderFromEnv(env: Env): string {
    Lower(Getenv(env, "MODEL_PROVIDER", "openai"))
  }

  /** `os.getenv("MODEL_ID", default_models.get(provider, "gpt-4"))` */
  function ModelIdFromEnv(env: Env, provider: string): string {
    Getenv(env, "MODEL_ID", if provider in DEFAULT_MODELS then DEFAULT_MODELS[provider] else "gpt-4")
  }

  /** The provider is MODEL_PROVIDER lower-cased, "openai" when absent.
      MODEL_ID wins whenever it is set, even to the empty string; otherwise
      anthropic gets its Claude default and every other provider gpt-4. */
  function ModelFromEnv(env: Env): (m: ModelConfig)
    ensures "MODEL_PROVIDER" !in env ==> m.provider == "openai"
    ensures "MODEL_PROVIDER" in env ==> m.provider == Lower(env["MODEL_PROVIDER"])
    ensures "MODEL_ID" in env ==> m.modelId == env["MODEL_ID"]
    ensures "MODEL_ID" !in env && m.provider == "anthropic" ==> m.modelId == "claude-3-5-sonnet-20241022"
    ensures "MODEL_ID" !in env && m.provider != "anthropic" ==> m.modelId == "gpt-4"
  {
    LowerKeeps("openai");
    var provider := ProviderFromEnv(env);
    ModelConfig(provider, ModelIdFromEnv(env, provider))
  }

  function AgentFromEnv(env: Env): (c: AgentConfig)
    ensures c.modelId == (if "AGNO_MODEL_ID" in env then env["AGNO_MODEL_ID"] else "gpt-4")
    ensures c.mcpUrl == (if "AGNO_MCP_URL" in env then env["AGNO_MCP_URL"] else "https://docs.agno.com/mcp")
  {
    AgentConfig(Getenv(env, "AGNO_MODEL_ID", DEFAULT_MODEL_ID),
                Getenv(env, "AGNO_MCP_URL", DEFAULT_MCP_URL))
  }

  /** The values of RELOAD that switch auto-reload on, after lower-casing. */
  const RELOAD_ON: set<string> := {"true", "1", "yes"}

  /** `os.getenv("RELOAD", "true").lower() in ("true", "1", "yes")`: on iff
      the lower-cased RELOAD is one of those, and on when RELOAD is absent. */
  function ReloadFromEnv(env: Env): (on: bool)
    ensures "RELOAD" !in env ==> on
    ensures "RELOAD" in env ==> (on <==> Lower(env["RELOAD"]) in RELOAD_ON)
  {
    LowerKeeps("true");
    Lower(Getenv(env, "RELOAD", "true")) in RELOAD_ON
  }

  /** `int(os.getenv("PORT", str(DEFAULT_PORT)))`, with DEFAULT_PORT when
      `int` raises `ValueError`: the integer PORT denotes, and DEFAULT_PORT
      when PORT is absent or not an integer. */
  function PortFromEnv(env: Env): (p: int)
    ensures "PORT" !in env ==> p == DEFAULT_PORT
    ensures "PORT" in env && ParseInt(env["PORT"]).Some? ==> p == ParseInt(env["PORT"]).value
    ensures "PORT" in env && ParseInt(env["PORT"]).None? ==> p == DEFAULT_PORT
  {
    ParseIntOfNatToString(DEFAULT_PORT);
    match ParseInt(Getenv(env, "PORT", NatToString(DEFAULT_PORT)))
    case Some(p) => p
    case None => DEFAULT_PORT
  }

  function ServerFromEnv(env: Env): (c: ServerConfig)
    ensures c.host == (if "HOST" in env then env["HOST"] else "0.0.0.0")
    ensures c.logLevel == (if "LOG_LEVEL" in env then env["LOG_LEVEL"] else "info")
    ensures c.port == PortFromEnv(env) && c.reload == ReloadFromEnv(env)
  {
    ServerConfig(Getenv(env, "HOST", DEFAULT_HOST), PortFromEnv(env), ReloadFromEnv(env),
                 Getenv(env, "LOG_LEVEL", DEFAULT_LOG_LEVEL))
  }

  /** Two spellings of MODEL_PROVIDER that differ only in case select the
      same provider and the same default model. */
  lemma ModelFromEnvIgnoresCase(env1: Env, env2: Env)
    requires "MODEL_PROVIDER" in env1 && "MODEL_PROVIDER" in env2
    requires Lower(env1["MODEL_PROVIDER"]) == Lower(env2["MODEL_PROVIDER"])
    requires Getenv(env1, "MODEL_ID", "") == Getenv(env2, "MODEL_ID", "")
    requires ("MODEL_ID" in env1) == ("MODEL_ID" in env2)
    ensures ModelFromEnv(env1) == ModelFromEnv(env2)
  {
  }

  /** A RELOAD written in lower case switches reload on exactly when it is
      literally "true", "1" or "yes". */
  lemma ReloadSetting(env: Env)
    requires "RELOAD" in env && NoUpper(env["RELOAD"])
    ensures ServerFromEnv(env).reload <==> env["RELOAD"] in RELOAD_ON
  {
    LowerKeeps(env["RELOAD"]);
  }

  /** The resolved `AppConfig`: every sub-configuration present. */
  datatype Config = Config(
    name: string,
    version: string,
    description: string,
    openai: OpenAIConfig,
    anthropic: AnthropicConfig,
    model: ModelConfig,
    database: DatabaseConfig,
    agent: AgentConfig,
    server: ServerConfig)

  /** `AppConfig.from_env()` before validation: the application constants,
      a provider without upper-case letters, and both keys empty exactly
      when neither key variable holds a non-empty value. */
  function ConfigFromEnv(env: Env): (c: Config)
    ensures c.name == APP_NAME && c.version == APP_VERSION && c.description == APP_DESCRIPTION
    ensures c.openai == OpenAIFromEnv(env) && c.anthropic == AnthropicFromEnv(env) && c.model == ModelFromEnv(env)
    ensures c.database == DatabaseFromEnv(env) && c.agent == AgentFromEnv(env) && c.server == ServerFromEnv(env)
    ensures NoUpper(c.model.provider)
    ensures c.openai.apiKey == "" && c.anthropic.apiKey == "" <==>
      ("OPENAI_API_KEY" !in env || env["OPENAI_API_KEY"] == "") &&
      ("ANTHROPIC_API_KEY" !in env || env["ANTHROPIC_API_KEY"] == "")
  {
    Config(APP_NAME, APP_VERSION, APP_DESCRIPTION,
           OpenAIFromEnv(env), AnthropicFromEnv(env), ModelFromEnv(env),
           DatabaseFromEnv(env), AgentFromEnv(env), ServerFromEnv(env))
  }

  const NO_API_KEY_PREFIX :=
    "\U{274C} No API key configured.\n   Set either OPENAI_API_KEY or ANTHROPIC_API_KEY\n   Current provider: "

  /** The check at the end of `__post_init__`: at least one key is non-empty. */
  function Validate(c: Config): (o: Outcome)
    ensures o.Fail? <==> c.openai.apiKey == "" && c.anthropic.apiKey == ""
    ensures o.Fail? ==>
      (|o.error| >= |c.model.provider| && o.error[|o.error| - |c.model.provider|..] == c.model.provider)
  {
    if c.openai.apiKey == "" && c.anthropic.apiKey == "" then
      Fail(NO_API_KEY_PREFIX + c.model.provider)
    else
      Pass
  }

  /** With nothing set but one key, every setting takes its documented default. */
  lemma DefaultsWithOnlyAKey(key: string)
    requires key != ""
    ensures var c := ConfigFromEnv(map["OPENAI_API_KEY" := key]);
      && Validate(c).Pass?
      && c.model == ModelConfig("openai", "gpt-4")
      && c.database == DatabaseConfig("agno.db", "vector.db")
      && c.agent == AgentConfig("gpt-4", "https://docs.agno.com/mcp")
      && c.server == ServerConfig("0.0.0.0", 8000, true, "info")
    ensures var c := ConfigFromEnv(map["ANTHROPIC_API_KEY" := key]);
      && Validate(c).Pass?
      && c.model == ModelConfig("openai", "gpt-4")
      && c.database == DatabaseConfig("agno.db", "vector.db")
      && c.agent == AgentConfig("gpt-4", "https://docs.agno.com/mcp")
      && c.server == ServerConfig("0.0.0.0", 8000, true, "info")
  {
  }

  // ---------------------------------------------------------------------
  // to_dict

  datatype Scalar = Str(s: string) | Int(i: int) | Bool(b: bool)

  type Dict = map<string, map<string, Scalar>>

  /** Python's `s[-n:]` for n > 0. */
  function LastChars(s: string, n: nat): string
    requires n > 0
  {
    if |s| <= n then s else s[|s| - n..]
  }

  function Min(a: nat, b: nat): nat {
    if a <= b then a else b
  }

  /** The masked form `to_dict` shows for an API key: "***" followed by
      "NOT SET" for an empty key, else by the key's last min(4, |key|)
      characters. For a non-empty key the mask has at most 7 characters, so
      a key longer than that never occurs in it; some shorter keys do (see
      `MaskCanShowKey`). */
  function Mask(key: string): (m: string)
    ensures |m| >= 4 && m[..3] == "***"
    ensures key == "" ==> m == "***NOT SET"
    ensures key != "" ==> |m| == 3 + Min(4, |key|)
    ensures key != "" ==> m[3..] == key[|key| - Min(4, |key|)..]
    ensures |key| > 4 ==> m[3..] != key
    ensures |key| > 7 ==> forall i, j :: 0 <= i <= j <= |m| ==> m[i..j] != key
  {
    "***" + (if key != "" then LastChars(key, 4) else "NOT SET")
  }

  /** Keys of five to seven characters made of leading '*'s and four more
      characters occur in their own masks, so masking does not hide every key. */
  lemma MaskCanShowKey()
    ensures Mask("*abcd") == "***abcd" && Mask("*abcd") == "**" + "*abcd"
    ensures Mask("**abcd") == "***abcd" && Mask("**abcd") == "*" + "**abcd"
    ensures Mask("***abcd") == "***abcd"
  {
  }

  function ToDict(c: Config): (d: Dict)
    ensures d.Keys == {"app", "model", "openai", "anthropic", "database", "agent", "server"}
    ensures d["openai"] == map["api_key" := Str(Mask(c.openai.apiKey))]
    ensures d["anthropic"] == map["api_key" := Str(Mask(c.anthropic.apiKey))]
    ensures d["app"] == map["name" := Str(c.name), "version" := Str(c.version), "description" := Str(c.description)]
    ensures d["model"] == map["provider" := Str(c.model.provider), "model_id" := Str(c.model.modelId)]
    ensures d["database"] == map["db_file" := Str(c.database.dbFile), "vector_db_file" := Str(c.database.vectorDbFile)]
    ensures d["agent"] == map["model_id" := Str(c.agent.modelId), "mcp_url" := Str(c.agent.mcpUrl)]
    ensures d["server"] == map["host" := Str(c.server.host), "port" := Int(c.server.port),
                               "reload" := Bool(c.server.reload), "log_level" := Str(c.server.logLevel)]
  {
    map[
      "app" := map["name" := Str(c.name), "version" := Str(c.version), "description" := Str(c.description)],
      "model" := map["provider" := Str(c.model.provider), "model_id" := Str(c.model.modelId)],
      "openai" := map["api_key" := Str(Mask(c.openai.apiKey))],
      "anthropic" := map["api_key" := Str(Mask(c.anthropic.apiKey))],
      "database" := map["db_file" := Str(c.database.dbFile), "vector_db_file" := Str(c.database.vectorDbFile)],
      "agent" := map["model_id" := Str(c.agent.modelId), "mcp_url" := Str(c.agent.mcpUrl)],
      "server" := map["host" := Str(c.server.host), "port" := Int(c.server.port),
                      "reload" := Bool(c.server.reload), "log_level" := Str(c.server.logLevel)]
    ]
  }

  // ---------------------------------------------------------------------
  // AppConfig and its __post_init__

  /** `field if field is not None else from_env` */
  function Filled<T>(field: Option<T>, fromEnv: T): Option<T> {
    if field.Some? then field else Some(fromEnv)
  }

  /** The `AppConfig` dataclass: sub-configurations are `None` until
      `PostInit` fills them in. */
  class AppConfig {
    var name: string
    var version: string
    var description: string
    var openai: Option<OpenAIConfig>
    var anthropic: Option<AnthropicConfig>
    var model: Option<ModelConfig>
    var database: Option<DatabaseConfig>
    var agent: Option<AgentConfig>
    var server: Option<ServerConfig>

    /** The dataclass `__init__`: stores its arguments. */
    constructor (name: string, version: string, description: string,
                 openai: Option<OpenAIConfig>, anthropic: Option<AnthropicConfig>,
                 model: Option<ModelConfig>, database: Option<DatabaseConfig>,
                 agent: Option<AgentConfig>, server: Option<ServerConfig>)
      ensures this.name == name && this.version == version && this.description == description
      ensures this.openai == openai && this.anthropic == anthropic && this.model == model
      ensures this.database == database && this.agent == agent && this.server == server
    {
      this.name, this.version, this.description := name, version, description;
      this.openai, this.anthropic, this.model := openai, anthropic, model;
      this.database, this.agent, this.server := database, agent, server;
    }

    predicate Complete()
      reads this
    {
      openai.Some? && anthropic.Some? && model.Some? && database.Some? && agent.Some? && server.Some?
    }

    function View(): Config
      reads this
      requires Complete()
    {
      Config(name, version, description, openai.value, anthropic.value, model.value,
             database.value, agent.value, server.value)
    }

    /** `__post_init__`: each missing sub-configuration is read from the
        environment, supplied ones are kept, then the keys are validated. */
    method PostInit(env: Env) returns (o: Outcome)
      modifies this
      ensures name == old(name) && version == old(version) && description == old(description)
      ensures openai == Filled(old(openai), OpenAIFromEnv(env))
      ensures anthropic == Filled(old(anthropic), AnthropicFromEnv(env))
      ensures model == Filled(old(model), ModelFromEnv(env))
      ensures database == Filled(old(database), DatabaseFromEnv(env))
      ensures agent == Filled(old(agent), AgentFromEnv(env))
      ensures server == Filled(old(server), ServerFromEnv(env))
      ensures Complete() && o == Validate(View())
    {
      openai := Filled(openai, OpenAIFromEnv(env));
      anthropic := Filled(anthropic, AnthropicFromEnv(env));
      model := Filled(model, ModelFromEnv(env));
      database := Filled(database, DatabaseFromEnv(env));
      agent := Filled(agent, AgentFromEnv(env));
      server := Filled(server, ServerFromEnv(env));
      o := Validate(View());
    }
  }

  /** `AppConfig.from_env()`: construction runs `__post_init__`, whose error
      escapes and leaves no configuration behind. */
  method AppConfigFromEnv(env: Env) returns (r: Result<AppConfig>)
    ensures r.Ok? ==> fresh(r.value) && r.value.Complete() && r.value.View() == ConfigFromEnv(env)
    ensures r.Ok? <==> Validate(ConfigFromEnv(env)).Pass?
    ensures r.Err? ==> Validate(ConfigFromEnv(env)) == Fail(r.error)
  {
    var c := new AppConfig(APP_NAME, APP_VERSION, APP_DESCRIPTION,
                           Some(OpenAIFromEnv(env)), Some(AnthropicFromEnv(env)),
                           Some(ModelFromEnv(env)), Some(DatabaseFromEnv(env)),
                           Some(AgentFromEnv(env)), Some(ServerFromEnv(env)));
    var o := c.PostInit(env);
    if o.Fail? {
      return Err(o.error);
    }
    return Ok(c);
  }

  // ---------------------------------------------------------------------
  // get_config / reset_config

  /** The module-global `_config` behind `get_config` and `reset_config`. */
  class ConfigSingleton {
    var config: AppConfig?

    ghost predicate Valid()
      reads this, config
    {
      config != null ==> config.Complete() && Validate(config.View()).Pass?
    }

    constructor ()
      ensures config == null && Valid()
    {
      config := null;
    }

    /** The first call builds the configuration; later calls return the
        same instance. A failed build stores nothing. */
    method GetConfig(env: Env) returns (r: Result<AppConfig>)
      requires Valid()
      modifies this
      ensures Valid()
      ensures old(config) != null ==> r == Ok(old(config)) && config == old(config)
      ensures old(config) == null && r.Ok? ==>
        fresh(r.value) && config == r.value && r.value.View() == ConfigFromEnv(env)
      ensures old(config) == null ==> (r.Ok? <==> Validate(ConfigFromEnv(env)).Pass?)
      ensures r.Err? ==> config == null && Validate(ConfigFromEnv(env)) == Fail(r.error)
    {
      if config == null {
        r := AppConfigFromEnv(env);
        if r.Ok? {
          config := r.value;
        }
      } else {
        r := Ok(config);
      }
    }

    /** The next `GetConfig` reads the environment again. */
    method ResetConfig()
      modifies this
      ensures config == null && Valid()
    {
      config := null;
    }
  }

  /** The lifecycle `get_config` promises: the same instance until
      `reset_config`, a new one read from the environment after it. */
  method SingletonLifecycle(env: Env) returns (first: AppConfig, second: AppConfig, third: AppConfig)
    requires Validate(ConfigFromEnv(env)).Pass?
    ensures first == second && third != first
    ensures first.Complete() && third.Complete() && third.View() == first.View()
  {
    var holder := new ConfigSingleton();
    var r1 := holder.GetConfig(env);
    var r2 := holder.GetConfig(env);
    holder.ResetConfig();
    var r3 := holder.GetConfig(env);
    first, second, third := r1.value, r2.value, r3.value;
  }
}
