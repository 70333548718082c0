/** `create_runtime` (backend/core/runtime.py): the three agents, built in
    order, registered with an `AgentOS`. */
module Runtime {
  import opened Wrappers
  import opened Constants
  import opened Settings
  import opened Agno
  import opened ModelProvider
  import opened AgentFacts
  import opened BaseAgent
  import opened ConversationAgent
  import opened ResearchAgent
  import opened AssistAgent

  /** The runtime for a configuration. The factories run before `AgentOS`
      is called, so the first failing factory leaves no runtime. */
  function AssembleRuntime(cfg: Config, construction: Outcome): (r: Result<AgentOS>)
    ensures r.Ok? <==> GetModel(cfg, None, None).Ok?
    ensures r.Err? ==> r.error == GetModel(cfg, None, None).error
    ensures r.Ok? ==>
      && r.value.name == APP_NAME && r.value.description == APP_DESCRIPTION && r.value.version == APP_VERSION
      && r.value.agents == [CreateConversationAgent(cfg).value, CreateResearchAgent(cfg).value,
                            CreateAssistAgent(cfg, construction).value]
  {
    match CreateConversationAgent(cfg)
    case Err(e) => Err(e)
    case Ok(conversation) =>
      match CreateResearchAgent(cfg)
      case Err(e) => Err(e)
      case Ok(research) =>
        match CreateAssistAgent(cfg, construction)
        case Err(e) => Err(e)
        case Ok(assist) => Ok(AgentOS(APP_NAME, APP_DESCRIPTION, APP_VERSION, [conversation, research, assist]))
  }

  /** The registered agents carry the three records' tables as ids, in
      order, so no two of them share an id. */
  lemma RuntimeIdsDistinct(cfg: Config, construction: Outcome)
    requires AssembleRuntime(cfg, construction).Ok?
    ensures var agents := AssembleRuntime(cfg, construction).value.agents;
      && |agents| == |AGENT_CONFIGS| == 3
      && (forall i :: 0 <= i < 3 ==> FromRecord(agents[i], AGENT_CONFIGS[i]))
      && (forall i, j :: 0 <= i < j < 3 ==> agents[i].id != agents[j].id)
  {
    AgentTablesDistinct();
  }

  /** Each agent gets its own SQLite handle, all equal: the same file and
      no session table, so they are told apart only by their ids. The builder, used with
      the same record, would have set the session table instead. */
  lemma RuntimeSharesOneDb(cfg: Config, construction: Outcome)
    requires AssembleRuntime(cfg, construction).Ok?
    ensures var agents := AssembleRuntime(cfg, construction).value.agents;
      && (forall i :: 0 <= i < |agents| ==> agents[i].db == SqliteDb(cfg.database.dbFile, None))
      && (forall i :: 0 <= i < |agents| ==>
            var rec := AGENT_CONFIGS[i];
            var built := BuiltAgent(cfg, Required(rec.name, rec.description, rec.instructions, rec.dbTable), NO_OVERRIDES);
            built.Ok? && built.value.db != agents[i].db)
  {
  }

  /** Knowledge is best effort: its failure never prevents the runtime and
      changes only the assist agent's knowledge. */
  lemma KnowledgeFailureKeepsRuntime(cfg: Config, message: string)
    ensures AssembleRuntime(cfg, Fail(message)).Ok? == AssembleRuntime(cfg, Pass).Ok?
    ensures AssembleRuntime(cfg, Pass).Ok? ==>
      var withKnowledge := AssembleRuntime(cfg, Pass).value.agents;
      var without := AssembleRuntime(cfg, Fail(message)).value.agents;
      && without[..2] == withKnowledge[..2]
      && without[2] == withKnowledge[2].(knowledge := Set(None))
      && HasNoKnowledge(without[2])
  {
    KnowledgeFailureOnlyDropsKnowledge(cfg, message);
  }

  /** `create_runtime()`: read the global configuration, then assemble. A
      configuration that fails validation stops startup before any agent
      is built and leaves the singleton empty. */
  method CreateRuntime(holder: ConfigSingleton, env: Env, construction: Outcome) returns (r: Result<AgentOS>)
    requires holder.Valid()
    modifies holder
    ensures holder.Valid()
    ensures old(holder.config) == null && Validate(ConfigFromEnv(env)).Fail? ==>
      r == Err(Validate(ConfigFromEnv(env)).error) && holder.config == null
    ensures old(holder.config) == null && Validate(ConfigFromEnv(env)).Pass? ==>
      && holder.config != null && fresh(holder.config)
      && holder.config.View() == ConfigFromEnv(env)
      && r == AssembleRuntime(ConfigFromEnv(env), construction)
    ensures r.Ok? ==> holder.config != null && r == AssembleRuntime(holder.config.View(), construction)
    ensures old(holder.config) != null ==>
      holder.config == old(holder.config) && r == AssembleRuntime(holder.config.View(), construction)
  {
    var config :- holder.GetConfig(env);
    r := AssembleRuntime(config.View(), construction);
  }
}
