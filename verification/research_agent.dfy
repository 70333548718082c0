/** `create_research_agent` (backend/agents/research_agent.py). */
module ResearchAgent {
  import opened Wrappers
  import opened Constants
  import opened Settings
  import opened Agno
  import opened ModelProvider
  import opened AgentFacts

  const MCP_TRANSPORT := "streamable-http"

  /** The research agent: the same shape as the conversation agent plus
      exactly one MCP tool on the configured URL. */
  function CreateResearchAgent(cfg: Config): (r: Result<Agent>)
    ensures r.Ok? <==> GetModel(cfg, None, None).Ok?
    ensures r.Err? ==> r.error == GetModel(cfg, None, None).error
    ensures r.Ok? ==>
      && FromRecord(r.value, RESEARCH_AGENT_CONFIG)
      && r.value.model == GetModel(cfg, None, None).value
      && OnSharedDb(r.value, cfg)
      && r.value.tools == Set([MCPTools(MCP_TRANSPORT, cfg.agent.mcpUrl)])
      && r.value.knowledge.Unset? && HasNoKnowledge(r.value) && NothingAttached(r.value)
      && RemembersRuns(r.value, 3)
      && r.value.markdown == Set(true)
      && r.value.addDatetimeToContext.Unset?
  {
    var rec := RESEARCH_AGENT_CONFIG;
    var db := SqliteDb(cfg.database.dbFile, None);
    var mcpTools := MCPTools(MCP_TRANSPORT, cfg.agent.mcpUrl);
    var model :- GetModel(cfg, None, None);
    Ok(NewAgent(rec.name, model, db, rec.description, rec.instructions).(
      id := Set(rec.dbTable),
      tools := Set([mcpTools]),
      addHistoryToContext := Set(true),
      numHistoryRuns := Set(3),
      markdown := Set(true)))
  }
}
