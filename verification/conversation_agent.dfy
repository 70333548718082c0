/** `create_conversation_agent` (backend/agents/conversation_agent.py). */
module ConversationAgent {
  import opened Wrappers
  import opened Constants
  import opened Settings
  import opened Agno
  import opened ModelProvider
  import opened AgentFacts

  /** The general-purpose agent: configured model, shared SQLite file, no
      tools, no knowledge, the last three runs in context, markdown on. */
  function CreateConversationAgent(cfg: Config): (r: Result<Agent>)
    ensures r.Ok? <==> GetModel(cfg, None, None).Ok?
    ensures r.Err? ==> r.error == GetModel(cfg, None, None).error
    ensures r.Ok? ==>
      && FromRecord(r.value, CONVERSATION_AGENT_CONFIG)
      && r.value.model == GetModel(cfg, None, None).value
      && OnSharedDb(r.value, cfg)
      && r.value.tools.Unset? && r.value.knowledge.Unset? && HasNoKnowledge(r.value) && NothingAttached(r.value)
      && RemembersRuns(r.value, 3)
      && r.value.markdown == Set(true)
      && r.value.addDatetimeToContext.Unset?
  {
    var rec := CONVERSATION_AGENT_CONFIG;
    var db := SqliteDb(cfg.database.dbFile, None);
    var model :- GetModel(cfg, None, None);
    Ok(NewAgent(rec.name, model, db, rec.description, rec.instructions).(
      id := Set(rec.dbTable),
      addHistoryToContext := Set(true),
      numHistoryRuns := Set(3),
      markdown := Set(true)))
  }
}
