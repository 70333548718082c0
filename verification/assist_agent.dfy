/** `create_assist_agent` (backend/agents/assist_agent.py). Whether the
    library's `Knowledge(...)` construction raises is an input: `Pass` or
    `Fail` with the exception's message. */
module AssistAgent {
  import opened Wrappers
  import opened Constants
  import opened Settings
  import opened Agno
  import opened ModelProvider
  import opened AgentFacts

  /** The knowledge base the factory asks for: LanceDB table
      "agno_assist_knowledge", hybrid search, OpenAI small embedder. */
  const ASSIST_KNOWLEDGE :=
    Knowledge(LanceDb("tmp/lancedb", "agno_assist_knowledge", Hybrid, OpenAIEmbedder("text-embedding-3-small")))

  /** The `try`/`except Exception` around the knowledge construction: the
      assist knowledge base when construction succeeds, none when it raises. */
  function BestEffortKnowledge(construction: Outcome): (k: Option<Knowledge>)
    ensures k.Some? <==> construction.Pass?
    ensures k.Some? ==> k.value == ASSIST_KNOWLEDGE
  {
    match construction
    case Pass => Some(ASSIST_KNOWLEDGE)
    case Fail(_) => None
  }

  /** The documentation agent. Only `get_model()`, called outside the
      `try`, can make it fail; a failed knowledge construction leaves it
      without knowledge. */
  function CreateAssistAgent(cfg: Config, construction: Outcome): (r: Result<Agent>)
    ensures r.Ok? <==> GetModel(cfg, None, None).Ok?
    ensures r.Err? ==> r.error == GetModel(cfg, None, None).error
    ensures r.Ok? ==>
      && FromRecord(r.value, ASSIST_AGENT_CONFIG)
      && r.value.model == GetModel(cfg, None, None).value
      && OnSharedDb(r.value, cfg)
      && r.value.tools.Unset? && NothingAttached(r.value)
      && (construction.Pass? ==> r.value.knowledge == Set(Some(ASSIST_KNOWLEDGE)))
      && (construction.Fail? ==> r.value.knowledge == Set(None) && HasNoKnowledge(r.value))
      && RemembersRuns(r.value, 3)
      && r.value.addDatetimeToContext == Set(true)
      && r.value.markdown == Set(true)
  {
    var rec := ASSIST_AGENT_CONFIG;
    var db := SqliteDb(cfg.database.dbFile, None);
    var knowledge := BestEffortKnowledge(construction);
    var model :- GetModel(cfg, None, None);
    Ok(NewAgent(rec.name, model, db, rec.description, rec.instructions).(
      id := Set(rec.dbTable),
      knowledge := Set(knowledge),
      addHistoryToContext := Set(true),
      numHistoryRuns := Set(3),
      addDatetimeToContext := Set(true),
      markdown := Set(true)))
  }

  /** A failed knowledge construction changes nothing but the knowledge. */
  lemma KnowledgeFailureOnlyDropsKnowledge(cfg: Config, message: string)
    ensures CreateAssistAgent(cfg, Fail(message)).Ok? == CreateAssistAgent(cfg, Pass).Ok?
    ensures CreateAssistAgent(cfg, Pass).Ok? ==>
      CreateAssistAgent(cfg, Fail(message)).value == CreateAssistAgent(cfg, Pass).value.(knowledge := Set(None))
  {
  }
}
