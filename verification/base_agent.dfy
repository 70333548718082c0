/** `BaseAgentBuilder.build` (backend/agents/base_agent.py): each optional
    argument independently overrides its default, `None` being the only
    trigger for the default. */
module BaseAgent {
  import opened Wrappers
  import opened Settings
  import opened Agno
  import opened ModelProvider

  /** The four required arguments. */
  datatype Required = Required(name: string, description: string, instructions: seq<string>, dbTable: string)

  /** The optional arguments; `None` is Python's `None`. */
  datatype Overrides = Overrides(
    model: Option<ModelClient>,
    db: Option<Db>,
    tools: Option<seq<Tool>>,
    users: Option<seq<string>>,
    vectorDb: Option<VectorDb>,
    knowledgeBase: Option<Knowledge>,
    embeddings: Option<Embedder>,
    addSessionStateToContext: bool,
    addDependenciesToContext: bool,
    addMemoriesToContext: bool,
    memoryConfig: Option<map<string, string>>)

  /** The signature's defaults: every optional argument `None`, every context flag true. */
  const NO_OVERRIDES := Overrides(None, None, None, None, None, None, None, true, true, true, None)

  /** The agent `build` returns, stated all at once: `get_model()` is
      consulted only when no model is supplied, so its error surfaces only then. */
  function BuiltAgent(cfg: Config, req: Required, ov: Overrides): (r: Result<Agent>)
    ensures r.Err? <==> ov.model.None? && GetModel(cfg, None, None).Err?
    ensures r.Err? ==> r.error == GetModel(cfg, None, None).error
    ensures ov.model.Some? ==> r.Ok? && r.value.model == ov.model.value
  {
    if ov.model.None? && GetModel(cfg, None, None).Err? then
      Err(GetModel(cfg, None, None).error)
    else
      Ok(Agent(
        id := Unset,
        name := req.name,
        model := if ov.model.Some? then ov.model.value else GetModel(cfg, None, None).value,
        db := if ov.db.Some? then ov.db.value else SqliteDb(cfg.database.dbFile, Some(req.dbTable)),
        tools := Set(if ov.tools.Some? then ov.tools.value else []),
        knowledge := Unset,
        description := req.description,
        instructions := req.instructions,
        addHistoryToContext := Unset,
        numHistoryRuns := Unset,
        markdown := Unset,
        addDatetimeToContext := Unset,
        addSessionStateToContext := Set(ov.addSessionStateToContext),
        addDependenciesToContext := Set(ov.addDependenciesToContext),
        addMemoriesToContext := Set(ov.addMemoriesToContext),
        vectorDb := ov.vectorDb,
        knowledgeBase := ov.knowledgeBase,
        embeddings := ov.embeddings,
        users := ov.users,
        memoryConfig := ov.memoryConfig))
  }

  /** `build`: merge the core arguments, construct the agent, then attach
      each optional attribute that was supplied. */
  method Build(cfg: Config, req: Required, ov: Overrides) returns (r: Result<Agent>)
    ensures r == BuiltAgent(cfg, req, ov)
  {
    var finalModel: ModelClient;
    if ov.model.Some? {
      finalModel := ov.model.value;
    } else {
      var m := GetModel(cfg, None, None);
      if m.Err? {
        return Err(m.error);
      }
      finalModel := m.value;
    }
    var finalDb := if ov.db.Some? then ov.db.value else SqliteDb(cfg.database.dbFile, Some(req.dbTable));
    var finalTools := if ov.tools.Some? then ov.tools.value else [];

    var agent := NewAgent(req.name, finalModel, finalDb, req.description, req.instructions).(
      tools := Set(finalTools),
      addSessionStateToContext := Set(ov.addSessionStateToContext),
      addDependenciesToContext := Set(ov.addDependenciesToContext),
      addMemoriesToContext := Set(ov.addMemoriesToContext));

    if ov.vectorDb.Some? {
      agent := agent.(vectorDb := ov.vectorDb);
    }
    if ov.knowledgeBase.Some? {
      agent := agent.(knowledgeBase := ov.knowledgeBase);
    }
    if ov.embeddings.Some? {
      agent := agent.(embeddings := ov.embeddings);
    }
    if ov.users.Some? {
      agent := agent.(users := ov.users);
    }
    if ov.memoryConfig.Some? {
      agent := agent.(memoryConfig := ov.memoryConfig);
    }
    r := Ok(agent);
  }

  /** Every supplied field is the override, every omitted one the default,
      and the required fields reach the agent unchanged. An explicitly
      empty tool list is kept as given. */
  lemma BuildMergePolicy(cfg: Config, req: Required, ov: Overrides)
    requires BuiltAgent(cfg, req, ov).Ok?
    ensures var a := BuiltAgent(cfg, req, ov).value;
      && a.name == req.name && a.description == req.description && a.instructions == req.instructions
      && (ov.model.None? ==> a.model == GetModel(cfg, None, None).value)
      && (ov.db.Some? ==> a.db == ov.db.value)
      && (ov.db.None? ==> a.db == SqliteDb(cfg.database.dbFile, Some(req.dbTable)))
      && (ov.tools.Some? ==> a.tools == Set(ov.tools.value))
      && (ov.tools.None? ==> a.tools == Set([]))
      && a.addSessionStateToContext == Set(ov.addSessionStateToContext)
      && a.addDependenciesToContext == Set(ov.addDependenciesToContext)
      && a.addMemoriesToContext == Set(ov.addMemoriesToContext)
  {
  }

  /** Each optional attribute is attached iff it was supplied, with the
      supplied value; nothing else is attached or set. */
  lemma BuildAttachesOnlySupplied(cfg: Config, req: Required, ov: Overrides)
    requires BuiltAgent(cfg, req, ov).Ok?
    ensures var a := BuiltAgent(cfg, req, ov).value;
      && (a.vectorDb.Some? <==> ov.vectorDb.Some?) && a.vectorDb == ov.vectorDb
      && (a.knowledgeBase.Some? <==> ov.knowledgeBase.Some?) && a.knowledgeBase == ov.knowledgeBase
      && (a.embeddings.Some? <==> ov.embeddings.Some?) && a.embeddings == ov.embeddings
      && (a.users.Some? <==> ov.users.Some?) && a.users == ov.users
      && (a.memoryConfig.Some? <==> ov.memoryConfig.Some?) && a.memoryConfig == ov.memoryConfig
      && a.id.Unset? && a.knowledge.Unset? && a.addHistoryToContext.Unset?
      && a.numHistoryRuns.Unset? && a.markdown.Unset? && a.addDatetimeToContext.Unset?
  {
  }

  /** Per-field independence: two calls that agree on one optional field
      produce agents that agree on that field, whatever the other fields are. */
  lemma BuildFieldsIndependent(cfg: Config, req: Required, ov1: Overrides, ov2: Overrides)
    requires BuiltAgent(cfg, req, ov1).Ok? && BuiltAgent(cfg, req, ov2).Ok?
    ensures var a1, a2 := BuiltAgent(cfg, req, ov1).value, BuiltAgent(cfg, req, ov2).value;
      && (ov1.model == ov2.model ==> a1.model == a2.model)
      && (ov1.db == ov2.db ==> a1.db == a2.db)
      && (ov1.tools == ov2.tools ==> a1.tools == a2.tools)
      && (ov1.vectorDb == ov2.vectorDb ==> a1.vectorDb == a2.vectorDb)
      && (ov1.users == ov2.users ==> a1.users == a2.users)
      && (ov1.knowledgeBase == ov2.knowledgeBase ==> a1.knowledgeBase == a2.knowledgeBase)
      && (ov1.embeddings == ov2.embeddings ==> a1.embeddings == a2.embeddings)
      && (ov1.memoryConfig == ov2.memoryConfig ==> a1.memoryConfig == a2.memoryConfig)
      && (ov1.addSessionStateToContext == ov2.addSessionStateToContext ==>
            a1.addSessionStateToContext == a2.addSessionStateToContext)
      && (ov1.addDependenciesToContext == ov2.addDependenciesToContext ==>
            a1.addDependenciesToContext == a2.addDependenciesToContext)
      && (ov1.addMemoriesToContext == ov2.addMemoriesToContext ==> a1.addMemoriesToContext == a2.addMemoriesToContext)
  {
    BuildMergePolicy(cfg, req, ov1);
    BuildMergePolicy(cfg, req, ov2);
    BuildAttachesOnlySupplied(cfg, req, ov1);
    BuildAttachesOnlySupplied(cfg, req, ov2);
  }

  /** With no optional argument the agent gets the configured model, a
      SQLite handle whose session table is the required table, no tools and
      all three context flags on. */
  lemma BuildDefaults(cfg: Config, req: Required)
    requires GetModel(cfg, None, None).Ok?
    ensures BuiltAgent(cfg, req, NO_OVERRIDES).Ok?
    ensures var a := BuiltAgent(cfg, req, NO_OVERRIDES).value;
      && a.model == GetModel(cfg, None, None).value
      && a.db == SqliteDb(cfg.database.dbFile, Some(req.dbTable))
      && a.tools == Set([])
      && a.addSessionStateToContext == Set(true)
      && a.addDependenciesToContext == Set(true)
      && a.addMemoriesToContext == Set(true)
      && a.vectorDb.None? && a.knowledgeBase.None? && a.embeddings.None? && a.users.None? && a.memoryConfig.None?
  {
  }
}
