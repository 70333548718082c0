/** Properties of an agent descriptor that the three factories and the
    runtime share. */
module AgentFacts {
  import opened Wrappers
  import opened Constants
  import opened Settings
  import opened Agno

  /** Id, name, description and instructions are copied from the record;
      the id is the record's `db_table`. */
  predicate FromRecord(a: Agent, rec: AgentRecord) {
    && a.id == Set(rec.dbTable)
    && a.name == rec.name
    && a.description == rec.description
    && a.instructions == rec.instructions
  }

  /** A SQLite handle on the configured file with no session table of its own. */
  predicate OnSharedDb(a: Agent, cfg: Config) {
    a.db == SqliteDb(cfg.database.dbFile, None)
  }

  /** History is added to the context, with a window of `runs` past runs. */
  predicate RemembersRuns(a: Agent, runs: nat) {
    a.addHistoryToContext == Set(true) && a.numHistoryRuns == Set(runs)
  }

  predicate HasNoKnowledge(a: Agent) {
    (a.knowledge.Unset? || a.knowledge.value.None?) && a.knowledgeBase.None? && a.vectorDb.None?
  }

  /** No tool list, no builder-only attribute and no builder-only context flag. */
  predicate NothingAttached(a: Agent) {
    && a.embeddings.None? && a.users.None? && a.memoryConfig.None?
    && a.addSessionStateToContext.Unset? && a.addDependenciesToContext.Unset?
    && a.addMemoriesToContext.Unset?
  }
}
