/** The objects the program obtains from the `agno` library, as plain
    records of the arguments it passes to their constructors. What the
    library does with them (inference, storage, retrieval) is not part of
    this model. */
module Agno {
  import opened Wrappers

  /** `OpenAIChat(id=..., api_key=...)` and `Claude(id=..., api_key=...)`. */
  datatype ModelClient = OpenAIChat(id: string, apiKey: string) | Claude(id: string, apiKey: string)

  /** `SqliteDb(db_file=..., session_table=...)`; `None` when no session table is passed. */
  datatype Db = SqliteDb(dbFile: string, sessionTable: Option<string>)

  /** `MCPTools(transport=..., url=...)`. */
  datatype Tool = MCPTools(transport: string, url: string)

  datatype SearchType = Vector | Keyword | Hybrid

  datatype Embedder = OpenAIEmbedder(id: string)

  datatype VectorDb = LanceDb(uri: string, tableName: string, searchType: SearchType, embedder: Embedder)

  datatype Knowledge = Knowledge(vectorDb: VectorDb)

  /** A keyword argument of `Agent(...)`: left out (the library's own
      default applies) or passed with a value. */
  datatype Arg<+T> = Unset | Set(value: T)

  /** An `Agent`: the keyword arguments of its constructor, then the
      attributes a caller may attach after construction (`None` = not
      attached). */
  datatype Agent = Agent(
    id: Arg<string>,
    name: string,
    model: ModelClient,
    db: Db,
    tools: Arg<seq<Tool>>,
    knowledge: Arg<Option<Knowledge>>,
    description: string,
    instructions: seq<string>,
    addHistoryToContext: Arg<bool>,
    numHistoryRuns: Arg<nat>,
    markdown: Arg<bool>,
    addDatetimeToContext: Arg<bool>,
    addSessionStateToContext: Arg<bool>,
    addDependenciesToContext: Arg<bool>,
    addMemoriesToContext: Arg<bool>,
    vectorDb: Option<VectorDb>,
    knowledgeBase: Option<Knowledge>,
    embeddings: Option<Embedder>,
    users: Option<seq<string>>,
    memoryConfig: Option<map<string, string>>)

  /** `Agent(name=..., model=..., db=..., description=..., instructions=...)`
      with every other argument left out and nothing attached. */
  function NewAgent(name: string, model: ModelClient, db: Db, description: string, instructions: seq<string>): Agent {
    Agent(Unset, name, model, db, Unset, Unset, description, instructions,
          Unset, Unset, Unset, Unset, Unset, Unset, Unset, None, None, None, None, None)
  }

  /** `AgentOS(name=..., description=..., version=..., agents=[...])`. */
  datatype AgentOS = AgentOS(name: string, description: string, version: string, agents: seq<Agent>)
}
