/** Application constants, database/model/server defaults and the three
    literal agent records (backend/config/constants.py). */
module Constants {

  const APP_NAME := "Agno Smart Assistant"
  const APP_VERSION := "1.0.0"
  const APP_DESCRIPTION := "Multi-agent AI assistant powered by Agno"

  const DEFAULT_DB_FILE := "agno.db"
  const DEFAULT_VECTOR_DB_FILE := "vector.db"

  const DEFAULT_MODEL_PROVIDER := "openai"
  const DEFAULT_MODEL_ID := "gpt-4"

  const DEFAULT_MCP_URL := "https://docs.agno.com/mcp"

  const DEFAULT_PORT: nat := 8000
  const DEFAULT_HOST := "0.0.0.0"
  const DEFAULT_LOG_LEVEL := "info"

  /** One of the `*_AGENT_CONFIG` dictionaries; `dbTable` is the id the frontend uses. */
  datatype AgentRecord = AgentRecord(
    name: string,
    description: string,
    instructions: seq<string>,
    dbTable: string,
    showToolCalls: bool,
    addDatetimeToContext: bool)

  const CONVERSATION_AGENT_CONFIG := AgentRecord(
    "Agno Smart Assistant",
    "Main conversational agent with tool access",
    ["You are a helpful AI assistant powered by Agno.",
     "You have access to tools and can perform tasks.",
     "Always be concise, clear, and helpful."],
    "agno-smart-assistant",
    true,
    true)

  const RESEARCH_AGENT_CONFIG := AgentRecord(
    "Research Agent",
    "Specialized agent for research and analysis",
    ["You are a research specialist.",
     "Help users find, analyze, and synthesize information.",
     "Provide well-structured and detailed responses."],
    "research-agent",
    true,
    false)

  const ASSIST_AGENT_CONFIG := AgentRecord(
    "Agno Assist",
    "Documentation assistant using RAG for Agno framework questions",
    ["You help answer questions about the Agno framework.",
     "Search your knowledge before answering the question.",
     "Provide accurate answers grounded in the documentation.",
     "If information is not in the documentation, say so clearly."],
    "assist-agent",
    true,
    true)

  /** The three records in the order the runtime registers their agents. */
  const AGENT_CONFIGS := [CONVERSATION_AGENT_CONFIG, RESEARCH_AGENT_CONFIG, ASSIST_AGENT_CONFIG]

  predicate WellFormed(r: AgentRecord) {
    && r.name != ""
    && r.description != ""
    && r.dbTable != ""
    && r.instructions != []
    && forall i :: 0 <= i < |r.instructions| ==> r.instructions[i] != ""
  }

  /** No duplicate-key check exists in the program: distinctness of the
      tables is a fact about these literals. */
  lemma AgentTablesDistinct()
    ensures forall i, j :: 0 <= i < j < |AGENT_CONFIGS| ==> AGENT_CONFIGS[i].dbTable != AGENT_CONFIGS[j].dbTable
  {
  }

  lemma AgentRecordsWellFormed()
    ensures forall i :: 0 <= i < |AGENT_CONFIGS| ==> WellFormed(AGENT_CONFIGS[i])
  {
  }

  /** Only the research record turns the date-time context off. */
  lemma DatetimeFlags()
    ensures forall i :: 0 <= i < |AGENT_CONFIGS| ==>
      (AGENT_CONFIGS[i].addDatetimeToContext <==> AGENT_CONFIGS[i] != RESEARCH_AGENT_CONFIG)
  {
  }
}
