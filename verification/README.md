# Agno Smart Assistant: configuration and agent assembly, in Dafny

This project models the deterministic layer of the Agno Smart Assistant backend.
That layer turns the process environment into a validated application
configuration. It resolves the configured LLM provider into a model client. It
merges builder overrides with defaults. It assembles the three fixed agents
(conversation, research, documentation assist) into one `AgentOS` runtime.

Objects of the `agno` library (`Agent`, `SqliteDb`, `OpenAIChat`, `Claude`,
`MCPTools`, `LanceDb`, `Knowledge`, `AgentOS`) are plain records of the
arguments the program passes to them (module `Agno`). A keyword argument a call
site leaves out is `Unset`, because its value is then the library's default.

Modules and files:

- `wrappers.dfy` (`Wrappers`): `Option`, `Result` (an `Err` is a raised exception), `Outcome`.
- `text.dfy` (`Text`): ASCII `str.lower()`, `int()` on a sign and decimal digits, `str()` of a natural number.
- `constants.dfy` (`Constants`): the defaults and the three agent records of `config/constants.py`.
- `settings.dfy` (`Settings`): the `*Config.from_env` factories over an environment map.
  It also holds the resolved configuration `Config`, validation, `to_dict` with key masking,
  the `AppConfig` class with its imperative `__post_init__`, and the `_config` singleton as the class `ConfigSingleton`.
- `model_provider.dfy` (`ModelProvider`): `get_model` and `get_provider_name`.
- `base_agent.dfy` (`BaseAgent`): `BaseAgentBuilder.build`.
  `BuiltAgent` states the result; the method `Build` constructs the agent and then attaches optional attributes one by one, and is proved equal to it.
- `agent_facts.dfy` (`AgentFacts`): predicates shared by the factories (copied from a record, shared database, history window).
- `conversation_agent.dfy`, `research_agent.dfy`, `assist_agent.dfy`: the three factories.
- `runtime.dfy` (`Runtime`): `create_runtime`.

The environment is a `map<string, string>`. A variable set to the empty string is
present, so it overrides the default: `MODEL_ID=""` yields the model id `""`.
The pure functions receive the configuration that `get_config()` returns as an
explicit `cfg` argument. This is sound because `ConfigSingleton.GetConfig`
returns the cached instance on every call after the first. `Runtime.CreateRuntime`
makes the first call.

What the code does not do:

- Agent ids are not checked for duplicates at run time. Distinct ids are a fact about the constant records (`Constants.AgentTablesDistinct`, `Runtime.RuntimeIdsDistinct`).
- Each factory passes `id=db_table` and builds its own `SqliteDb` on the configured file with no session table (backend/agents/conversation_agent.py:54, backend/agents/research_agent.py:67, backend/agents/assist_agent.py:77). Only the builder sets `session_table` (`Runtime.RuntimeSharesOneDb`).
- Validation asks for either API key, not for the selected provider's key (`ModelProvider.OtherProvidersKeySuffices`).
- The conversation agent gets no tools, although its docstring promises "Access to all MCP tools" (backend/agents/conversation_agent.py:9).
- The research agent passes no memory flag either way; its docstring says "No memories" (backend/agents/research_agent.py:51), and whether memories are off is left to the library default.
- The records' `show_tool_calls` and `add_datetime_to_context` values are never passed to an agent; only the assist factory sets `add_datetime_to_context=True` itself.

## Model

| member | source | states |
|---|---|---|
| `Text.Lower` | backend/config/settings.py:161 | lower-casing keeps the length, turns each ASCII upper-case letter into its lower-case letter (code point + 32) and keeps every other character |
| `Text.LowerKeeps` | backend/config/settings.py:235 | a string without upper-case letters is unchanged by lower-casing |
| `Text.LowerIdempotent` | backend/config/settings.py:161 | lower-casing twice is lower-casing once |
| `Text.ParseInt` | backend/config/settings.py:239-242 | `int()` succeeds iff what follows an optional `+` or `-` is a non-empty run of digits (a bare sign fails), and then gives the digits' value, negated after `-`; CPython's 4300-digit limit is not modelled |
| `Text.NatToString` | backend/config/settings.py:238 | `str(n)` is a non-empty run of digits with no leading zero |
| `Text.DigitsValueOfNatToString` | backend/config/settings.py:238-240 | the digits `str(n)` prints denote `n` |
| `Text.ParseIntOfNatToString` | backend/config/settings.py:238-240 | `int(str(n)) == n`, also behind a `+` or `-` sign |
| `Constants.AgentTablesDistinct` | backend/config/constants.py:51-89 | the three `db_table` ids are pairwise distinct |
| `Constants.AgentRecordsWellFormed` | backend/config/constants.py:51-89 | every agent record has a non-empty name, description, table and instruction list, and no empty instruction |
| `Constants.DatetimeFlags` | backend/config/constants.py:61-88 | `add_datetime_to_context` is false exactly for the research record |
| `Settings.Getenv` | backend/config/settings.py:74 | `os.getenv`: the variable's value when it is set, even to `""`, else the default |
| `Settings.OpenAIFromEnv` | backend/config/settings.py:63-75 | the key is `OPENAI_API_KEY` when set, `""` when absent |
| `Settings.AnthropicFromEnv` | backend/config/settings.py:89-101 | the key is `ANTHROPIC_API_KEY` when set, `""` when absent |
| `Settings.DatabaseFromEnv` | backend/config/settings.py:117-131 | `AGNO_DB_FILE` and `VECTOR_DB_FILE` when set, `agno.db` and `vector.db` when absent |
| `Settings.ModelFromEnv` | backend/config/settings.py:147-174 | the provider is the lower-cased `MODEL_PROVIDER`, `"openai"` when absent; `MODEL_ID` wins when set, otherwise the Claude default for anthropic and `gpt-4` for every other provider |
| `Settings.AgentFromEnv` | backend/config/settings.py:190-204 | `AGNO_MODEL_ID` and `AGNO_MCP_URL` when set, `gpt-4` and `https://docs.agno.com/mcp` when absent |
| `Settings.ReloadFromEnv` | backend/config/settings.py:235-236 | reload is on iff the lower-cased `RELOAD` is `true`, `1` or `yes`; an absent `RELOAD` turns it on |
| `Settings.PortFromEnv` | backend/config/settings.py:238-242 | the port is the parsed `PORT`, or 8000 when `PORT` is absent or does not parse |
| `Settings.ServerFromEnv` | backend/config/settings.py:222-249 | `HOST` and `LOG_LEVEL` when set, `0.0.0.0` and `info` when absent; port and reload are those of `PortFromEnv` and `ReloadFromEnv` |
| `Settings.ModelFromEnvIgnoresCase` | backend/config/settings.py:161-174 | provider spellings equal up to case give the same model configuration |
| `Settings.ReloadSetting` | backend/config/settings.py:235-236 | a `RELOAD` without upper-case letters turns reload on iff it is literally `true`, `1` or `yes` |
| `Settings.ConfigFromEnv` | backend/config/settings.py:300-320 | the configuration carries the application's name, version and description, each sub-configuration is its `from_env` result, and the provider has no upper-case letter; both keys are empty iff neither key variable holds a non-empty value |
| `Settings.Validate` | backend/config/settings.py:291-297 | validation fails iff both API keys are empty, with a message that ends with the current provider |
| `Settings.DefaultsWithOnlyAKey` | backend/config/constants.py:22-45 | with only `OPENAI_API_KEY` or only `ANTHROPIC_API_KEY` set, the configuration holds the documented defaults (`agno.db`, `vector.db`, `gpt-4`, the MCP URL, `0.0.0.0`, 8000, reload on, `info`) |
| `Settings.Mask` | backend/config/settings.py:342-343 | a mask is `***` plus `NOT SET` or the key's last min(4, length) characters; a key longer than 4 is never the mask's tail, and a key longer than 7 occurs nowhere in it |
| `Settings.MaskCanShowKey` | backend/config/settings.py:342 | the keys `*abcd`, `**abcd` and `***abcd` each occur in their masks |
| `Settings.ToDict` | backend/config/settings.py:322-358 | `to_dict` has exactly the seven sections; the two key sections hold only the masked keys and the other five copy every field of the configuration under its own name |
| `Settings.AppConfig.constructor` | backend/config/settings.py:263-271 | the dataclass initialiser stores its arguments, sub-configurations possibly `None` |
| `Settings.AppConfig.PostInit` | backend/config/settings.py:273-297 | fills exactly the missing sub-configurations from the environment, keeps supplied ones, then fails iff both keys are empty |
| `Settings.AppConfigFromEnv` | backend/config/settings.py:299-320 | a fresh, complete configuration equal to the environment's, or the validation error |
| `Settings.ConfigSingleton.constructor` | backend/config/settings.py:365 | the global starts empty |
| `Settings.ConfigSingleton.GetConfig` | backend/config/settings.py:368-388 | the first call builds and caches the configuration, later calls return the same instance, and a failed build caches nothing |
| `Settings.ConfigSingleton.ResetConfig` | backend/config/settings.py:391-401 | clears the cached instance |
| `Settings.SingletonLifecycle` | backend/config/settings.py:368-401 | two calls return one instance; after a reset the next call returns a different instance with the same contents |
| `ModelProvider.GetModel` | backend/config/model_provider.py:33-79 | succeeds iff the resolved provider is openai or anthropic; the client carries the resolved model id and only its own provider's key; otherwise the error names the provider and the supported set |
| `ModelProvider.GetProviderName` | backend/config/model_provider.py:82-99 | never fails; openai is named `OpenAI ChatGPT`, anthropic `Anthropic Claude`, and `Unknown Provider` is returned iff the resolved provider is unsupported |
| `ModelProvider.EmptyArgumentsFallBack` | backend/config/model_provider.py:62-63 | `None` and `""` both fall back to the configuration, for provider and model id |
| `ModelProvider.ArgumentsOverrideConfig` | backend/config/model_provider.py:62-63 | non-empty arguments act as if the configuration held them |
| `ModelProvider.ClientUsesOnlyItsKey` | backend/config/model_provider.py:65-74 | the other provider's key never influences the client |
| `ModelProvider.ProviderNameMatchesGetModel` | backend/config/model_provider.py:92-99 | the display name is known iff `get_model` builds a client |
| `ModelProvider.ProviderCaseInsensitive` | backend/config/settings.py:161 | `MODEL_PROVIDER` in any case spelling of anthropic selects a Claude client |
| `ModelProvider.OtherProvidersKeySuffices` | backend/config/settings.py:291-297 | selecting anthropic with only an OpenAI key passes validation and gives Claude an empty key |
| `BaseAgent.Build` | backend/agents/base_agent.py:144-186 | the step-by-step construction and attachment equals the declarative merge `BuiltAgent` |
| `BaseAgent.BuiltAgent` | backend/agents/base_agent.py:148-186 | building fails iff no model is supplied and `get_model()` fails, with its error; a supplied model is used as given |
| `BaseAgent.BuildMergePolicy` | backend/agents/base_agent.py:148-172 | each supplied field is the override and each omitted one the default; an empty tool list is kept; name, description, instructions and the three flags pass through |
| `BaseAgent.BuildAttachesOnlySupplied` | backend/agents/base_agent.py:174-184 | each optional attribute is attached iff supplied, with its value, and no other argument is set |
| `BaseAgent.BuildFieldsIndependent` | backend/agents/base_agent.py:146-184 | two calls agreeing on any one of the eleven optional arguments give agents agreeing on the field it sets |
| `BaseAgent.BuildDefaults` | backend/agents/base_agent.py:72-84 | with no overrides: the configured model, SQLite with `session_table = db_table`, no tools, all context flags on, nothing attached |
| `ConversationAgent.CreateConversationAgent` | backend/agents/conversation_agent.py:51-67 | fails iff `get_model()` fails; otherwise id and texts from the record, shared SQLite without a session table, no tools, the knowledge argument left out, history window 3, markdown |
| `ResearchAgent.CreateResearchAgent` | backend/agents/research_agent.py:64-89 | as the conversation agent, plus exactly one streamable-http MCP tool on the configured URL; no datetime flag |
| `AssistAgent.CreateAssistAgent` | backend/agents/assist_agent.py:74-108 | fails iff `get_model()` fails, whatever the knowledge outcome; knowledge is the hybrid LanceDB base on success and `None` on failure; history window 3, datetime on, no tools |
| `AssistAgent.BestEffortKnowledge` | backend/agents/assist_agent.py:80-101 | the hybrid LanceDB knowledge base when its construction succeeds, none when it raises |
| `AssistAgent.KnowledgeFailureOnlyDropsKnowledge` | backend/agents/assist_agent.py:80-101 | a failed knowledge construction changes nothing but `knowledge`, which becomes `None` |
| `Runtime.AssembleRuntime` | backend/core/runtime.py:49-63 | a runtime exists iff `get_model()` succeeds; it has the app name, description and version and exactly the three agents in order |
| `Runtime.RuntimeIdsDistinct` | backend/core/runtime.py:53-62 | the registered agents copy the three records in order and have pairwise distinct ids |
| `Runtime.RuntimeSharesOneDb` | backend/core/runtime.py:53-55 | every agent gets an equal SQLite handle on the configured file with no session table, unlike what the builder would give them |
| `Runtime.KnowledgeFailureKeepsRuntime` | backend/core/runtime.py:53-62 | a knowledge failure never prevents the runtime and changes only the assist agent's knowledge |
| `Runtime.CreateRuntime` | backend/core/runtime.py:30-63 | on a first call, a configuration without keys stops startup before any agent is built and leaves the global empty; a valid one is cached as a fresh object equal to the environment's configuration and the runtime is assembled from it; a later call reuses the cached configuration |

## Left out

- `.env` loading and `os.getenv`: the environment is a map parameter.
- Text.ParseInt: Python's `int()` also accepts surrounding whitespace, `_` between digits and non-ASCII digits. So `PORT=" 9000"` gives 8000 here and 9000 in Python. In the other direction, CPython (3.11 on, and the 3.8.14, 3.9.14 and 3.10.7 security releases) rejects a decimal string of more than 4300 digits with `ValueError`, which the model does not: a `PORT` of 4301 digits gives 8000 in Python and the digits' value here.
- Text.Lower: only ASCII letters are lower-cased. Python's `str.lower()` also folds non-ASCII letters.
- The library objects are plain records. Their constructors are taken never to fail, except `Knowledge(...)` in the assist factory, whose outcome is an input. What they do at run time (inference, SQLite history, LanceDB ingestion and hybrid search, MCP calls) happens inside `agno` and is not part of this model.
- The `Any`-typed builder arguments (`model`, `db`, `tools`, `vector_db`, `knowledge_base`, `embeddings`) range over this model's record types, not over arbitrary objects; `memory_config`, an `Optional[dict]`, is narrowed to `map<string, string>`.
- `get_config()` inside `get_model`, `get_provider_name`, the builder and the factories: the configuration is passed explicitly. `ConfigSingleton.GetConfig` shows that every call after the first returns the same instance.
- Printed diagnostics in the assist factory, logging setup (`backend/utils/logger.py`), the server entry point (`backend/agno_agent.py`) and knowledge loading (`backend/load_knowledge.py`) are process I/O.
- CORS middleware and `get_app` in `backend/core/runtime.py` configure the HTTP transport.
- The package `__init__.py` files only re-export names.
- Docstrings that the code does not implement are not modelled: the conversation docstring's table `agent_sessions`, the research docstring's table `research_sessions` and "no memories", the builder docstring's default of "MCP tools from config" for `tools` (backend/agents/base_agent.py:104; the code defaults to `[]` at line 157), and the conversation docstring's "Inherits model, database, tools from BaseAgentBuilder" (backend/agents/conversation_agent.py:41; the factory never calls the builder).
