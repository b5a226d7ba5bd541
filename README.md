# multiagent-ai-system in Dafny

A verified model of the deterministic core of a multi-agent assistant. Three
role agents (front-end, back-end, QA) sit on a text-generation client. Two
orchestrators drive them through fixed pipelines, and a small SQLite store
records tasks and agent interactions. Next to them are a message protocol
(A2A), a context/prompt protocol (MCP) and a session-based authentication
layer.

The model keeps every branch, default value, error text and constant of
that code. The generation client, JSON parsing/serialisation, `str()` of
non-string values, JWT signing and the clocks are passed in as functions or
values; everything around them is modelled exactly, except that the client is taken to
always return text (see "## Left out").

Modules (one per source file, plus three shared ones):

- `Values` (values.dfy): Python values as a `Json` datatype and dictionaries as `map<string, Json>`. Also `dict.get`, truthiness, and the `Outcome` of a call that may raise, with Python's own exception texts.
- `Text` (text.dfy): `str.find`, `str.strip`, `str.lower` and substring containment.
- `Collaborators` (collaborators.dfy): the generation client's request, and the environment of oracles (`generate`, `parse`, `repr`).
- `McpHandler` (mcp_handler.dfy): `MCPHandler`. Context lists, role prompts, tool-call formatting and decoding, and fenced-JSON extraction.
- `BaseAgents` (base_agent.dfy): `BaseAgent` as a class with an append-only `memory`, and the message handling that the three role agents share.
- `FrontAgents`, `BackAgents`, `QaAgents`: the three role agents. Each has a class for its state, and functions for `execute_task` and its actions.
- `AgentsOrchestrator` (agents_orchestrator.dfy): the fail-fast `process_task` and `generate_code` pipelines of src/agents/orchestrator.py. They are proved against `RunFrom`, a stage-table interpreter.
- `Database` (database.dfy): the `tasks` table as a map from id to row, `agent_interactions` as a sequence, and the AUTOINCREMENT counter.
- `SystemOrchestrator` (system_orchestrator.dfy): the logged pipeline and the agent lookup of src/orchestrator/orchestrator.py. The pipeline writes into a `Database.Db`.
- `A2aHandler` (a2a_handler.dfy): message and response builders, the validator, and (de)serialisation.
- `Sessions` (session.dfy) and `Auth` (auth_manager.dfy): `Session` and `AuthManager` as classes. The session registry is a map from token to `Session` object.

Two promises that the program's own text seems to make are not kept by its code:

- The QA verification prompt asks for a "pontuação de qualidade (0-10)" (src/orchestrator/protocols/mcp_handler.py:245). `_verify_result` passes a parsed score through unchanged (`QaAgents.ParsedScoreIsNotClamped`). Only the fallback and default scores are in range (`QaAgents.ChosenScoreInRange`).
- src/orchestrator/orchestrator.py:78 writes the status `"completed"` to the task row only. The caller receives the final stage's own result, with no status of the pipeline's. In src/agents/orchestrator.py a successful run reports the status `"concluída"`.

## Model

| member | source | states |
|---|---|---|
| Text.Find | src/orchestrator/protocols/mcp_handler.py:161-162 | `find` gives -1 exactly when the pattern does not occur from `start` on. Otherwise it gives the first occurrence at or after `start`. |
| Text.Strip | src/orchestrator/protocols/mcp_handler.py:165 | The stripped text is no longer than its input, and neither of its ends is whitespace. |
| Text.StripKeepsMiddle | src/orchestrator/protocols/mcp_handler.py:165 | The stripped text is one contiguous slice of the input, with only whitespace removed on either side of it. |
| McpHandler.Context | src/orchestrator/protocols/mcp_handler.py:32-50 | The system message comes first, then the history entries in their order, then the user message. The length is 2 + the length of the history. With no or empty history the result is exactly [system, user]. |
| McpHandler.CreateContext | src/orchestrator/protocols/mcp_handler.py:17-50 | Appending the system message, extending by a non-empty history and appending the user message builds exactly `Context`. |
| McpHandler.CreateAgentPrompt | src/orchestrator/protocols/mcp_handler.py:189-249 | Every prompt starts with the base text naming the role and the task. A role other than front-end, back-end and qa gets exactly the base text. |
| McpHandler.KnownRoleGetsInstructions | src/orchestrator/protocols/mcp_handler.py:205-247 | Instructions are appended if and only if the role is one of the three known roles. |
| McpHandler.PromptEmbedsRoleAndTask | src/orchestrator/protocols/mcp_handler.py:200-203 | The role and the task description sit at fixed offsets of the prompt. |
| McpHandler.PromptDeterminesTask | src/orchestrator/protocols/mcp_handler.py:200-203 | Two descriptions that give the same prompt for a role are equal, so the prompt determines its task. |
| McpHandler.FormatToolCalls | src/orchestrator/protocols/mcp_handler.py:82-103 | Length and order are kept, and every entry has type "function". Missing name and description become "", missing parameters become {}. |
| McpHandler.ToolCallItems | src/orchestrator/protocols/mcp_handler.py:120-124 | A list of tool calls is taken as is. `len` raises for anything other than a list, string or dict. |
| McpHandler.DecodeCallsFilters | src/orchestrator/protocols/mcp_handler.py:128-138 | The loop finishes if and only if every call has a dict "function" whose "arguments" (if present) is a string. The calls it then keeps are exactly `KeptCalls`. |
| McpHandler.KeptCallsSnoc | src/orchestrator/protocols/mcp_handler.py:130-136 | One more call adds its own decoding after those already kept, so order is preserved. |
| McpHandler.KeptCallsAllParse | src/orchestrator/protocols/mcp_handler.py:130-136 | When all arguments parse, every call is kept, in order, with its name and parsed arguments. |
| McpHandler.KeptCallsLength | src/orchestrator/protocols/mcp_handler.py:135-138 | No call is invented. A call whose arguments do not parse is dropped, so fewer calls are kept. |
| McpHandler.DecodeCallsRaisedStays | src/orchestrator/protocols/mcp_handler.py:131-143 | An exception other than a decode error on one call ends the whole loop with that same error. |
| McpHandler.ParseResponse | src/orchestrator/protocols/mcp_handler.py:105-143 | No choices gives the error record "list index out of range". Otherwise `has_tool_calls` holds exactly when the list is non-empty, and the kept calls are the decoded ones. Any exception gives the error record. |
| McpHandler.ExtractedDict | src/orchestrator/protocols/mcp_handler.py:167-179 | The record always has "content" and "has_structured_data". It has "structured_data" exactly when data was found. |
| McpHandler.ExtractResponse | src/orchestrator/protocols/mcp_handler.py:145-187 | The content is returned unchanged, and a missing content reads as "". A string content's structured data is exactly the parse of its fenced block. A content that is not a string has none. Structured data is present exactly when the content is a string whose block parses. |
| McpHandler.FirstBlockFound | src/orchestrator/protocols/mcp_handler.py:161-163 | The two searches find the first "```json" and the first "```" at or after marker+7. |
| McpHandler.StructuredDataLocated | src/orchestrator/protocols/mcp_handler.py:161-166 | Found data implies a first "```json" marker and a first closing "```" at or after marker+7. The data is the parse of the stripped text between them. |
| McpHandler.StructuredDataOfBlock | src/orchestrator/protocols/mcp_handler.py:161-166 | Conversely, whenever the first marker and the first fence after it are at given places, the data is the parse of the stripped text between them. |
| McpHandler.StructuredDataAt | src/orchestrator/protocols/mcp_handler.py:161-166 | Once both searches succeed, the data is the parse of the stripped text between the marker and the fence. |
| McpHandler.FencedBlockIsExtracted | src/orchestrator/protocols/mcp_handler.py:161-171 | Round trip: a text with one fenced JSON block yields the parse of the stripped block body. |
| McpHandler.UnclosedBlockIsPlainText | src/orchestrator/protocols/mcp_handler.py:162-164 | A marker without a closing fence gives plain text. |
| McpHandler.NoMarkerIsPlainText | src/orchestrator/protocols/mcp_handler.py:161-179 | Content without the marker, or content that is not a string, gives plain text. |
| McpHandler.StripDropsLineBreaks | src/orchestrator/protocols/mcp_handler.py:165 | The line breaks around a fenced body are removed by `strip`. |
| McpHandler.ExampleBlock | src/orchestrator/protocols/mcp_handler.py:161-179 | A concrete block parses to {"a": 1}. The same text without the closing fence gives no data. |
| BaseAgents.BaseAgent.constructor | src/core/base_agent.py:15-23 | A new agent has the given name and role and an empty memory. |
| BaseAgents.BaseAgent.AddToMemory | src/core/base_agent.py:25-27 | The message is appended at the end, and earlier entries are unchanged. |
| BaseAgents.BaseAgent.GetMemory | src/core/base_agent.py:29-31 | Returns the current memory. |
| BaseAgents.BaseAgent.ClearMemory | src/core/base_agent.py:33-35 | The memory becomes empty. |
| BaseAgents.UnknownAction | src/agents/front_agent.py:41-43 | success false, error "Ação desconhecida: <action>". |
| BaseAgents.MessageRequest | src/agents/front_agent.py:25-30 | `process_message` raises exactly when "content" is not a dict. Otherwise it sends the role prompt for the content's description (or the default) and the rendered content, at the role's temperature. |
| BaseAgents.MessageReply | src/agents/front_agent.py:29-32 | The reply is success true, with the agent's name and the extracted generation. |
| BaseAgents.MessagePromptCarriesDescription | src/agents/front_agent.py:25-28 | The system prompt carries the content's "description", or the default when it is absent. |
| BaseAgents.ChooseRecord | src/agents/front_agent.py:60-68 | The parsed block is used when there is one, the fallback otherwise. A parsed block that is not a dict raises on `.get`. |
| FrontAgents.FrontAgent.constructor | src/agents/front_agent.py:16-20 | The agent is named "FrontAgent", has role "front" and an empty memory. |
| FrontAgents.FrontAgent.ProcessMessage | src/agents/front_agent.py:22-32 | The message is appended to memory exactly once, and the reply is `MessageReply` with temperature 0.7. |
| FrontAgents.AnalysisPromptNamesTask | src/agents/front_agent.py:47-54 | The analysis prompt contains the task's title and description. |
| FrontAgents.AnalysisRequest | src/agents/front_agent.py:55-58 | A system prompt and the analysis prompt, at temperature 0.7. |
| FrontAgents.AnalyzeTask | src/agents/front_agent.py:45-69 | The parsed analysis is used if there is one, else the fallback. The result has success true and the analysis' summary, or "Análise concluída". A task_data that is not a dict, or a parsed analysis that is not a dict, raises. |
| FrontAgents.AnalyzeTaskFallback | src/agents/front_agent.py:63-68 | Without a parsed block: 3 UI components, 1 user flow, 3 design considerations and the fixed summary. |
| FrontAgents.PrepareRequest | src/agents/front_agent.py:80-83 | A system prompt and the final-answer prompt, at temperature 0.7. |
| FrontAgents.PrepareResponse | src/agents/front_agent.py:71-85 | success true, the generated content under "user_response", and "Resposta final preparada". There is no "response" key. A task_data or qa_result that is not a dict raises (task_data first). |
| FrontAgents.ExecuteTask | src/agents/front_agent.py:34-43 | "analyze_task" and "prepare_response" are routed to their actions. Any other or missing action gives the unknown-action failure. |
| FrontAgents.ExecuteTaskFailsOnlyOnUnknownAction | src/agents/front_agent.py:34-43 | A returned result has success false if and only if the action is unknown. |
| BackAgents.BackAgent.constructor | src/agents/back_agent.py:18-22 | The agent is named "BackAgent", has role "back" and an empty memory. |
| BackAgents.BackAgent.ProcessMessage | src/agents/back_agent.py:24-34 | The message is appended to memory exactly once, and the reply is `MessageReply` with temperature 0.5. |
| BackAgents.ProcessPromptCarriesFrontSummary | src/agents/back_agent.py:48-57 | The prompt contains the front analysis' summary, or its default. |
| BackAgents.ProcessRequest | src/agents/back_agent.py:58-61 | A system prompt and the processing prompt, at temperature 0.5. |
| BackAgents.ProcessTask | src/agents/back_agent.py:45-73 | The parsed result is used if there is one, else the fallback. The result has success true, "processing_result", and the summary or "Processamento concluído". A non-dict input raises. |
| BackAgents.ProcessTaskFallback | src/agents/back_agent.py:66-72 | Without a parsed block: data models User/Task/Result, three APIs and the fixed summary. |
| BackAgents.ExecuteTask | src/agents/back_agent.py:36-43 | Only "process_task" is routed. Every other action gives the unknown-action failure. |
| BackAgents.ExecuteTaskFailsOnlyOnUnknownAction | src/agents/back_agent.py:36-43 | A returned result has success false if and only if the action is not "process_task". |
| QaAgents.QaAgent.constructor | src/agents/qa_agent.py:16-20 | The agent is named "QAAgent", has role "qa" and an empty memory. |
| QaAgents.QaAgent.ProcessMessage | src/agents/qa_agent.py:22-32 | The message is appended to memory exactly once, and the reply is `MessageReply` with temperature 0.3. |
| QaAgents.VerifyPromptCarriesBackSummary | src/agents/qa_agent.py:46-55 | The prompt contains the back result's summary, or its default. |
| QaAgents.VerifyRequest | src/agents/qa_agent.py:56-59 | A system prompt and the verification prompt, at temperature 0.3. |
| QaAgents.VerifyResult | src/agents/qa_agent.py:43-71 | The parsed verification is used if there is one, else the fallback. The result has success true, the record's quality_score (default 5) and its summary (default "Verificação concluída"). A non-dict input raises. |
| QaAgents.ChosenScoreInRange | src/agents/qa_agent.py:61-71 | When the score comes from the fallback (7) or the default (5), the reported score is an integer in [0,10]. |
| QaAgents.ParsedScoreIsNotClamped | src/agents/qa_agent.py:61-62 | A parsed quality_score is reported unchanged, with no clamping. |
| QaAgents.ExecuteTask | src/agents/qa_agent.py:34-41 | Only "verify_result" is routed. Every other action gives the unknown-action failure. |
| QaAgents.ExecuteTaskFailsOnlyOnUnknownAction | src/agents/qa_agent.py:34-41 | A returned result has success false if and only if the action is not "verify_result". |
| AgentsOrchestrator.RunOrder | src/agents/orchestrator.py:53-105 | Stage k calls the agent and action of table row k, in table order, starting from the initial task. A completed run calls every stage and no more. |
| AgentsOrchestrator.RunHandOver | src/agents/orchestrator.py:55-104 | Fail-fast: every call but the last returned a truthy success, and the next call sees the task record updated with that result. |
| AgentsOrchestrator.RunStop | src/agents/orchestrator.py:55-121 | A run that does not complete stops at the first result without success, with that result's error or the stage's default, or at the first exception. Nothing is called after it. |
| AgentsOrchestrator.RunCompletion | src/agents/orchestrator.py:55-105 | On completion the final task is the last result stored, and the run's last result is the last call's answer. |
| AgentsOrchestrator.InitialTask | src/agents/orchestrator.py:42-46 | The task starts with status "iniciada" and the task data. |
| AgentsOrchestrator.ProcessReport | src/agents/orchestrator.py:55-121 | Success gives success true, task_id, the final result's "response" (default {}) and status "concluída". A failure gives that error without a status. An exception gives "Erro no processamento: ..." and status "erro". |
| AgentsOrchestrator.RunStatuses | src/agents/orchestrator.py:55-100 | In a stage table whose every stage sets a status, each call after the first sees the previous stage's status, and a completed run ends with the last stage's status. |
| AgentsOrchestrator.ProcessStatuses | src/agents/orchestrator.py:45-105 | Stage k sees status iniciada, analisada_front, processada_back or verificada_qa in turn. A completed run ends at "concluída". |
| AgentsOrchestrator.ProcessHandsOn | src/agents/orchestrator.py:62-90 | The back stage receives only the front result's "analysis" (default {}). The QA stage receives the whole back result. |
| AgentsOrchestrator.EntrySurvives | src/agents/orchestrator.py:158-210 | An entry no later stage writes survives to the final task. |
| AgentsOrchestrator.CompletedRunStoresAll | src/agents/orchestrator.py:158-210 | In a completed run with distinct keys, every stage's stored value is present in the final task. |
| AgentsOrchestrator.CodeFinalTask | src/agents/orchestrator.py:149-210 | A completed `generate_code` run called all five stages. Its task holds data_model, api_code, ui_code, tests and security taken from their results. |
| AgentsOrchestrator.CodeReport | src/agents/orchestrator.py:151-238 | Success bundles data_model/api_code under backend, ui_code under frontend and tests/security under qa, with status "concluída". Failures and exceptions are reported as in `process_task`, with "Erro na geração de código: ". |
| AgentsOrchestrator.Orchestrator.constructor | src/agents/orchestrator.py:14 | The orchestrator holds the three agents. |
| AgentsOrchestrator.Orchestrator.Step | src/agents/orchestrator.py:53-62 | One stage: a stop report equal to the run's own when the stage fails, otherwise the updated task and the rest of the run. |
| AgentsOrchestrator.Orchestrator.ProcessTask | src/agents/orchestrator.py:28-122 | Returns exactly `ProcessReport` of the specified run, and makes exactly its calls. |
| AgentsOrchestrator.Orchestrator.GenerateCode | src/agents/orchestrator.py:124-239 | Returns exactly `CodeReport` of the specified run, and makes exactly its calls. |
| Database.NewRow | src/data/database.py:150-157 | The inserted row has status "processing", input_usuario = description and no output or completion time. |
| Database.WithStatus | src/data/database.py:177-187 | With an output, status, output and completion time are set. Without one, only the status changes. |
| Database.UpdatedTasks | src/data/database.py:182-187 | The matching row is updated, every other row is unchanged, and an absent id changes nothing. |
| Database.Db.constructor | src/data/database.py:57 | The tables start empty. |
| Database.Db.CreateTask | src/data/database.py:150-162 | A row goes in under a fresh id not used before, and that id is returned. The log is unchanged. |
| Database.Db.GetTask | src/data/database.py:165-174 | The stored row for an existing id, None otherwise. |
| Database.Db.UpdateTaskStatus | src/data/database.py:177-190 | The tasks table becomes `UpdatedTasks`. The log and the counter are unchanged. |
| Database.Db.LogInteraction | src/data/database.py:193-203 | Exactly one entry is appended, and earlier entries and tasks are intact. |
| SystemOrchestrator.ExactIndex | src/orchestrator/orchestrator.py:94-96 | The exact key is found if and only if some agent has that name. |
| SystemOrchestrator.FirstMatch | src/orchestrator/orchestrator.py:99-101 | The first agent in registry order whose lower-cased name contains, or is contained in, the lower-cased key. None if and only if no agent matches. |
| SystemOrchestrator.FirstMatchIs | src/orchestrator/orchestrator.py:99-101 | A match with no match before it is the one chosen. |
| SystemOrchestrator.ExactNameWins | src/orchestrator/orchestrator.py:94-96 | An exact name is always preferred over a partial match. |
| SystemOrchestrator.PartialMatchIsFirst | src/orchestrator/orchestrator.py:99-101 | Without an exact name, the first partial match is chosen. |
| SystemOrchestrator.ResolveFailsIffNoMatch | src/orchestrator/orchestrator.py:94-103 | The lookup fails ("Agente não encontrado") if and only if no agent matches. |
| SystemOrchestrator.PayloadShape | src/orchestrator/orchestrator.py:43-74 | Each stage receives exactly its action, the task id, the task data and (from stage 2 on) the previous result under front_analysis, back_result or qa_result. |
| SystemOrchestrator.RunLength | src/orchestrator/orchestrator.py:43-79 | A run that does not raise returns all four results and ends with the last. success flags are never inspected. |
| SystemOrchestrator.RunHandOver | src/orchestrator/orchestrator.py:43-74 | Stage j + 1 is called with stage j's whole result, whatever its success flag. |
| SystemOrchestrator.RunStops | src/orchestrator/orchestrator.py:41-85 | A raising stage ends the run with its exception, and no later stage runs. |
| SystemOrchestrator.CreatedRow | src/orchestrator/orchestrator.py:34-39 | The new row takes title, description, user and project from the task data, defaulting to "Sem título", "", 0 and NULL. |
| SystemOrchestrator.Finished | src/orchestrator/orchestrator.py:78-84 | "completed" with the rendered final result and a completion time, or "failed" with no output. |
| SystemOrchestrator.Reply | src/orchestrator/orchestrator.py:79-85 | The final result, or {success false, error: str(exc)}. |
| SystemOrchestrator.EntriesCharacterised | src/orchestrator/orchestrator.py:48-83 | Entry j is stage j's "<label>: <summary or N/A>", in stage order. A normal run logs exactly four entries. A raising run logs one "system" entry "Erro: <msg>" after the earlier ones. |
| SystemOrchestrator.LoggedEntries | src/orchestrator/orchestrator.py:48-75 | One entry per returned stage, in stage order. |
| SystemOrchestrator.StageReturned | src/orchestrator/orchestrator.py:43-75 | A returning stage logs its entry before the rest of the run. |
| SystemOrchestrator.StageRaised | src/orchestrator/orchestrator.py:81-83 | A raising stage logs only the "system" entry. |
| SystemOrchestrator.Orchestrator.constructor | src/orchestrator/orchestrator.py:21-26 | The orchestrator holds the registry, the database and the renderer. |
| SystemOrchestrator.Orchestrator.ExecuteAgentTask | src/orchestrator/orchestrator.py:87-103 | The loop search returns what the resolved agent returns, or raises "Agente não encontrado: <key>". |
| SystemOrchestrator.Orchestrator.RunStage | src/orchestrator/orchestrator.py:43-75 | One stage: its answer, and its log entry appended on return. |
| SystemOrchestrator.Orchestrator.Fail | src/orchestrator/orchestrator.py:81-85 | Logs "Erro: <msg>", marks the row failed, and returns the failure record. |
| SystemOrchestrator.Orchestrator.Complete | src/orchestrator/orchestrator.py:78-79 | Marks the row completed with the final result, and returns that result. |
| SystemOrchestrator.Orchestrator.ProcessTask | src/orchestrator/orchestrator.py:29-85 | It creates one new row under a fresh id. The log grows by exactly the run's entries. The row ends as `Finished` of the run, and the reply is `Reply` of the run. |
| A2aHandler.CreateMessage | src/orchestrator/protocols/a2a_handler.py:20-50 | id, timestamp, sender, receiver and content are copied unchanged, and the type defaults to "request". There is no in_reply_to or status. |
| A2aHandler.CreateResponse | src/orchestrator/protocols/a2a_handler.py:52-82 | Sender and receiver are swapped, in_reply_to is the original id, the type is "response" and the status defaults to "success". A missing receiver, sender or id raises KeyError, in that order. |
| A2aHandler.FirstMissing | src/orchestrator/protocols/a2a_handler.py:97-100 | Finds a missing required field exactly when one is missing. |
| A2aHandler.ValidateMessage | src/orchestrator/protocols/a2a_handler.py:84-117 | Valid if and only if all six fields are present, the type is request/response/notification, and a response has in_reply_to and status. |
| A2aHandler.SerializeMessage | src/orchestrator/protocols/a2a_handler.py:119-133 | `json.dumps`, or "" when it fails. |
| A2aHandler.DeserializeMessage | src/orchestrator/protocols/a2a_handler.py:135-153 | The parsed message when it parses to a valid dict, {} otherwise. |
| A2aHandler.ResponseIsValid | src/orchestrator/protocols/a2a_handler.py:70-117 | Every response `create_response` builds is valid. |
| A2aHandler.CreatedMessageValidity | src/orchestrator/protocols/a2a_handler.py:40-117 | A built message is valid if and only if its type is request or notification. A "response" built this way lacks in_reply_to and status. |
| A2aHandler.ResponseRoundTrip | src/orchestrator/protocols/a2a_handler.py:70-79 | Answering a response swaps the parties back and replies to the response's id. |
| A2aHandler.SerializeRoundTrip | src/orchestrator/protocols/a2a_handler.py:119-153 | Round trip: deserialising a serialised message gives it back when valid, and {} when not. |
| A2aHandler.CreatedRequestRoundTrip | src/orchestrator/protocols/a2a_handler.py:20-153 | A created request survives serialisation and deserialisation unchanged. |
| Sessions.Session.constructor | src/auth/session.py:11-25 | created_at = last_access = now, empty data, and max_idle_time defaulting to 3600. |
| Sessions.Session.UpdateLastAccess | src/auth/session.py:27-29 | last_access becomes now, and the data is unchanged. |
| Sessions.ExpiryBoundary | src/auth/session.py:31-38 | Exactly max_idle_time idle seconds is not expired, one more is. |
| Sessions.ExpiryIsMonotone | src/auth/session.py:31-38 | Once expired, a session stays expired at every later time. |
| Sessions.FreshAccessIsLive | src/auth/session.py:27-38 | A session accessed at `now` is not expired at `now` when max_idle_time ≥ 0. |
| Sessions.Session.SetData | src/auth/session.py:40-48 | `get_data` on that key then gives the value, and every other key is unchanged. |
| Sessions.Session.GetData | src/auth/session.py:50-61 | The stored value, or the given default on an absent key. |
| Sessions.Session.ClearData | src/auth/session.py:63-65 | The data becomes empty, so every lookup gives its default. |
| Sessions.Session.ToDict | src/auth/session.py:67-81 | Exactly the six session fields. |
| Auth.TokenPayload | src/auth/auth_manager.py:58-64 | sub = str(id), username, role (default "user"), iat = now and exp = now + one day. A missing id or username raises KeyError, id first. |
| Auth.TokenLastsOneDay | src/auth/auth_manager.py:62-63 | exp − iat is 86400 seconds. |
| Auth.RoleGate | src/auth/auth_manager.py:135-143 | A failure passes through. With no required role, or an empty one, a grant passes through. With a non-empty required role, a matching payload role passes the grant through and a mismatch gives "Acesso negado. Função '<role>' necessária.". A grant always carries the required role. |
| Auth.AuthManager.constructor | src/auth/auth_manager.py:14-23 | No sessions. |
| Auth.AuthManager.CreateToken | src/auth/auth_manager.py:48-72 | Registers a fresh session for the user under the returned token. Other sessions are unchanged, and a KeyError leaves the registry unchanged. |
| Auth.AuthManager.ValidateToken | src/auth/auth_manager.py:74-107 | The verdict is `Validation` of the old state. Unknown token: "Sessão inválida ou expirada". Idle-expired: "Sessão expirada". Decoded: the payload. Signature expired: "Token expirado". Invalid: "Token inválido". The session is removed exactly in the two expired cases (`SessionsAfterValidation`). A kept session's data never changes, and its last access moves to `now` exactly on a grant. |
| Auth.AuthManager.Logout | src/auth/auth_manager.py:109-122 | Returns true if and only if the token was present, and the token is absent afterwards. |
| Auth.AuthManager.RequireAuth | src/auth/auth_manager.py:124-143 | The verdict is `RoleGate` applied to the validation verdict of the old state. Every validation error propagates unchanged. A live decoded token is granted exactly when the role check passes. The sessions change exactly as under `validate_token`, whether access is granted or denied. |

## Left out

- Text generation (src/core/genai_client.py) is the `generate` function of `Collaborators.Env`. Its recovered-error path yields ordinary text, which extraction treats as unstructured. `generate` always returns text. The client can also pass on a `None` content from the provider (src/core/genai_client.py:43), and the model does not produce that case. `McpHandler.ExtractResponse` itself handles a content that is not a string: it returns the content unchanged with no structured data.
- The following become parameters of the operations that use them:
  - `json.loads` becomes `parse`, an `Option` (`None` is a decode error).
  - `json.dumps` becomes `dumps`.
  - `str()` of non-string values becomes `repr`.
  - `uuid.uuid4`, `datetime.utcnow` and `time.time` become id, timestamp and `now` values.
  - JWT `encode`/`decode` become the `Jwt` pair.
  - The JWT secret key lives inside that pair.
- Clocks are whole seconds. Where the source reads the clock more than once in one call, the model uses one `now` for all the reads. This covers `Session.__init__` and `create_token`. It also covers `SystemOrchestrator.Orchestrator.ProcessTask`, whose task row, interaction rows and `completed_at` all get the same `now`. The source takes SQLite's `CURRENT_TIMESTAMP` at each insert (src/data/database.py:119) and `datetime.utcnow()` at the final update (src/data/database.py:184).
- Logging (`logger.*`) is not modelled.
- The following are not part of this model, being web plumbing, I/O or references to code that does not exist: src/main.py, src/utils/file_manager.py, src/utils/logger.py, src/config/config.py, src/test_auth.py, and `User`, password hashing, `init_db` DDL and connection handling in src/data/database.py.
- `AuthManager.authenticate`: it calls `get_user_by_username`, which the database module does not define.
- The first `create_agent_prompt` (src/orchestrator/protocols/mcp_handler.py:52) is replaced by the later definition in the same class, so only the later one is modelled.
- src/agents/orchestrator.py calls `execute_task(task, action)` with two arguments, but the agents take one. Agents there are oracles over (task, action). The `generate_code` actions, which no agent implements, are whatever those oracles return.
- src/orchestrator/orchestrator.py reads `self.agents`, which its constructor never sets. The registry is a constructor parameter, in registry order.
- The copy-pasted stage blocks of the two orchestrators are stated through stage tables. `process_task` of src/agents/orchestrator.py has four blocks and `generate_code` has five. `AgentsOrchestrator.Orchestrator.ProcessTask` and `GenerateCode` keep them as straight-line `Step` calls, one per block, and are proved equal to `RunFrom` over `ProcessStages` and `CodeStages`. Their ghost call trace records the calls made. Only `SystemOrchestrator.Orchestrator.ProcessTask` is a loop, over its four blocks.
- Dictionaries are maps, so key order and aliasing are not modelled. This covers the task record shared with agents, the `data` dict returned by `to_dict`, and messages kept in memory by reference.
- `Text.Lower` lower-cases ASCII letters only. Non-ASCII case folding is not modelled.
- `Text.Lower`: its contract states only that the length is kept. The partial-match rule is stated through `SystemOrchestrator.Matches`.
- SQLite type affinity, foreign-key checks and database errors are not modelled. The row's `created_at` default is the `now` of the call.
- A2A deserialisation: a JSON value that is not a dict, or a non-dict message, always yields {}. The model states this directly rather than through Python's `TypeError` on indexing.
- `SerializeMessage`: a failing `json.dumps` gives "". The cause of the failure (a non-serialisable value) is inside `dumps`.
- `McpHandler.ParseResponse`: the source annotates `response` as a dict but reads `response.choices[0].message`, an attribute access, and then calls `.get` on the message. On a plain dict the first read raises `AttributeError`, which the handler turns into its error record. The model reads `response` as an object whose `choices` hold messages that are mappings (`Completion` and `ChatMessage`). This is the only reading under which the code can succeed. Nothing in the program calls `parse_response`, so no caller fixes the type.
