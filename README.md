# PlayForge agent orchestration, modelled in Dafny

PlayForge is a backend for game-design conversations with AI agents. A user
opens a *thread* and chats with a **Lead Agent**. The Lead can create
**sub-agents** (each with its own thread, an agent *definition* and a message
history), dispatch work to them asynchronously, wait for their results and
destroy them. A per-Lead-thread **AsyncTaskManager** tracks pending dispatches
and signals their completion. Replies go back either synchronously or as a
stream of events: text deltas, thinking deltas, tool calls and results, and
a final completion. The stream is carried over a WebSocket. Around this core sit:

- agent assembly: the factory, the tool, skill and agent-type registries,
  the system-prompt resolver, the model-provider check, the model wrapper
  that strips unsupported request parameters, and the summarising chat memory;
- thread and agent-definition management;
- object-storage URL signing;
- authentication with JWT access tokens and rotating refresh tokens;
- user profiles;
- the request interceptor and the global exception handler;
- the result-code catalogue;
- the frontend's table of agent-type labels.

This project restates that core as Dafny. Each module follows one source file.

| file | module | source it follows |
|---|---|---|
| `task_bus.dfy` | `TaskBus` | `AsyncTaskManager`: pending tasks, completion, cancellation, waiting |
| `thread_repo.dfy`, `message_repo.dfy`, `definition_repo.dfy` | `ThreadRepo`, `MessageRepo`, `DefinitionRepo` | the thread, message and definition repositories, as in-memory tables |
| `domain.dfy`, `resources.dfy` | `Domain`, `Resources` | entities, enums and the bundled prompt and skill resources |
| `agent_type_registry.dfy`, `tool_registry.dfy`, `skill_registry.dfy` | `AgentTypes`, `Tools`, `Skills` | the three registries |
| `prompt_resolver.dfy`, `model_provider.dfy`, `agent_factory.dfy` | `Prompts`, `Providers`, `Factory` | the system-prompt resolver, the provider enum and the agent factory |
| `chat_messages.dfy`, `scoped_model.dfy`, `memory_store.dfy` | `Messages`, `ScopedModel`, `MemoryStore` | chat messages, the parameter-sanitising model wrapper and the summarising memory store |
| `sub_agent_service.dfy`, `sub_agent_tool.dfy` | `SubAgents`, `SubAgentTools` | the sub-agent lifecycle and the tools the Lead calls |
| `stream_events.dfy`, `chat_app.dfy` | `StreamEvents`, `ChatApp` | the Lead chat turn: retry with backoff, the streaming state machine, the completion fallback |
| `websocket.dfy` | `ChatSocket` | the WebSocket chat handler |
| `agent_management.dfy`, `thread_service.dfy` | `AgentManagement`, `ThreadService` | definition management and thread management |
| `oss.dfy`, `jwt.dfy`, `token_store.dfy`, `auth.dfy`, `users.dfy`, `user_service.dfy` | `Oss`, `Jwt`, `TokenStore`, `Auth`, `Users`, `UserService` | URL signing, tokens, login, refresh rotation and profiles |
| `web.dfy` | `Web` | the auth interceptor and the global exception handler |
| `result_code.dfy`, `causes.dfy`, `agent_types.dfy` | `ResultCodes`, `Causes`, `AgentTypeLabels` | result codes, exception cause chains and the frontend's agent-type labels |
| `wrappers.dfy`, `strings.dfy` | `Wrappers`, `Strs` | `Option`/`Result` and string helpers (`trim`, `isBlank`, `split`, `contains`) |

Conventions used throughout:

- Objects whose fields the source updates become classes. Each class is
  specified by a pure function of its abstract state, and the properties are
  lemmas about those functions.
- Repositories are sequences of rows in insertion order with a next-id
  counter. Caches and the refresh-token store are maps.
- An exception is its cause chain: frames with a simple class name, an
  I/O-exception flag and an optional message.
- A model call is a scripted outcome: a reply, a failure, or a stream of
  events.
- Randomness, clocks and cryptography are parameters: jitter, UUIDs, the
  current time, HMAC signing and password hashing.

A streamed Lead turn is stored at two points. The user message is stored,
and the thread's message count raised, in a transaction of its own before the
stream starts (`AgentChatAppServiceImpl.java:120-124`). The assistant reply is
stored once, in a second transaction, when the stream completes
(`AgentChatAppServiceImpl.java:353-357`). Nothing is stored while tokens
arrive, and the reply is not stored once the subscriber has cancelled.
`ChatApp.ChatAppService.Prologue` and `ChatApp.ChatAppService.CompleteStream`
model the two points.

## Model

| member | source | states |
|---|---|---|
| TaskBus.DispatchEffect | infrastructure/src/main/java/com/game/playforge/infrastructure/external/ai/AsyncTaskManager.java:42-49 | a dispatch of a pending id is refused with the IllegalStateException text and changes nothing; otherwise the id becomes pending under its name with its task running, the pending count grows by one, the cancelled set and queue are untouched and the invariant (agentNames keys are the pending ids, no mark left) holds |
| TaskBus.CompleteEffect | infrastructure/src/main/java/com/game/playforge/infrastructure/external/ai/AsyncTaskManager.java:51-70 | the completion of a running task removes its id from pending and agentNames and appends exactly one result at the tail; the invariant is kept |
| TaskBus.ResultMarksErrors | infrastructure/src/main/java/com/game/playforge/infrastructure/external/ai/AsyncTaskManager.java:61-69 | a queued result is an error iff the task threw; a failure's text starts with "Error: ", a success carries the returned value unchanged, and both carry the task's id and agent name |
| TaskBus.CancelRetiresTask | infrastructure/src/main/java/com/game/playforge/infrastructure/external/ai/AsyncTaskManager.java:139-147 | cancelling a pending id drops it from pending and agentNames, queues nothing, leaves no mark (the callback run by `future.cancel` consumes it) and no task under the id runs afterwards; cancelling a non-pending id changes nothing |
| TaskBus.ShutdownRetiresAll | infrastructure/src/main/java/com/game/playforge/infrastructure/external/ai/AsyncTaskManager.java:152-158 | after shutdown nothing is pending or running, the agent names of the pending ids are gone, the queue is kept and the invariant holds |
| TaskBus.AwaitDrains | infrastructure/src/main/java/com/game/playforge/infrastructure/external/ai/AsyncTaskManager.java:85-107 | a non-empty queue is returned whole in FIFO order and left empty; an empty queue yields exactly the arrival's result, or nothing on timeout |
| TaskBus.RedispatchAfterCancel | infrastructure/src/main/java/com/game/playforge/infrastructure/external/ai/AsyncTaskManager.java:42-56 | bookkeeping is keyed by the id text and cancel leaves nothing behind: dispatch then cancel returns the bus to empty, the id can be dispatched again, and the new task's completion is queued under the new agent name |
| TaskBus.AsyncTaskManager.constructor | infrastructure/src/main/java/com/game/playforge/infrastructure/external/ai/AsyncTaskManager.java:31-33 | a new bus is empty and valid |
| TaskBus.AsyncTaskManager.Dispatch | infrastructure/src/main/java/com/game/playforge/infrastructure/external/ai/AsyncTaskManager.java:42-73 | the new state is the dispatch function's result, or unchanged with the duplicate message when the id is pending; validity is preserved |
| TaskBus.AsyncTaskManager.Complete | infrastructure/src/main/java/com/game/playforge/infrastructure/external/ai/AsyncTaskManager.java:51-70 | the `whenComplete` callback: the new state is the completion function's result |
| TaskBus.AsyncTaskManager.AwaitResults | infrastructure/src/main/java/com/game/playforge/infrastructure/external/ai/AsyncTaskManager.java:85-107 | the returned list and new state are exactly the drain function's (drain; when empty take at most one arrival and drain again) |
| TaskBus.AsyncTaskManager.HasPendingTasks | infrastructure/src/main/java/com/game/playforge/infrastructure/external/ai/AsyncTaskManager.java:112-114 | true iff some id is pending |
| TaskBus.AsyncTaskManager.PendingCount | infrastructure/src/main/java/com/game/playforge/infrastructure/external/ai/AsyncTaskManager.java:119-121 | the number of pending ids |
| TaskBus.AsyncTaskManager.GetPendingAgents | infrastructure/src/main/java/com/game/playforge/infrastructure/external/ai/AsyncTaskManager.java:126-134 | the keys are exactly the pending ids and each value is that id's agent name |
| TaskBus.AsyncTaskManager.Cancel | infrastructure/src/main/java/com/game/playforge/infrastructure/external/ai/AsyncTaskManager.java:139-147 | the id is dropped and marked, then the callback run by `future.cancel(true)` consumes the mark: the new state is the cancel function's result and stays valid |
| TaskBus.AsyncTaskManager.Shutdown | infrastructure/src/main/java/com/game/playforge/infrastructure/external/ai/AsyncTaskManager.java:152-158 | the loop over the pending keys leaves the state of the shutdown function, valid |
| ThreadRepo.Filtered | infrastructure/src/main/java/com/game/playforge/infrastructure/persistence/AgentThreadRepositoryImpl.java:43-62 | the rows passing the filter, in table order: each kept row passes it and every passing row is kept |
| ThreadRepo.NewestFirstSorts | infrastructure/src/main/java/com/game/playforge/infrastructure/persistence/AgentThreadRepositoryImpl.java:43-52 | the sort is a permutation of its input ordered by non-increasing `createdAt` |
| ThreadRepo.Listing | infrastructure/src/main/java/com/game/playforge/infrastructure/persistence/AgentThreadRepositoryImpl.java:43-66 | the listing holds exactly the user's non-DELETED threads (of the agent when one is given), each as often as stored, newest first |
| ThreadRepo.LatestId | infrastructure/src/main/java/com/game/playforge/infrastructure/persistence/AgentThreadRepositoryImpl.java:70-83 | the id found is a non-DELETED thread of that user and agent and no such thread has a larger id; None iff there is none |
| ThreadRepo.Incremented | infrastructure/src/main/java/com/game/playforge/infrastructure/persistence/AgentThreadRepositoryImpl.java:101-113 | a non-positive delta changes nothing; otherwise only the thread with that id gets `coalesce(count,0)+delta` and the new `lastMessageAt`, every other row is unchanged |
| ThreadRepo.IncrementsCompose | infrastructure/src/main/java/com/game/playforge/infrastructure/persistence/AgentThreadRepositoryImpl.java:101-113 | two positive increments of one thread equal one increment by their sum at the later time |
| ThreadRepo.IncrementedCount | infrastructure/src/main/java/com/game/playforge/infrastructure/persistence/AgentThreadRepositoryImpl.java:106-112 | the incremented thread reads back with the old count (null as 0) plus the delta |
| ThreadRepo.AgentThreadRepository.FindById | infrastructure/src/main/java/com/game/playforge/infrastructure/persistence/AgentThreadRepositoryImpl.java:35-40 | a found row is stored under that id; None only when no row has it |
| ThreadRepo.AgentThreadRepository.FindByUserId | infrastructure/src/main/java/com/game/playforge/infrastructure/persistence/AgentThreadRepositoryImpl.java:43-52 | the user's non-DELETED threads, newest first |
| ThreadRepo.AgentThreadRepository.FindByUserIdAndAgentId | infrastructure/src/main/java/com/game/playforge/infrastructure/persistence/AgentThreadRepositoryImpl.java:55-66 | the same listing restricted to one agent |
| ThreadRepo.AgentThreadRepository.FindLatestThreadIdsByAgentIds | infrastructure/src/main/java/com/game/playforge/infrastructure/persistence/AgentThreadRepositoryImpl.java:69-84 | keys exactly the listed agents that have a non-DELETED thread of the user, so empty ids give the empty map; each value is the largest such thread id |
| ThreadRepo.AgentThreadRepository.Insert | infrastructure/src/main/java/com/game/playforge/infrastructure/persistence/AgentThreadRepositoryImpl.java:87-91 | the row is appended under the next id with the current time; ids stay increasing |
| ThreadRepo.AgentThreadRepository.Update | infrastructure/src/main/java/com/game/playforge/infrastructure/persistence/AgentThreadRepositoryImpl.java:94-98 | the stored row with the same id is replaced, ids stay increasing |
| ThreadRepo.AgentThreadRepository.IncrementMessageCount | infrastructure/src/main/java/com/game/playforge/infrastructure/persistence/AgentThreadRepositoryImpl.java:101-113 | the rows become the `Incremented` rows; ids unchanged |
| MessageRepo.ClampLimit | infrastructure/src/main/java/com/game/playforge/infrastructure/persistence/AgentMessageRepositoryImpl.java:49-63 | the clamped limit lies in [1,200] and equals the limit when that is already inside |
| MessageRepo.ClampOffset | infrastructure/src/main/java/com/game/playforge/infrastructure/persistence/AgentMessageRepositoryImpl.java:49-57 | the clamped offset is at least 0 and equals a non-negative offset |
| MessageRepo.OfThread | infrastructure/src/main/java/com/game/playforge/infrastructure/persistence/AgentMessageRepositoryImpl.java:69-76 | a message is listed iff it is stored with that thread; never longer than the table |
| MessageRepo.Page | infrastructure/src/main/java/com/game/playforge/infrastructure/persistence/AgentMessageRepositoryImpl.java:49-57 | at most `limit` elements, the slice that starts at the offset; empty past the end |
| MessageRepo.Latest | infrastructure/src/main/java/com/game/playforge/infrastructure/persistence/AgentMessageRepositoryImpl.java:60-66 | min(limit, thread size) messages, the k-th being the k-th newest of the thread |
| MessageRepo.LatestReversed | application/src/main/java/com/game/playforge/application/service/impl/AgentChatAppServiceImpl.java:214-220 | reversing the newest-first window gives the tail of the thread's history in creation order |
| MessageRepo.AgentMessageRepository.Insert | infrastructure/src/main/java/com/game/playforge/infrastructure/persistence/AgentMessageRepositoryImpl.java:30-34 | appended under the next id with the current time; ids stay increasing |
| MessageRepo.AgentMessageRepository.InsertBatch | infrastructure/src/main/java/com/game/playforge/infrastructure/persistence/AgentMessageRepositoryImpl.java:37-46 | the rows grow by the messages stamped with consecutive ids from the next id, in list order; the next id grows by the list length, so an empty list inserts nothing |
| MessageRepo.AgentMessageRepository.FindByThreadId | infrastructure/src/main/java/com/game/playforge/infrastructure/persistence/AgentMessageRepositoryImpl.java:49-57 | one page of the thread in creation order with the limit clamped into [1,200] and the offset to at least 0 |
| MessageRepo.AgentMessageRepository.FindLatestByThreadId | infrastructure/src/main/java/com/game/playforge/infrastructure/persistence/AgentMessageRepositoryImpl.java:60-66 | the newest messages of the thread, newest first, with the clamped limit |
| MessageRepo.AgentMessageRepository.CountByThreadId | infrastructure/src/main/java/com/game/playforge/infrastructure/persistence/AgentMessageRepositoryImpl.java:69-76 | at most the table size, and 0 exactly when no message of that thread is stored |
| MessageRepo.CountAfterInsert | infrastructure/src/main/java/com/game/playforge/infrastructure/persistence/AgentMessageRepositoryImpl.java:69-76 | inserting a message raises its thread's count by one and leaves every other count alone |
| DefinitionRepo.WithParent | application/src/main/java/com/game/playforge/application/service/agent/SubAgentService.java:265 | a definition is listed iff it is stored with that parent thread, active or not |
| DefinitionRepo.AgentDefinitionRepository.FindById | infrastructure/src/main/java/com/game/playforge/infrastructure/persistence/AgentDefinitionRepositoryImpl.java:30-35 | the row with that id if stored, None iff no row has it |
| DefinitionRepo.AgentDefinitionRepository.FindByParentThreadId | application/src/main/java/com/game/playforge/application/service/agent/SubAgentService.java:265 | a definition is listed iff it is stored with that parent thread |
| DefinitionRepo.AgentDefinitionRepository.Insert | infrastructure/src/main/java/com/game/playforge/infrastructure/persistence/AgentDefinitionRepositoryImpl.java:59-63 | appended under the next id; ids stay increasing |
| DefinitionRepo.AgentDefinitionRepository.Update | infrastructure/src/main/java/com/game/playforge/infrastructure/persistence/AgentDefinitionRepositoryImpl.java:66-70 | the row with the same id replaced; ids stay increasing |
| Domain.Lookup | infrastructure/src/main/java/com/game/playforge/infrastructure/persistence/AgentThreadRepositoryImpl.java:35-40 | `selectById`: a found row is stored and carries the id; None iff no row has the id |
| Domain.Replace | infrastructure/src/main/java/com/game/playforge/infrastructure/persistence/AgentDefinitionRepositoryImpl.java:66-70 | `updateById`: every row with the row's id is replaced, every other row kept in place |
| Domain.LookupAfterReplace | infrastructure/src/main/java/com/game/playforge/infrastructure/persistence/AgentDefinitionRepositoryImpl.java:66-70 | with increasing ids, after a replacement the id finds the new row and every other id finds what it found before |
| AgentTypes.DescriptorOf | infrastructure/src/main/java/com/game/playforge/infrastructure/external/ai/AgentTypeRegistry.java:64-79 | the descriptor carries the registration's name, description, default tools and skills; its prompt is "" without a reference or when the file is missing |
| AgentTypes.RegisterAllDistinct | infrastructure/src/main/java/com/game/playforge/infrastructure/external/ai/AgentTypeRegistry.java:41-62 | registering distinct names into an empty table lists them in registration order, each with its own descriptor |
| AgentTypes.InitRegistersNine | infrastructure/src/main/java/com/game/playforge/infrastructure/external/ai/AgentTypeRegistry.java:41-62 | after `init` exactly the nine archetypes are registered in the listed order, including `leadDesigner` and `default`; none has default tools or skills, and `default` has the empty prompt |
| AgentTypes.TypeLinesList | infrastructure/src/main/java/com/game/playforge/infrastructure/external/ai/AgentTypeRegistry.java:98-110 | every registered type other than `leadDesigner` contributes its line to the catalog body |
| AgentTypes.CatalogListsType | infrastructure/src/main/java/com/game/playforge/infrastructure/external/ai/AgentTypeRegistry.java:98-110 | the catalog of a registry lists every type except `leadDesigner` |
| AgentTypes.AgentTypeRegistry.Register | infrastructure/src/main/java/com/game/playforge/infrastructure/external/ai/AgentTypeRegistry.java:64-69 | the descriptor (prompt loaded, or "") is stored under its name and every other name keeps its descriptor |
| AgentTypes.AgentTypeRegistry.Init | infrastructure/src/main/java/com/game/playforge/infrastructure/external/ai/AgentTypeRegistry.java:41-62 | the nine `register` calls leave the table of `InitRegistersNine` |
| AgentTypes.AgentTypeRegistry.GetType | infrastructure/src/main/java/com/game/playforge/infrastructure/external/ai/AgentTypeRegistry.java:84-86 | the registered descriptor, None (null) for any unregistered name |
| AgentTypes.AgentTypeRegistry.GetRegisteredTypeNames | infrastructure/src/main/java/com/game/playforge/infrastructure/external/ai/AgentTypeRegistry.java:91-93 | exactly the registered names, each once |
| AgentTypes.AgentTypeRegistry.GetTypeCatalog | infrastructure/src/main/java/com/game/playforge/infrastructure/external/ai/AgentTypeRegistry.java:98-110 | the `<available-agent-types>` tags around one line per type other than `leadDesigner`, in registration order |
| AgentTypeLabels.TypeFromName | frontend/src/constants/agentTypes.ts:38-41 | a prefix of the name: the whole name, or the part before the last `-` with no dash after it; non-empty for a non-empty name |
| AgentTypeLabels.GeneratedNameType | frontend/src/constants/agentTypes.ts:38-41 | a name `type-<8 hex>` with a non-empty, dash-free type gives exactly `type` back |
| AgentTypeLabels.AgreesWithServer | frontend/src/constants/agentTypes.ts:38-41 | client and server read the same type from a name except when its only dash is the first character (server: empty type, client: the whole name) |
| AgentTypeLabels.LookupOr | frontend/src/constants/agentTypes.ts:44-59 | `table[type] \\|\\| fallback`: the entry when present and non-empty, else the fallback |
| AgentTypeLabels.AgentLabel | frontend/src/constants/agentTypes.ts:44-47 | the full label of a known type, the type itself for an unknown one |
| AgentTypeLabels.AgentShortLabel | frontend/src/constants/agentTypes.ts:50-53 | the short label of a known type, the type itself for an unknown one |
| AgentTypeLabels.AgentColor | frontend/src/constants/agentTypes.ts:56-59 | the type's colour, `#64748b` for an unknown type |
| Tools.WithTools | infrastructure/src/main/java/com/game/playforge/infrastructure/external/ai/ToolRegistry.java:33-43 | the registered names are the earlier ones plus the name of every definition whose class has a `@Tool` method |
| Tools.Lookups | infrastructure/src/main/java/com/game/playforge/infrastructure/external/ai/ToolRegistry.java:64-73 | never longer than the input; every bean returned is a registered one |
| Tools.LookupsAppend | infrastructure/src/main/java/com/game/playforge/infrastructure/external/ai/ToolRegistry.java:68-72 | one more name appends at most that name's bean |
| Tools.LookupsConcat | infrastructure/src/main/java/com/game/playforge/infrastructure/external/ai/ToolRegistry.java:68-72 | looking up a concatenation is looking up each part in turn, so the beans come in the order of the names |
| Tools.LookupsAllRegistered | infrastructure/src/main/java/com/game/playforge/infrastructure/external/ai/ToolRegistry.java:68-72 | when every trimmed name is registered the k-th bean is the k-th name's |
| Tools.LookupsNoneRegistered | infrastructure/src/main/java/com/game/playforge/infrastructure/external/ai/ToolRegistry.java:70 | names none of which is registered give no beans |
| Tools.ToolRegistry.Init | infrastructure/src/main/java/com/game/playforge/infrastructure/external/ai/ToolRegistry.java:33-43 | registers every bean whose class has a `@Tool` method, under its bean name |
| Tools.ToolRegistry.GetToolBean | infrastructure/src/main/java/com/game/playforge/infrastructure/external/ai/ToolRegistry.java:57-59 | the registered bean, None (null) for an unknown name |
| Tools.ToolRegistry.GetToolBeans | infrastructure/src/main/java/com/game/playforge/infrastructure/external/ai/ToolRegistry.java:64-73 | the registered beans of the trimmed names in input order, unknown names dropped and repeats kept (Lookups), so empty input gives the empty list |
| Skills.ResolveContent | infrastructure/src/main/java/com/game/playforge/infrastructure/external/ai/SkillRegistry.java:119-127 | inline content wins over a content reference; with neither the content is "" |
| Skills.RegisteredUnderName | infrastructure/src/main/java/com/game/playforge/infrastructure/external/ai/SkillRegistry.java:47-66 | a bean is found under its annotation name, or its bean name when that is empty, unless a later bean registers the same name |
| Skills.Matched | infrastructure/src/main/java/com/game/playforge/infrastructure/external/ai/SkillRegistry.java:102-110 | never longer than the input; every descriptor returned is a registered one |
| Skills.MatchedAppend | infrastructure/src/main/java/com/game/playforge/infrastructure/external/ai/SkillRegistry.java:102-110 | one more name appends that name's descriptor when it is registered and nothing otherwise |
| Skills.MatchedEmpty | infrastructure/src/main/java/com/game/playforge/infrastructure/external/ai/SkillRegistry.java:102-110 | nothing matches exactly when no name is registered |
| Skills.CatalogEmptyIffNoneRegistered | infrastructure/src/main/java/com/game/playforge/infrastructure/external/ai/SkillRegistry.java:71-89 | the catalog is "" exactly when none of the names is registered |
| Skills.CatalogVisible | infrastructure/src/main/java/com/game/playforge/infrastructure/external/ai/SkillRegistry.java:82-88 | a non-empty catalog is never blank |
| Skills.CatalogSkipsUnknown | infrastructure/src/main/java/com/game/playforge/infrastructure/external/ai/SkillRegistry.java:82-88 | an unknown name adds no line to the catalog |
| Skills.SkillRegistry.AfterSingletonsInstantiated | infrastructure/src/main/java/com/game/playforge/infrastructure/external/ai/SkillRegistry.java:47-66 | each annotated bean is registered under its registration name with its resolved content |
| Skills.SkillRegistry.GetSkillCatalog | infrastructure/src/main/java/com/game/playforge/infrastructure/external/ai/SkillRegistry.java:71-89 | "" for null or empty names, otherwise the header plus one `- **name**: description` line per registered name in input order |
| Skills.SkillRegistry.GetSkillContent | infrastructure/src/main/java/com/game/playforge/infrastructure/external/ai/SkillRegistry.java:94-97 | the content of a registered skill, None (null) for an unknown name |
| Skills.SkillRegistry.GetSkills | infrastructure/src/main/java/com/game/playforge/infrastructure/external/ai/SkillRegistry.java:102-110 | empty input gives the empty list; otherwise the registered descriptors of the names in input order |
| Prompts.BasePrompt | infrastructure/src/main/java/com/game/playforge/infrastructure/external/ai/SystemPromptResolver.java:44-52 | a non-blank inline prompt wins; else the file named by a non-blank reference; else "" |
| Prompts.FragmentsOfBlank | infrastructure/src/main/java/com/game/playforge/infrastructure/external/ai/SystemPromptResolver.java:56-66 | skills without a non-blank fragment leave the prompt unchanged |
| Prompts.FragmentIncluded | infrastructure/src/main/java/com/game/playforge/infrastructure/external/ai/SystemPromptResolver.java:56-66 | each non-blank fragment appears after a `\n\n` separator in the result |
| Prompts.SystemPromptResolver.LoadPromptFromFile | infrastructure/src/main/java/com/game/playforge/infrastructure/external/ai/SystemPromptResolver.java:69-81 | a reference is read at most once: a cached reference returns the cached text without loading, a new one caches the file text or "" on failure |
| Prompts.SystemPromptResolver.Resolve | infrastructure/src/main/java/com/game/playforge/infrastructure/external/ai/SystemPromptResolver.java:41-67 | the base prompt followed by `\n\n`+fragment for each skill with a non-blank fragment, in order; null or empty skills give the base |
| Prompts.SystemPromptResolver.AppendFragments | infrastructure/src/main/java/com/game/playforge/infrastructure/external/ai/SystemPromptResolver.java:56-66 | the loop appends exactly the fragments of the skills, in order |
| Prompts.SystemPromptResolver.ResolveWithContext | application/src/main/java/com/game/playforge/application/service/agent/AgentFactory.java:90 | the factory's additional context is treated as the one fragment of `resolve` |
| Providers.ValueOf | common/src/main/java/com/game/playforge/common/enums/ModelProvider.java:14-35 | `valueOf`: the constant whose name is exactly the text, None otherwise |
| Providers.ParseIgnoreCase | application/src/main/java/com/game/playforge/application/service/impl/AgentManagementServiceImpl.java:128-134 | `valueOf(provider.toUpperCase())`: the constant named case-insensitively, None for null or unknown text |
| Providers.ParsesOwnSpellings | common/src/main/java/com/game/playforge/common/enums/ModelProvider.java:19-29 | the stored identifier (`openai`, `anthropic`, `gemini`) and the constant name both parse back to the vendor |
| Providers.CaseInsensitive | application/src/main/java/com/game/playforge/application/service/agent/AgentFactory.java:299-305 | changing the case of ASCII letters does not change the parse outcome |
| Causes.IsRateLimitError | application/src/main/java/com/game/playforge/application/service/impl/AgentChatAppServiceImpl.java:446-462 | true iff some frame of the cause chain is a rate limit: class `RateLimitException`, or a message mentioning `rate_limit` or `rate limit` in any case |
| Causes.IsTransientNetworkError | application/src/main/java/com/game/playforge/application/service/impl/AgentChatAppServiceImpl.java:464-489 | true iff some frame is an I/O exception, a timeout by class name, or mentions an I/O error or a timeout |
| Causes.IsRateLimitByName | application/src/main/java/com/game/playforge/application/service/agent/SubAgentService.java:216-224 | true iff some frame's simple class name is `RateLimitException` |
| Causes.RateLimitByNameIsNarrower | application/src/main/java/com/game/playforge/application/service/agent/SubAgentService.java:216-224 | every error a sub-agent retries is one the Lead Agent's chat also retries |
| Causes.RateLimitMessageOnlyForLead | application/src/main/java/com/game/playforge/application/service/impl/AgentChatAppServiceImpl.java:446-462 | a frame named otherwise whose message says `rate_limit` is retried by the Lead Agent and not by a sub-agent |
| Causes.MentionIsRateLimit | application/src/main/java/com/game/playforge/application/service/impl/AgentChatAppServiceImpl.java:453-459 | a frame whose lower-cased message contains either pattern is a rate-limit frame |
| Causes.ExtractErrorMessage | application/src/main/java/com/game/playforge/application/service/agent/SubAgentService.java:226-237 | the innermost cause's message; the fixed rate-limit notice when it contains `rate_limit`; the outer exception's simple name when that message is null |
| ResultCodes.FromCode | common/src/main/java/com/game/playforge/common/result/ResultCode.java:23-125 | a constant found for a code carries that code |
| ResultCodes.CodesDistinct | common/src/main/java/com/game/playforge/common/result/ResultCode.java:23-125 | two constants with the same code are the same constant |
| ResultCodes.FromCodeRoundTrip | common/src/main/java/com/game/playforge/common/result/ResultCode.java:23-125 | each constant's code finds that constant back |
| ResultCodes.FromCodeNone | common/src/main/java/com/game/playforge/common/result/ResultCode.java:23-125 | a code finds nothing iff no constant carries it |
| ResultCodes.CodeInDeclaredGroup | common/src/main/java/com/game/playforge/common/result/ResultCode.java:23-125 | every code falls in the numeric range of the group it is declared under (0, 10xx, 20xx, 30xx, 4xxx, 50xx, 9xxx) |
| ResultCodes.AuthCodesAreUnauthorized | common/src/main/java/com/game/playforge/common/result/ResultCode.java:30-55 | every authentication code answers 401, except PHONE_ALREADY_REGISTERED which answers 409 |
| ResultCodes.SuccessIsZero | common/src/main/java/com/game/playforge/common/result/ResultCode.java:23 | SUCCESS is code 0 with status 200; every other constant has a non-zero code and a status of at least 400 |
| Factory.ResolveProvider | application/src/main/java/com/game/playforge/application/service/agent/AgentFactory.java:299-305 | the provider whose constant name is the upper-cased text; AGENT_PROVIDER_UNAVAILABLE with "不支持的模型供应商" for null or unknown text |
| Factory.ResolveMaxOutputTokens | application/src/main/java/com/game/playforge/application/service/agent/AgentFactory.java:266-286 | a non-positive configured cap is ignored; Anthropic always gets a cap in (0, 32768], the configured one when it fits and 32768 otherwise; other vendors get the positive configured cap or none |
| Factory.ResolveMaxOutputTokensStable | application/src/main/java/com/game/playforge/application/service/agent/AgentFactory.java:266-286 | resolving an already resolved cap changes nothing |
| Factory.ScopedRequestParameters | application/src/main/java/com/game/playforge/application/service/agent/AgentFactory.java:248-264 | model name and temperature copied; a token cap is sent exactly for Anthropic, or for Gemini with a positive configured cap, never for OpenAI; a sent cap is positive and Anthropic's at most 32768 |
| Factory.MemoryWindow | application/src/main/java/com/game/playforge/application/service/agent/AgentFactory.java:193-202 | the configured window size, or 40 when none is set |
| Factory.BuildRequestAttributes | application/src/main/java/com/game/playforge/application/service/agent/AgentFactory.java:288-297 | exactly the trace-id and thread-id keys; the thread id as a number; the MDC trace id when non-blank, else `thread-<threadId>`, so the trace id is never blank |
| Factory.HasSubAgentTool | application/src/main/java/com/game/playforge/application/service/agent/AgentFactory.java:154-161 | true iff the tool list is present and one of its trimmed comma-separated names is `subAgentTool` |
| Factory.SubAgentToolAlone | application/src/main/java/com/game/playforge/application/service/agent/AgentFactory.java:154-161 | a tool list naming only `subAgentTool` has the sub-agent tool |
| Factory.ParseSkillNames | application/src/main/java/com/game/playforge/application/service/agent/AgentFactory.java:183-191 | null or blank input gives no names; every name is non-empty, trimmed and comma-free |
| Factory.ParseSkillNamesOfJoin | application/src/main/java/com/game/playforge/application/service/agent/AgentFactory.java:183-191 | clean, non-blank names stored comma-joined parse back to the same list |
| Factory.AddAllSpec | application/src/main/java/com/game/playforge/application/service/agent/AgentFactory.java:208-214 | adding to an insertion-ordered set keeps the existing names in place, contains exactly the old and new names, and never introduces a repeat |
| Factory.RemoveSpec | application/src/main/java/com/game/playforge/application/service/agent/AgentFactory.java:216-217 | removal keeps exactly the other names and keeps them distinct |
| Factory.AddSkillToolsSpec | application/src/main/java/com/game/playforge/application/service/agent/AgentFactory.java:226-228 | the names after step 4 are the earlier ones plus every tool name some skill references, without repeats |
| Factory.OwnToolNames | application/src/main/java/com/game/playforge/application/service/agent/AgentFactory.java:208-214 | without repeats, exactly the trimmed non-empty tokens of a non-blank tool list |
| Factory.ToolNameSetSpec | application/src/main/java/com/game/playforge/application/service/agent/AgentFactory.java:206-228 | the requested names are distinct and are exactly the agent's own names other than `subAgentTool`, the skill loader when a skill resolved, and the names the skills reference |
| Factory.NoSubAgentToolRequested | application/src/main/java/com/game/playforge/application/service/agent/AgentFactory.java:216-217 | `subAgentTool` is never asked of the tool registry unless a skill references it |
| Factory.SkillLoaderRequested | application/src/main/java/com/game/playforge/application/service/agent/AgentFactory.java:219-223 | `skillLoaderTool` is requested whenever a skill resolved; without skills only when the agent names it itself |
| Factory.SelfToolBeans | application/src/main/java/com/game/playforge/application/service/agent/AgentFactory.java:233-238 | at most one bean per skill; exactly the skills' own tool beans |
| Factory.CollectedTools | application/src/main/java/com/game/playforge/application/service/agent/AgentFactory.java:204-246 | the extra tools come last, unchanged; everything before them is a registered bean or a skill's own bean; the length is bounded by the requested names, skills and extras |
| Factory.ContextOfCatalogs | application/src/main/java/com/game/playforge/application/service/agent/AgentFactory.java:163-181 | without `subAgentTool` the context is the skill catalog alone; with it, the skill catalog, a blank line only when that catalog is non-empty, then the type catalog |
| Factory.RequestedToolNames | application/src/main/java/com/game/playforge/application/service/agent/AgentFactory.java:206-228 | the loops of steps 1-4 build exactly the requested name set |
| Factory.AddEach | application/src/main/java/com/game/playforge/application/service/agent/AgentFactory.java:208-214 | the loop adds the names as the insertion-ordered set does |
| Factory.AddSkillToolNames | application/src/main/java/com/game/playforge/application/service/agent/AgentFactory.java:226-228 | the loop over the skills adds their tool names in skill order |
| Factory.AppendSelfToolBeans | application/src/main/java/com/game/playforge/application/service/agent/AgentFactory.java:233-238 | the loop appends the skills' own beans after the registry's, in skill order |
| Factory.AgentFactory.constructor | application/src/main/java/com/game/playforge/application/service/agent/AgentFactory.java:46-51 | the factory keeps the three registries it is given |
| Factory.AgentFactory.BuildAdditionalContext | application/src/main/java/com/game/playforge/application/service/agent/AgentFactory.java:163-181 | the context built from the registry's skill catalog and, with `subAgentTool`, its type catalog |
| Factory.AgentFactory.CollectTools | application/src/main/java/com/game/playforge/application/service/agent/AgentFactory.java:204-246 | the tools: registry beans of the requested names, then the skills' own beans, then the extra tools |
| ScopedModel.CopyWithoutToolRequests | application/src/main/java/com/game/playforge/application/service/agent/AgentScopedStreamingChatModel.java:118-132 | no copy exactly when the message shows neither text nor thinking; a copy keeps the attributes and exactly the non-blank text and thinking, drops every tool request, and so never needs stripping again |
| ScopedModel.Run | application/src/main/java/com/game/playforge/application/service/agent/AgentScopedStreamingChatModel.java:83-103 | the loop never produces more messages than it reads |
| ScopedModel.Sanitize | application/src/main/java/com/game/playforge/application/service/agent/AgentScopedStreamingChatModel.java:78-108 | other vendors, a null request and a null message list pass through unchanged; only the message list can change, and it never grows |
| ScopedModel.SkippedStep | application/src/main/java/com/game/playforge/application/service/agent/AgentScopedStreamingChatModel.java:87-91 | skipping continues exactly through a run of tool results that follows a message needing stripping |
| ScopedModel.SkipFlag | application/src/main/java/com/game/playforge/application/service/agent/AgentScopedStreamingChatModel.java:87-99 | after n messages the skip flag is set exactly when the last one needed stripping or was itself skipped |
| ScopedModel.RunMatchesImages | application/src/main/java/com/game/playforge/application/service/agent/AgentScopedStreamingChatModel.java:85-103 | the loop builds exactly the images of the messages, in order |
| ScopedModel.RunChanged | application/src/main/java/com/game/playforge/application/service/agent/AgentScopedStreamingChatModel.java:83-106 | `changed` is set iff some message needed stripping; skipping implies it |
| ScopedModel.ImagesOfCleanHistory | application/src/main/java/com/game/playforge/application/service/agent/AgentScopedStreamingChatModel.java:104-106 | with no message to strip, every message is its own image |
| ScopedModel.SanitizeGemini | application/src/main/java/com/game/playforge/application/service/agent/AgentScopedStreamingChatModel.java:85-106 | for Gemini the request is sent with the images of its history: tool results after a stripped message gone, the stripped message replaced by its copy or dropped, every other message kept in order |
| ScopedModel.CleanHistoryUntouched | application/src/main/java/com/game/playforge/application/service/agent/AgentScopedStreamingChatModel.java:104-106 | a history without an unsigned tool-requesting AI message is sent as the very same request |
| ScopedModel.Merged | application/src/main/java/com/game/playforge/application/service/agent/AgentScopedStreamingChatModel.java:165-174 | the target keeps every entry it had; each added entry is a non-null fixed attribute; every non-null fixed attribute ends up present |
| ScopedModel.FixedAttributesListener.MergeAttributes | application/src/main/java/com/game/playforge/application/service/agent/AgentScopedStreamingChatModel.java:165-174 | a present target map becomes the merge of its old entries with the fixed attributes; a null one is left alone |
| ScopedModel.AsAttributes | application/src/main/java/com/game/playforge/application/service/agent/AgentScopedStreamingChatModel.java:39-41 | the same keys, each with its (non-null) value |
| ScopedModel.AgentScopedStreamingChatModel.constructor | application/src/main/java/com/game/playforge/application/service/agent/AgentScopedStreamingChatModel.java:34-42 | a null attribute map becomes the empty map |
| ScopedModel.AgentScopedStreamingChatModel.Listeners | application/src/main/java/com/game/playforge/application/service/agent/AgentScopedStreamingChatModel.java:57-66 | the wrapped model's listeners when there are no attributes; otherwise the fixed-attribute listener first, then those listeners in order |
| ScopedModel.AgentScopedStreamingChatModel.SanitizeGeminiToolMessages | application/src/main/java/com/game/playforge/application/service/agent/AgentScopedStreamingChatModel.java:78-108 | the request sent is the sanitised request |
| MemoryStore.TranscriptLine | infrastructure/src/main/java/com/game/playforge/infrastructure/external/ai/SummarizingChatMemoryStore.java:123-135 | at most one line; a line exactly for a user message or an AI message with text |
| MemoryStore.TranscriptLineShape | infrastructure/src/main/java/com/game/playforge/infrastructure/external/ai/SummarizingChatMemoryStore.java:123-135 | every transcript line starts with `User: ` or `Assistant: ` and ends with a newline |
| MemoryStore.TranscriptLines | infrastructure/src/main/java/com/game/playforge/infrastructure/external/ai/SummarizingChatMemoryStore.java:123-135 | never more lines than messages |
| MemoryStore.TranscriptLinesShape | infrastructure/src/main/java/com/game/playforge/infrastructure/external/ai/SummarizingChatMemoryStore.java:123-135 | every line of a transcript starts with `User: ` or `Assistant: ` and ends with a newline |
| MemoryStore.TranscriptAppend | infrastructure/src/main/java/com/game/playforge/infrastructure/external/ai/SummarizingChatMemoryStore.java:123-135 | the transcript of two histories is the concatenation of their transcripts |
| MemoryStore.TranscriptSkips | infrastructure/src/main/java/com/game/playforge/infrastructure/external/ai/SummarizingChatMemoryStore.java:123-135 | system messages, tool results and AI messages without text add nothing to the transcript |
| MemoryStore.BuildSummaryPrompt | infrastructure/src/main/java/com/game/playforge/infrastructure/external/ai/SummarizingChatMemoryStore.java:112-139 | the loop builds the summary prompt: instructions, the previous summary when there is one, then the transcript |
| MemoryStore.AppendTranscriptLine | infrastructure/src/main/java/com/game/playforge/infrastructure/external/ai/SummarizingChatMemoryStore.java:123-135 | one message's line, if any, is appended to the builder |
| MemoryStore.Compressed | infrastructure/src/main/java/com/game/playforge/infrastructure/external/ai/SummarizingChatMemoryStore.java:88-110 | exactly 21 messages: a system message starting with `[Context Summary]` and a newline, then the 20 newest messages unchanged |
| MemoryStore.CompressMessages | infrastructure/src/main/java/com/game/playforge/infrastructure/external/ai/SummarizingChatMemoryStore.java:88-110 | asks the prompt over the older messages and returns the compressed list |
| MemoryStore.RecompressionCarriesSummary | infrastructure/src/main/java/com/game/playforge/infrastructure/external/ai/SummarizingChatMemoryStore.java:93-99 | compressing an already compressed list again hands on its summary text (prefix and surrounding whitespace removed) as the previous summary and summarises only the messages after it |
| MemoryStore.UpdateOf | infrastructure/src/main/java/com/game/playforge/infrastructure/external/ai/SummarizingChatMemoryStore.java:60-80 | 30 messages or fewer, or a summary under five minutes ago, store the list as given and ask nothing; otherwise the model is asked, and only its reply compresses the list (21 messages) and starts the cooldown; a failed summary stores the list as given |
| MemoryStore.CompressedIsStable | infrastructure/src/main/java/com/game/playforge/infrastructure/external/ai/SummarizingChatMemoryStore.java:60-70 | storing a just-compressed list again right away leaves it as it is |
| MemoryStore.SummarizingChatMemoryStore.constructor | infrastructure/src/main/java/com/game/playforge/infrastructure/external/ai/SummarizingChatMemoryStore.java:46-52 | the store starts with no memories and no cooldown entries |
| MemoryStore.SummarizingChatMemoryStore.GetMessages | infrastructure/src/main/java/com/game/playforge/infrastructure/external/ai/SummarizingChatMemoryStore.java:55-57 | the stored list of a memory, empty for an unknown one |
| MemoryStore.SummarizingChatMemoryStore.UpdateMessages | infrastructure/src/main/java/com/game/playforge/infrastructure/external/ai/SummarizingChatMemoryStore.java:60-80 | the memory holds the list decided by the update, the cooldown time is recorded exactly when it compressed, and the summary prompt is returned exactly when the model was asked |
| MemoryStore.SummarizingChatMemoryStore.DeleteMessages | infrastructure/src/main/java/com/game/playforge/infrastructure/external/ai/SummarizingChatMemoryStore.java:83-86 | the memory and its cooldown entry are both removed |
| SubAgents.NullIfEmpty | application/src/main/java/com/game/playforge/application/service/agent/SubAgentService.java:105-106 | null exactly for the empty string, otherwise the string itself |
| SubAgents.BuildSystemPrompt | application/src/main/java/com/game/playforge/application/service/agent/SubAgentService.java:300-309 | the result starts with the archetype's prompt and equals it iff the extra prompt is null or blank; a non-blank extra prompt appears in it; it is empty only when both are |
| SubAgents.MergedToolNamesSpec | application/src/main/java/com/game/playforge/application/service/agent/SubAgentService.java:311-325 | no repeats and never `subAgentTool`; exactly the defaults and trimmed non-empty extras other than it; distinct defaults come first in their own order |
| SubAgents.NoNestedSubAgentTool | application/src/main/java/com/game/playforge/application/service/agent/SubAgentService.java:311-325 | with clean default names, the stored tool column of a new sub-agent never parses to include `subAgentTool`, whatever extras were asked for |
| SubAgents.TypeOfName | application/src/main/java/com/game/playforge/application/service/agent/SubAgentService.java:279-281 | a prefix of the name: the whole name without a dash, else the part before the last dash |
| SubAgents.TypeOfCreatedName | application/src/main/java/com/game/playforge/application/service/agent/SubAgentService.java:93 | the listing reads back the type a sub-agent was created with, even a type containing dashes |
| SubAgents.ParentThread | application/src/main/java/com/game/playforge/application/service/agent/SubAgentService.java:336-344 | success gives the user's stored, non-DELETED thread with that id; failures are THREAD_NOT_FOUND or THREAD_ACCESS_DENIED with their messages, a missing thread always THREAD_NOT_FOUND |
| SubAgents.SubAgentAccess | application/src/main/java/com/game/playforge/application/service/agent/SubAgentService.java:346-366 | a parent failure is passed on; success gives an active definition of the user under that parent and its ACTIVE thread with the given id; a thread id with no ACTIVE row always fails |
| SubAgents.ParentAfterArchiving | application/src/main/java/com/game/playforge/application/service/agent/SubAgentService.java:346-366 | archiving a stored thread keeps an accessible parent thread accessible |
| SubAgents.AccessOfMember | application/src/main/java/com/game/playforge/application/service/agent/SubAgentService.java:346-366 | every team member under an accessible parent passes the membership check with its own context |
| SubAgents.CreationCheck | application/src/main/java/com/game/playforge/application/service/agent/SubAgentService.java:62-85 | an unknown type fails first with the registered names listed, a missing parent thread gives THREAD_NOT_FOUND; success means the type's descriptor, an accessible parent thread and a Lead Agent that has `subAgentTool`; AGENT_ACCESS_DENIED only for nesting |
| SubAgents.DeletedForeignParent | application/src/main/java/com/game/playforge/application/service/agent/SubAgentService.java:62-85 | another user's DELETED parent thread is THREAD_ACCESS_DENIED to creation but THREAD_NOT_FOUND to every later check, since creation tests the owner first |
| SubAgents.TeamListing | application/src/main/java/com/game/playforge/application/service/agent/SubAgentService.java:261-288 | fails exactly when the parent check fails, with its error |
| SubAgents.MembersSpec | application/src/main/java/com/game/playforge/application/service/agent/SubAgentService.java:268-285 | the entries are exactly the user's members among the definitions |
| SubAgents.TeamListingSpec | application/src/main/java/com/game/playforge/application/service/agent/SubAgentService.java:261-288 | the listing holds exactly the members created under the parent thread, each typed by its name |
| SubAgents.AppendedMember | application/src/main/java/com/game/playforge/application/service/agent/SubAgentService.java:97-126 | a definition and its thread appended under fresh ids, the user's, active and under an accessible parent, pass the membership check and appear in the listing |
| SubAgents.CreatedJoinsTeam | application/src/main/java/com/game/playforge/application/service/agent/SubAgentService.java:97-126 | a created sub-agent at once passes the membership check and is listed under the type it was created with |
| SubAgents.NestedCreationDenied | application/src/main/java/com/game/playforge/application/service/agent/SubAgentService.java:80-85 | creating a sub-agent under a sub-agent's own thread fails with AGENT_ACCESS_DENIED |
| SubAgents.Destroy | application/src/main/java/com/game/playforge/application/service/agent/SubAgentService.java:242-256 | fails exactly when the membership check fails, with its error |
| SubAgents.DestroyedIsGone | application/src/main/java/com/game/playforge/application/service/agent/SubAgentService.java:242-256 | after a destroy the tables stay well formed and the thread is THREAD_NOT_FOUND to every later call |
| SubAgents.SecondThreadOfDestroyed | application/src/main/java/com/game/playforge/application/service/agent/SubAgentService.java:242-256 | another ACTIVE thread of a destroyed sub-agent fails with AGENT_NOT_FOUND, its definition being inactive |
| SubAgents.ArchivedRows | application/src/main/java/com/game/playforge/application/service/agent/SubAgentService.java:248-253 | same length; exactly the threads with the given ids become ARCHIVED |
| SubAgents.DeactivatedRows | application/src/main/java/com/game/playforge/application/service/agent/SubAgentService.java:248-253 | same length; exactly the definitions with the given ids become inactive |
| SubAgents.ReplaceArchived | application/src/main/java/com/game/playforge/application/service/agent/SubAgentService.java:251-252 | archiving one more stored thread adds its id to the archived set |
| SubAgents.ReplaceDeactivated | application/src/main/java/com/game/playforge/application/service/agent/SubAgentService.java:249-250 | deactivating one more stored definition adds its id to the set |
| SubAgents.DestroyStep | application/src/main/java/com/game/playforge/application/service/agent/SubAgentService.java:293-298 | each destroy in the cascade finds the next listed member and archives it |
| SubAgents.StepFindsMember | application/src/main/java/com/game/playforge/application/service/agent/SubAgentService.java:293-298 | before its own destroy, a listed member is still reachable, unchanged |
| SubAgents.NoMembersAfterDestroying | application/src/main/java/com/game/playforge/application/service/agent/SubAgentService.java:293-298 | once every member is destroyed, no member is left |
| SubAgents.DestroyAllEmptiesTeam | application/src/main/java/com/game/playforge/application/service/agent/SubAgentService.java:293-298 | on an accessible parent thread, with one ACTIVE thread per sub-agent, no destroy fails and the team listing is empty afterwards; an inaccessible parent changes nothing |
| SubAgents.FinalAttempt | application/src/main/java/com/game/playforge/application/service/agent/SubAgentService.java:192-214 | the first attempt from k on that does not continue; every attempt before it hit a rate limit with a sleep that ran out |
| SubAgents.Backoffs | application/src/main/java/com/game/playforge/application/service/agent/SubAgentService.java:198-199 | exactly n sleeps |
| SubAgents.SleepsBegun | application/src/main/java/com/game/playforge/application/service/agent/SubAgentService.java:192-214 | at most three sleeps |
| SubAgents.ChatWithRetry | application/src/main/java/com/game/playforge/application/service/agent/SubAgentService.java:192-214 | returns the final attempt's reply or rethrows its exception, after exactly the sleeps begun |
| SubAgents.BackoffsGrow | application/src/main/java/com/game/playforge/application/service/agent/SubAgentService.java:198-199 | the j-th sleep lies in [2^j*15, 2^j*15+10) seconds and each is longer than the one before |
| SubAgents.RetryOutcome | application/src/main/java/com/game/playforge/application/service/agent/SubAgentService.java:192-214 | a reply is the first reply reached only through rate limits; a failure is the final attempt's own exception; a first failure other than a rate limit ends the loop at once without sleeping; a third sleep follows a rate limit on the third attempt |
| SubAgents.ReplyContent | application/src/main/java/com/game/playforge/application/service/agent/SubAgentService.java:162-175 | a reply is stored as is; a failure as a note that starts with the error prefix |
| SubAgents.TurnHistory | application/src/main/java/com/game/playforge/application/service/agent/SubAgentService.java:141-190 | a turn extends the thread's history by exactly the task (role user) and then the reply or error note (role assistant), with the next two ids |
| SubAgents.StampedTurn | application/src/main/java/com/game/playforge/application/service/agent/SubAgentService.java:141-190 | the two stored messages spelled out: the task as `user`, then the reply or note as `assistant`, with consecutive ids |
| SubAgents.TurnRows | application/src/main/java/com/game/playforge/application/service/agent/SubAgentService.java:146-186 | storing the user message and then the reply or error note in their own transactions appends exactly the stamped turn |
| SubAgents.OfThreadAppendPair | application/src/main/java/com/game/playforge/application/service/agent/SubAgentService.java:141-190 | two messages of the thread appended to the table are appended to its history |
| SubAgents.SubAgentService.constructor | application/src/main/java/com/game/playforge/application/service/agent/SubAgentService.java:37-42 | the service keeps its registry and repositories, which are well formed |
| SubAgents.SubAgentService.CreateSubAgent | application/src/main/java/com/game/playforge/application/service/agent/SubAgentService.java:58-129 | a failed check returns its error and changes nothing; otherwise the definition and thread are inserted together, the name is the type, a dash and the UUID prefix, and the info returned names the new thread |
| SubAgents.SubAgentService.Chat | application/src/main/java/com/game/playforge/application/service/agent/SubAgentService.java:141-190 | a failed membership check changes nothing; otherwise the task and the reply or error note are stored, the thread's count rises by two, and the outcome and sleeps are those of the agent call and retry loop |
| SubAgents.SubAgentService.RecordTurn | application/src/main/java/com/game/playforge/application/service/agent/SubAgentService.java:147-189 | the part after the check: the two messages stored, the count raised by two, the call's outcome returned |
| SubAgents.SubAgentService.StoreMessage | application/src/main/java/com/game/playforge/application/service/agent/SubAgentService.java:147-155 | one message inserted under the next id and the thread's count raised by one in the same step, as each of the three per-message transactions of `chat` does (also 165-173 and 178-186) |
| SubAgents.SubAgentService.DestroySubAgent | application/src/main/java/com/game/playforge/application/service/agent/SubAgentService.java:242-256 | a failed check is returned with nothing changed; otherwise the tables become those of `Destroy` |
| SubAgents.SubAgentService.ListTeamAgents | application/src/main/java/com/game/playforge/application/service/agent/SubAgentService.java:261-288 | the team listing of the current tables |
| SubAgents.SubAgentService.ActiveEntries | application/src/main/java/com/game/playforge/application/service/agent/SubAgentService.java:277-284 | one entry per ACTIVE thread of the definition, in thread order |
| SubAgents.SubAgentService.DestroyAllByParentThread | application/src/main/java/com/game/playforge/application/service/agent/SubAgentService.java:293-298 | the tables and first failure are those of the cascade over the listing |
| SubAgentTools.NormalizeEmpty | application/src/main/java/com/game/playforge/application/service/agent/tools/SubAgentTool.java:209-214 | null exactly for null, blank text or any spelling of "null"; anything else is kept as given |
| SubAgentTools.FirstWithThread | application/src/main/java/com/game/playforge/application/service/agent/tools/SubAgentTool.java:201-207 | None iff no listed entry has the thread id; otherwise the first entry that has it |
| SubAgentTools.TargetOfSpec | application/src/main/java/com/game/playforge/application/service/agent/tools/SubAgentTool.java:87-95 | a tool reaches a sub-agent iff its text parses as a long and the listing holds an entry with that id, and then it gets that listed entry; unparsable text gives the NumberFormatException message |
| SubAgentTools.AliasedIdsBypassGuard | application/src/main/java/com/game/playforge/application/service/agent/tools/SubAgentTool.java:94-95 | while task "12" is pending, "012" names the same sub-agent and is still dispatched, since the bus is keyed by the text |
| SubAgentTools.AwaitReplyIdle | application/src/main/java/com/game/playforge/application/service/agent/tools/SubAgentTool.java:117-123 | with nothing drained, the reply is "no pending tasks" exactly when nothing is pending |
| SubAgentTools.AwaitReplyClosing | application/src/main/java/com/game/playforge/application/service/agent/tools/SubAgentTool.java:139-144 | with results drained, the reply ends with "[All agents completed]" exactly when nothing is pending any more |
| SubAgentTools.AwaitReplyBlocks | application/src/main/java/com/game/playforge/application/service/agent/tools/SubAgentTool.java:131-137 | with results drained, the reply contains each result's block |
| SubAgentTools.WorkingCount | application/src/main/java/com/game/playforge/application/service/agent/tools/SubAgentTool.java:188-190 | never more than the team size |
| SubAgentTools.WorkingPlusIdle | application/src/main/java/com/game/playforge/application/service/agent/tools/SubAgentTool.java:188-192 | the working and idle counts add up to the team size |
| SubAgentTools.RenderBlocks | application/src/main/java/com/game/playforge/application/service/agent/tools/SubAgentTool.java:131-137 | the loop appends exactly the result blocks, in order |
| SubAgentTools.RenderTeam | application/src/main/java/com/game/playforge/application/service/agent/tools/SubAgentTool.java:180-187 | the loop appends the heading and one line per listed sub-agent |
| SubAgentTools.SubAgentTool.Note | application/src/main/java/com/game/playforge/application/service/agent/tools/SubAgentTool.java:46-50 | at most one progress event, and one exactly when there is a callback |
| SubAgentTools.SubAgentTool.constructor | application/src/main/java/com/game/playforge/application/service/agent/tools/SubAgentTool.java:36-44 | the tool keeps its user, parent thread, service, bus and callback |
| SubAgentTools.SubAgentTool.CreateSubAgent | application/src/main/java/com/game/playforge/application/service/agent/tools/SubAgentTool.java:57-82 | a failed creation check gives "Failed to create sub-agent: " plus its message and changes nothing; otherwise the tables are those of the service's creation with the optional prompt and tools normalised, and the reply describes the new sub-agent |
| SubAgentTools.SubAgentTool.Target | application/src/main/java/com/game/playforge/application/service/agent/tools/SubAgentTool.java:91-92 | the sub-agent named by the text, under the current team listing |
| SubAgentTools.SubAgentTool.DispatchTask | application/src/main/java/com/game/playforge/application/service/agent/tools/SubAgentTool.java:87-106 | an id that does not parse or name a team member is refused with the bus unchanged; otherwise the bus dispatch decides: refused while the id is pending, else the task is pending and the reply and progress event give the new count |
| SubAgentTools.SubAgentTool.DispatchTo | application/src/main/java/com/game/playforge/application/service/agent/tools/SubAgentTool.java:94-101 | the reply, event and bus state of the bus dispatch under the id text |
| SubAgentTools.SubAgentTool.AwaitResults | application/src/main/java/com/game/playforge/application/service/agent/tools/SubAgentTool.java:110-151 | the bus becomes its drained state and the reply renders the drained results with the remaining count; a wait event always, a received event only when something arrived |
| SubAgentTools.SubAgentTool.DestroySubAgent | application/src/main/java/com/game/playforge/application/service/agent/tools/SubAgentTool.java:155-168 | an id that does not name a team member changes nothing; otherwise the bus task under the id text is cancelled and then the sub-agent is destroyed, a failed destroy reported with its message |
| SubAgentTools.SubAgentTool.CancelThenDestroy | application/src/main/java/com/game/playforge/application/service/agent/tools/SubAgentTool.java:158-161 | the bus cancels the id text first; then the tables become the destroy's, or stay with its error |
| SubAgentTools.SubAgentTool.ListTeamAgents | application/src/main/java/com/game/playforge/application/service/agent/tools/SubAgentTool.java:171-199 | a failed listing gives its message; otherwise a line per member, WORKING when a task is pending under its id, then the totals |
| ChatApp.CheckThread | application/src/main/java/com/game/playforge/application/service/impl/AgentChatAppServiceImpl.java:176-188 | an accepted thread is a stored row with the requested id that is not DELETED and belongs to the caller; every refusal is THREAD_NOT_FOUND or THREAD_ACCESS_DENIED |
| ChatApp.CheckThreadSpec | application/src/main/java/com/game/playforge/application/service/impl/AgentChatAppServiceImpl.java:176-188 | with unique thread ids: not found exactly when no live row has the id (a deleted thread of another user is not found, not denied); denied exactly when the live row belongs to another user; accepted exactly when it belongs to the caller |
| ChatApp.DefinitionOf | application/src/main/java/com/game/playforge/application/service/impl/AgentChatAppServiceImpl.java:190-196 | the definition returned is a stored one with the thread's agent id; AGENT_NOT_FOUND exactly when no definition has that id |
| ChatApp.Admission | application/src/main/java/com/game/playforge/application/service/impl/AgentChatAppServiceImpl.java:92-93 | a turn is admitted only with the thread check's thread and the definition of its agent; a failing thread check is reported before the definition is looked up |
| ChatApp.Converted | application/src/main/java/com/game/playforge/application/service/impl/AgentChatAppServiceImpl.java:222-229 | conversion never produces more chat messages than there are stored rows |
| ChatApp.ConvertedSources | application/src/main/java/com/game/playforge/application/service/impl/AgentChatAppServiceImpl.java:222-229 | every recovered chat message comes from a stored user or assistant row and carries that row's text |
| ChatApp.ConvertedEmpty | application/src/main/java/com/game/playforge/application/service/impl/AgentChatAppServiceImpl.java:222-229 | nothing is recovered exactly when no row of the window is a user or assistant turn |
| ChatApp.ConvertedOneForOne | application/src/main/java/com/game/playforge/application/service/impl/AgentChatAppServiceImpl.java:222-229 | a window of user and assistant rows converts one message per row, in the same order |
| ChatApp.ConvertMessages | application/src/main/java/com/game/playforge/application/service/impl/AgentChatAppServiceImpl.java:222-229 | the conversion loop builds exactly the converted sequence of the rows |
| ChatApp.RecentWindow | application/src/main/java/com/game/playforge/application/service/impl/AgentChatAppServiceImpl.java:211-220 | the recovery window holds only stored rows of the thread being recovered |
| ChatApp.RecoveryOfWindow | application/src/main/java/com/game/playforge/application/service/impl/AgentChatAppServiceImpl.java:198-235 | recovery writes the conversion of the recent window of the thread, and only when the cache is empty, the thread has a non-zero message count and the conversion is non-empty |
| ChatApp.RecoverySpec | application/src/main/java/com/game/playforge/application/service/impl/AgentChatAppServiceImpl.java:198-235 | a filled cache or a thread whose count is null or zero is never recovered; otherwise memory is rebuilt exactly when the window holds a user or assistant row, and then only from user and AI messages of that thread |
| ChatApp.FinalCall | application/src/main/java/com/game/playforge/application/service/impl/AgentChatAppServiceImpl.java:275-293 | the retry loop stops at the first call that does not fail retryably with retries and an uninterrupted sleep left; every earlier call failed retryably |
| ChatApp.LeadBackoffs | application/src/main/java/com/game/playforge/application/service/impl/AgentChatAppServiceImpl.java:491-495 | one sleep per retry, in order |
| ChatApp.SleepsStarted | application/src/main/java/com/game/playforge/application/service/impl/AgentChatAppServiceImpl.java:275-293 | the lead loop sleeps at most MAX_RATE_LIMIT_RETRIES (2) times |
| ChatApp.ChatWithRetry | application/src/main/java/com/game/playforge/application/service/impl/AgentChatAppServiceImpl.java:275-293 | the synchronous loop returns the reply or rethrows the failure of its final call, and sleeps exactly the backoffs of the retries it began |
| ChatApp.LeadBackoffsGrow | application/src/main/java/com/game/playforge/application/service/impl/AgentChatAppServiceImpl.java:491-495 | each backoff lies in [2^a * 2000 + 300, 2^a * 2000 + 1200) ms and is longer than the one before |
| ChatApp.LeadRetryOutcome | application/src/main/java/com/game/playforge/application/service/impl/AgentChatAppServiceImpl.java:275-293 | at most three calls; a reply is that of the first call reached through retryable failures; a rethrown failure is the final call's exception; a non-retryable first failure is rethrown with no sleep; a second sleep follows a retryable second failure |
| ChatApp.TimeoutRetriedOnlyByLead | application/src/main/java/com/game/playforge/application/service/impl/AgentChatAppServiceImpl.java:442-489 | a socket read timeout is retried by the lead's loop (transient network error) but is not a rate limit, so a sub-agent's loop does not retry it |
| ChatApp.RestartRule | application/src/main/java/com/game/playforge/application/service/impl/AgentChatAppServiceImpl.java:306-326 | the stream restarts exactly when the failure is retryable, nothing was streamed yet, fewer than two retries were made and the sleep was not interrupted; otherwise the subscriber gets the error and the turn ends |
| ChatApp.FallbackText | application/src/main/java/com/game/playforge/application/service/impl/AgentChatAppServiceImpl.java:404-423 | streamed text is kept; with none, the completion's trimmed text is sent as a token when it is not blank, else the progress hint with the pending count when sub-agent tasks are pending, else the response stays empty |
| ChatApp.FallbackThinking | application/src/main/java/com/game/playforge/application/service/impl/AgentChatAppServiceImpl.java:396-402 | the completion's thinking is used only when none was streamed, and the fallback only appends signals |
| ChatApp.CancelledTurnIsInert | application/src/main/java/com/game/playforge/application/service/impl/AgentChatAppServiceImpl.java:329-384 | once the subscriber cancelled, the start, partial-response, partial-thinking, error and completion callbacks change nothing |
| ChatApp.StreamTurn.constructor | application/src/main/java/com/game/playforge/application/service/impl/AgentChatAppServiceImpl.java:129-137 | a fresh turn: attempt 0, nothing streamed, no signal sent, not cancelled |
| ChatApp.StreamTurn.Begin | application/src/main/java/com/game/playforge/application/service/impl/AgentChatAppServiceImpl.java:295-326 | starting the stream either streams or, on a failed start, follows the restart rule; the turn invariant (buffers equal the streamed tokens and thinking, the end signal last and only once finished, each wait within its range) is kept |
| ChatApp.StreamTurn.Fail | application/src/main/java/com/game/playforge/application/service/impl/AgentChatAppServiceImpl.java:306-326 | the shared failure handling follows the restart rule and keeps the turn invariant |
| ChatApp.StreamTurn.Finish | application/src/main/java/com/game/playforge/application/service/impl/AgentChatAppServiceImpl.java:363-384 | the end signal is appended last and the turn is finished |
| ChatApp.StreamTurn.PartialResponse | application/src/main/java/com/game/playforge/application/service/impl/AgentChatAppServiceImpl.java:329-335 | a token is appended to the response buffer and sent as a token event unless the turn was cancelled; the invariant is kept |
| ChatApp.StreamTurn.PartialThinking | application/src/main/java/com/game/playforge/application/service/impl/AgentChatAppServiceImpl.java:336-346 | non-empty thinking is appended to the thinking buffer and sent as a thinking event unless the turn was cancelled or the partial is null; the invariant is kept |
| ChatApp.StreamTurn.StreamError | application/src/main/java/com/game/playforge/application/service/impl/AgentChatAppServiceImpl.java:363-384 | a stream error is ignored once cancelled, else handled by the restart rule; the invariant is kept |
| ChatApp.StreamTurn.EmitCompletionFallback | application/src/main/java/com/game/playforge/application/service/impl/AgentChatAppServiceImpl.java:392-424 | applies the thinking then the text fallback and keeps the invariant |
| ChatApp.StreamTurn.EmitThinkingFallback | application/src/main/java/com/game/playforge/application/service/impl/AgentChatAppServiceImpl.java:396-402 | the thinking half of the fallback; the turn keeps streaming |
| ChatApp.StreamTurn.EmitTextFallback | application/src/main/java/com/game/playforge/application/service/impl/AgentChatAppServiceImpl.java:404-423 | the text half of the fallback; the turn keeps streaming |
| ChatApp.StreamTurn.CompleteResponse | application/src/main/java/com/game/playforge/application/service/impl/AgentChatAppServiceImpl.java:347-362 | a cancelled turn writes nothing; otherwise, after the fallback, the streamed text is stored as one assistant message, the thread's count rises by one and the completion signal ends the stream |
| ChatApp.StreamTurn.Cancel | application/src/main/java/com/game/playforge/application/service/impl/AgentChatAppServiceImpl.java:134-136 | cancellation only marks the turn cancelled |
| ChatApp.LeadTurnHistory | application/src/main/java/com/game/playforge/application/service/impl/AgentChatAppServiceImpl.java:255-269 | a saved turn extends the thread's history by the user message then the reply, with the next two ids |
| ChatApp.ChatOutcomeSpec | application/src/main/java/com/game/playforge/application/service/impl/AgentChatAppServiceImpl.java:90-109 | a reply needs a live thread of the caller and is the retry loop's reply; a missing or deleted thread is not found; a live thread of another user is denied; a model failure is the loop's final exception |
| ChatApp.ChatAppService.constructor | application/src/main/java/com/game/playforge/application/service/impl/AgentChatAppServiceImpl.java:71-86 | the service starts with an empty memory cache and no task manager |
| ChatApp.ChatAppService.RecoverMemoryIfNeeded | application/src/main/java/com/game/playforge/application/service/impl/AgentChatAppServiceImpl.java:198-235 | the cache afterwards is the old cache with the thread's entry replaced by the recovered dialogue when recovery applies; task managers are untouched |
| ChatApp.ChatAppService.RecoveredDialogue | application/src/main/java/com/game/playforge/application/service/impl/AgentChatAppServiceImpl.java:198-235 | computes the dialogue recovery would write for the thread's current cache entry |
| ChatApp.ChatAppService.BuildExtraTools | application/src/main/java/com/game/playforge/application/service/impl/AgentChatAppServiceImpl.java:143-157 | without the sub-agent tool the thread's task manager is removed and shut down and no tool is added; with it, one new sub-agent tool bound to the caller, the thread and the thread's manager (the same manager on every turn, created empty on the first) |
| ChatApp.ChatAppService.DropTaskManager | application/src/main/java/com/game/playforge/application/service/impl/AgentChatAppServiceImpl.java:144-149 | the thread's task manager is removed from the map and shut down |
| ChatApp.ChatAppService.TaskManagerFor | application/src/main/java/com/game/playforge/application/service/impl/AgentChatAppServiceImpl.java:152 | the thread's existing task manager, or a fresh empty one stored under the thread |
| ChatApp.ChatAppService.ShutdownTaskManagers | application/src/main/java/com/game/playforge/application/service/impl/AgentChatAppServiceImpl.java:160-165 | every task manager is shut down and the map is cleared |
| ChatApp.ChatAppService.ShutdownAll | application/src/main/java/com/game/playforge/application/service/impl/AgentChatAppServiceImpl.java:160-165 | every task manager of the set is shut down |
| ChatApp.ChatAppService.Equip | application/src/main/java/com/game/playforge/application/service/impl/AgentChatAppServiceImpl.java:95-97 | memory is recovered and the thread holds a task manager exactly when its agent has the sub-agent tool |
| ChatApp.ChatAppService.SaveTurn | application/src/main/java/com/game/playforge/application/service/impl/AgentChatAppServiceImpl.java:102-105 | the user message and the reply are stored with the next two ids and the thread's count rises by two |
| ChatApp.ChatAppService.Chat | application/src/main/java/com/game/playforge/application/service/impl/AgentChatAppServiceImpl.java:90-109 | the reply or failure is ChatOutcome; only a reply stores the turn (two rows, count plus two); a refused turn leaves memory and task managers alone; the sleeps are the retry loop's backoffs |
| ChatApp.ChatAppService.Converse | application/src/main/java/com/game/playforge/application/service/impl/AgentChatAppServiceImpl.java:95-108 | after the checks: recovery and the extra tools, then an unsupported provider is refused, else the retry loop's reply is saved or its failure rethrown |
| ChatApp.ChatAppService.ChatStream | application/src/main/java/com/game/playforge/application/service/impl/AgentChatAppServiceImpl.java:112-138 | a refused turn changes nothing; an admitted one stores the user message and raises the count by one before the agent is built, then either refuses an unsupported provider or returns a fresh turn at attempt 0 on the same tables |
| ChatApp.ChatAppService.SaveUserMessage | application/src/main/java/com/game/playforge/application/service/impl/AgentChatAppServiceImpl.java:237-244 | stores the user message with the next id and raises the thread's count by one |
| ChatApp.ChatAppService.Prologue | application/src/main/java/com/game/playforge/application/service/impl/AgentChatAppServiceImpl.java:118-124 | recovery then the stored user message and the count plus one; task managers untouched |
| ChatApp.ChatAppService.OpenStream | application/src/main/java/com/game/playforge/application/service/impl/AgentChatAppServiceImpl.java:118-137 | the admitted part of a streaming turn: the message stored, memory recovered, then the provider check and a fresh turn |
| ChatApp.ChatAppService.Launch | application/src/main/java/com/game/playforge/application/service/impl/AgentChatAppServiceImpl.java:126-132 | the extra tools, the provider check, and a fresh turn at its initial state on the service's tables |
| ChatApp.ChatAppService.CompleteStream | application/src/main/java/com/game/playforge/application/service/impl/AgentChatAppServiceImpl.java:347-362 | the completion callback reads the thread's pending sub-agent count for the fallback; a cancelled turn writes nothing, otherwise the streamed text is stored and the count rises by one |
| AgentManagement.OfUser | application/src/main/java/com/game/playforge/application/service/impl/AgentManagementServiceImpl.java:40-44 | the listing holds exactly the stored definitions of the user that are active, so an agent deleted (deactivated) is no longer listed |
| AgentManagement.GetAgent | application/src/main/java/com/game/playforge/application/service/impl/AgentManagementServiceImpl.java:46-57 | a returned definition is stored, has the id and belongs to the caller; AGENT_NOT_FOUND exactly when no definition has the id; any other refusal is AGENT_ACCESS_DENIED |
| AgentManagement.GetAgentDenied | application/src/main/java/com/game/playforge/application/service/impl/AgentManagementServiceImpl.java:49-55 | with unique ids, access is denied exactly when the stored definition with the id belongs to another user |
| AgentManagement.ParseProvider | application/src/main/java/com/game/playforge/application/service/impl/AgentManagementServiceImpl.java:128-134 | a provider parses to the constant whose name equals its upper-cased text, and to no other; anything else is PARAM_VALIDATION_FAILED with the unsupported-provider message |
| AgentManagement.LeadAgentTools | application/src/main/java/com/game/playforge/application/service/impl/AgentManagementServiceImpl.java:82 | a Lead Agent's tool list holds the sub-agent tool |
| AgentManagement.LeadAgentShape | application/src/main/java/com/game/playforge/application/service/impl/AgentManagementServiceImpl.java:75-86 | a Lead Agent is named provider-model-uuidPrefix, resolves back to its provider, has the sub-agent tool and a memory window of 20, is active, has no parent thread, belongs to the caller and is displayed by the given name or else the model name |
| AgentManagement.CreatedLeadIsAdmitted | application/src/main/java/com/game/playforge/application/service/impl/AgentManagementServiceImpl.java:67-101 | a Lead Agent and thread just created pass the checks every chat turn begins with: the thread is found, live, the caller's, and bound to that agent |
| AgentManagement.DestroyEachKeeps | application/src/main/java/com/game/playforge/application/service/impl/AgentManagementServiceImpl.java:116-121 | destroying a lead thread's sub-agents one by one keeps the tables well formed and every definition present |
| AgentManagement.DestroyTeamsKeeps | application/src/main/java/com/game/playforge/application/service/impl/AgentManagementServiceImpl.java:116-121 | destroying the team of every lead thread keeps the tables well formed and every definition present |
| AgentManagement.AgentTeamsKeeps | application/src/main/java/com/game/playforge/application/service/impl/AgentManagementServiceImpl.java:116-121 | the team cascade keeps the tables well formed and the agent present; for a sub-agent (with a parent thread) nothing happens |
| AgentManagement.DeactivateSpec | application/src/main/java/com/game/playforge/application/service/impl/AgentManagementServiceImpl.java:123-124 | after a failed cascade the transaction rolls back to the tables it began with; otherwise the threads are kept and the agent reads back inactive |
| AgentManagement.DeleteAgentSpec | application/src/main/java/com/game/playforge/application/service/impl/AgentManagementServiceImpl.java:103-126 | a failed owner check is reported with nothing changed; any failure leaves the tables as they were; success means the agent reads back inactive with the tables well formed; deleting a sub-agent touches no thread and cannot fail after the check |
| AgentManagement.DeletedAgentUnlisted | application/src/main/java/com/game/playforge/application/service/impl/AgentManagementServiceImpl.java:103-126 | after a successful delete no definition with the deleted id is in the owner's listing, since deletion stores it inactive and the listing keeps only active definitions |
| AgentManagement.AgentManagementService.constructor | application/src/main/java/com/game/playforge/application/service/impl/AgentManagementServiceImpl.java:30-34 | the service shares its tables with the sub-agent service |
| AgentManagement.AgentManagementService.CreateAgent | application/src/main/java/com/game/playforge/application/service/impl/AgentManagementServiceImpl.java:59-65 | the definition is stored as given with the next id, except that its owner is always the caller |
| AgentManagement.AgentManagementService.CreateAgentWithThread | application/src/main/java/com/game/playforge/application/service/impl/AgentManagementServiceImpl.java:67-101 | an unsupported provider stores nothing; otherwise the Lead Agent and its first thread (bound to the new agent id) are appended and returned together |
| AgentManagement.AgentManagementService.DeleteAgent | application/src/main/java/com/game/playforge/application/service/impl/AgentManagementServiceImpl.java:103-126 | the failure and the tables afterwards are exactly the outcome of the delete transaction (owner check, team cascade, deactivation, rollback on failure) |
| AgentManagement.AgentManagementService.DestroyLeadTeams | application/src/main/java/com/game/playforge/application/service/impl/AgentManagementServiceImpl.java:116-121 | the team of every thread of the caller on the agent is destroyed in turn, stopping at the first failure, which rolls back both tables |
| AgentManagement.AgentManagementService.Rollback | application/src/main/java/com/game/playforge/application/service/impl/AgentManagementServiceImpl.java:104 | a rollback restores both tables and their id generators to where the transaction began |
| ThreadService.ThreadAgent | application/src/main/java/com/game/playforge/application/service/impl/AgentThreadServiceImpl.java:40-49 | an accepted agent is a stored, active definition with the id that belongs to the caller; every refusal is AGENT_NOT_FOUND or AGENT_ACCESS_DENIED |
| ThreadService.ThreadAgentSpec | application/src/main/java/com/game/playforge/application/service/impl/AgentThreadServiceImpl.java:40-49 | with unique ids, accepted exactly for an active definition of the caller; denied exactly for a definition of another user, active or not (an inactive own definition is not found) |
| ThreadService.CreatedThreadIsReadable | application/src/main/java/com/game/playforge/application/service/impl/AgentThreadServiceImpl.java:51-58 | a thread just created passes the owner check for its creator and appears in both listings of the caller (by agent and overall) |
| ThreadService.DeleteThreadSpec | application/src/main/java/com/game/playforge/application/service/impl/AgentThreadServiceImpl.java:90-98 | deletion fails exactly when the owner check fails, with its error; afterwards the thread is not found for every user, appears in no listing, and every other thread reads back unchanged |
| ThreadService.History | application/src/main/java/com/game/playforge/application/service/impl/AgentThreadServiceImpl.java:101-108 | the owner check's error, or a page of at most 200 messages, all of that thread; the page is non-empty whenever the clamped offset lies inside the thread's messages |
| ThreadService.AgentThreadService.constructor | application/src/main/java/com/game/playforge/application/service/impl/AgentThreadServiceImpl.java:31-34 | the service holds the three tables and the chat memory store |
| ThreadService.AgentThreadService.CreateThread | application/src/main/java/com/game/playforge/application/service/impl/AgentThreadServiceImpl.java:37-62 | a refused agent stores nothing; otherwise an active thread with no messages and no tokens used is appended with the next id and returned |
| ThreadService.AgentThreadService.ListThreads | application/src/main/java/com/game/playforge/application/service/impl/AgentThreadServiceImpl.java:65-71 | the caller's live threads, newest first, restricted to the agent exactly when one is given |
| ThreadService.AgentThreadService.GetThread | application/src/main/java/com/game/playforge/application/service/impl/AgentThreadServiceImpl.java:74-87 | found exactly for a live thread of the caller; denied exactly for a live thread of another user; otherwise not found |
| ThreadService.AgentThreadService.DeleteThread | application/src/main/java/com/game/playforge/application/service/impl/AgentThreadServiceImpl.java:90-98 | a failed owner check changes nothing; otherwise the thread is stored deleted and its chat memory dropped |
| ThreadService.AgentThreadService.GetMessageHistory | application/src/main/java/com/game/playforge/application/service/impl/AgentThreadServiceImpl.java:101-108 | the page is History of the tables: the limit clamped into [1, 200] and the offset to at least 0, after the owner check |
| Oss.ValidateDirectory | infrastructure/src/main/java/com/game/playforge/infrastructure/external/oss/OssService.java:117-129 | an accepted directory was given, is the trimmed text, and is 1 to 120 characters of [a-zA-Z0-9/_-] that neither starts nor ends with / and holds no .. |
| Oss.ValidateDirectorySpec | infrastructure/src/main/java/com/game/playforge/infrastructure/external/oss/OssService.java:117-129 | a directory is accepted exactly when its trimmed text has that shape (the blank check is subsumed by the pattern) |
| Oss.ValidateDirectoryIdempotent | infrastructure/src/main/java/com/game/playforge/infrastructure/external/oss/OssService.java:117-129 | an accepted directory is accepted again as it is |
| Oss.UploadKeyShape | infrastructure/src/main/java/com/game/playforge/infrastructure/external/oss/OssService.java:56 | an upload key lies under dir/, is followed by exactly 32 hex characters, and is neither blank nor starting with / nor holding .. |
| Oss.GeneratePostPolicy | infrastructure/src/main/java/com/game/playforge/infrastructure/external/oss/OssService.java:47-75 | an invalid directory is OSS_POLICY_ERROR and nothing else is; otherwise the key under the directory, the Base64 policy JSON, its signature, the expiry 300 s after now, the https bucket host and the access key id |
| Oss.PolicyAdmitsKey | infrastructure/src/main/java/com/game/playforge/infrastructure/external/oss/OssService.java:56-62 | the key handed out starts with the policy's starts-with prefix, and the policy admits 0 to 10485760 bytes |
| Oss.StringToSignBindsKey | infrastructure/src/main/java/com/game/playforge/infrastructure/external/oss/OssService.java:92-95 | the signed text pins the object: within one bucket and expiry, equal signed texts mean equal keys |
| Oss.GenerateSignedUrl | infrastructure/src/main/java/com/game/playforge/infrastructure/external/oss/OssService.java:83-107 | no URL exactly for a null or blank key, a key starting with / or one holding ..; otherwise the https bucket URL of the key with the access key id, the expiry 3600 s after now and the signature of the GET text |
| Oss.UploadedKeyIsSignable | infrastructure/src/main/java/com/game/playforge/infrastructure/external/oss/OssService.java:84-90 | the key of every issued upload policy gets a signed read URL at any later time |
| ChatSocket.NonBlank | api/src/main/java/com/game/playforge/api/websocket/AgentChatWebSocketHandler.java:299-302 | the offered sub-protocols kept are exactly the non-blank ones |
| ChatSocket.ExtractToken | api/src/main/java/com/game/playforge/api/websocket/AgentChatWebSocketHandler.java:296-314 | a token found is never blank: the entry after a leading bearer sub-protocol (any case), else the trimmed text after the case-sensitive "Bearer " prefix of the Authorization header |
| ChatSocket.ProtocolTokenRoundTrip | api/src/main/java/com/game/playforge/api/websocket/AgentChatWebSocketHandler.java:297-306 | a clean token offered as the sub-protocols "bearer,token" is read back as it was, whatever the Authorization header says |
| ChatSocket.HeaderTokenRoundTrip | api/src/main/java/com/game/playforge/api/websocket/AgentChatWebSocketHandler.java:308-313 | without a bearer sub-protocol, a clean token after "Bearer " in the Authorization header is read back as it was |
| ChatSocket.LowerCaseHeaderRefused | api/src/main/java/com/game/playforge/api/websocket/AgentChatWebSocketHandler.java:309 | the Authorization prefix is case-sensitive: "bearer " yields no token |
| ChatSocket.Admit | api/src/main/java/com/game/playforge/api/websocket/AgentChatWebSocketHandler.java:81-121 | a session is admitted only with a token that parses to the user, a numeric threadId query parameter and an administrator flag of true; a missing URI, a missing token or threadId, an invalid token, a malformed thread id and a non-administrator are each refused with their own close status, in that order; a token the parser throws on escapes the handler |
| ChatSocket.RouteOf | api/src/main/java/com/game/playforge/api/websocket/AgentChatWebSocketHandler.java:128-158 | an unauthenticated session is refused; a chat needs a non-blank message and the session's own user and thread; cancel and unknown types are told apart by the frame's type |
| ChatSocket.ResolveErrorMessage | api/src/main/java/com/game/playforge/api/websocket/AgentChatWebSocketHandler.java:266-289 | the rate-limit text exactly when some frame of the cause chain is a RateLimitException or mentions "rate_limit" or "rate limit" (lower-cased); otherwise the generic text |
| ChatSocket.Session.Send | api/src/main/java/com/game/playforge/api/websocket/AgentChatWebSocketHandler.java:243-249 | an event is sent only while the session is open; nothing else about the session changes |
| ChatSocket.ChatSocketHandler.constructor | api/src/main/java/com/game/playforge/api/websocket/AgentChatWebSocketHandler.java:67 | no stream is active |
| ChatSocket.ChatSocketHandler.AfterConnectionEstablished | api/src/main/java/com/game/playforge/api/websocket/AgentChatWebSocketHandler.java:70-125 | nothing is sent; an admitted session stores its user and thread; a refused one is closed with the refusal's status and stores nothing; a failed profile lookup or a parser exception propagates with the session left open and unbound |
| ChatSocket.ChatSocketHandler.CancelActiveStream | api/src/main/java/com/game/playforge/api/websocket/AgentChatWebSocketHandler.java:209-215 | the session's subscription, if any, is removed and disposed; the other subscriptions are untouched; every listed subscription stays live and owned by one session |
| ChatSocket.ChatSocketHandler.HandleTextMessage | api/src/main/java/com/game/playforge/api/websocket/AgentChatWebSocketHandler.java:128-202 | a refused frame sends its error text and leaves the streams; cancel disposes the session's stream; a chat disposes the previous stream, then registers a fresh subscription under the session with every other entry kept, or sends the generic error when the stream cannot be opened; no other session's subscription is disposed |
| ChatSocket.ChatSocketHandler.OnToken | api/src/main/java/com/game/playforge/api/websocket/AgentChatWebSocketHandler.java:168-178 | each token is sent as a token event while the session is open |
| ChatSocket.ChatSocketHandler.OnError | api/src/main/java/com/game/playforge/api/websocket/AgentChatWebSocketHandler.java:179-183 | the client gets the resolved error text (if open) and the session's stream entry goes |
| ChatSocket.ChatSocketHandler.OnComplete | api/src/main/java/com/game/playforge/api/websocket/AgentChatWebSocketHandler.java:184-195 | the client gets done (if open) and the session's stream entry goes |
| ChatSocket.ChatSocketHandler.AfterConnectionClosed | api/src/main/java/com/game/playforge/api/websocket/AgentChatWebSocketHandler.java:217-241 | closing the connection or a transport error disposes and forgets the session's stream |
| Users.WithPhone | infrastructure/src/main/java/com/game/playforge/infrastructure/persistence/UserRepositoryImpl.java:43-49 | a row found has the phone asked for; nothing is found exactly when no row has that phone |
| Users.WithPhoneOfRow | infrastructure/src/main/java/com/game/playforge/infrastructure/persistence/UserRepositoryImpl.java:43-49 | with unique phones, looking up a stored row's phone finds that row |
| Users.WithPhoneAppend | infrastructure/src/main/java/com/game/playforge/infrastructure/persistence/UserRepositoryImpl.java:28-32 | a row appended with a phone not yet in the table is what a lookup of that phone finds, and phones stay unique |
| Users.ProfileIsStoredRow | infrastructure/src/main/java/com/game/playforge/infrastructure/external/cache/impl/UserCacheServiceImpl.java:45-58 | a coherent cache is invisible: the profile read is the table's row, or USER_NOT_FOUND when there is none; the cache stays coherent and afterwards holds the user exactly when the row exists |
| Users.CacheStoredRow | infrastructure/src/main/java/com/game/playforge/infrastructure/external/cache/impl/UserCacheServiceImpl.java:33-42 | caching a stored row keeps every cached user equal to the row stored under its id |
| Users.CoherentAfterInsert | infrastructure/src/main/java/com/game/playforge/infrastructure/persistence/UserRepositoryImpl.java:28-32 | appending a row under a fresh id keeps the cache coherent |
| Users.CoherentAfterUpdate | infrastructure/src/main/java/com/game/playforge/infrastructure/persistence/UserRepositoryImpl.java:52-56 | replacing a stored row and caching the replacement keeps the cache coherent |
| Users.UserRepository.constructor | infrastructure/src/main/java/com/game/playforge/infrastructure/persistence/UserRepositoryImpl.java:25 | the table starts empty, with ids from 1 |
| Users.UserRepository.FindById | infrastructure/src/main/java/com/game/playforge/infrastructure/persistence/UserRepositoryImpl.java:35-40 | a row found has the id; nothing is found only when no row has it |
| Users.UserRepository.FindByPhone | infrastructure/src/main/java/com/game/playforge/infrastructure/persistence/UserRepositoryImpl.java:43-49 | a row found has the phone; nothing is found exactly when no row has it |
| Users.UserRepository.Insert | infrastructure/src/main/java/com/game/playforge/infrastructure/persistence/UserRepositoryImpl.java:28-32 | the user is appended under the next generated id, which is returned |
| Users.UserRepository.Update | infrastructure/src/main/java/com/game/playforge/infrastructure/persistence/UserRepositoryImpl.java:52-56 | the row with the user's id is replaced by the user; ids are not consumed |
| Users.UserCache.constructor | infrastructure/src/main/java/com/game/playforge/infrastructure/external/cache/impl/UserCacheServiceImpl.java:29 | the cache starts empty |
| Users.UserCache.CacheUser | infrastructure/src/main/java/com/game/playforge/infrastructure/external/cache/impl/UserCacheServiceImpl.java:33-42 | the user is cached under its own id, replacing any earlier entry |
| Users.UserCache.GetCachedUser | infrastructure/src/main/java/com/game/playforge/infrastructure/external/cache/impl/UserCacheServiceImpl.java:45-58 | a user is returned exactly when one is cached under the id, and it is the cached one |
| Users.UserCache.EvictUser | infrastructure/src/main/java/com/game/playforge/infrastructure/external/cache/impl/UserCacheServiceImpl.java:61-65 | the id's entry is removed and nothing else |
| TokenStore.KeyOfInjective | infrastructure/src/main/java/com/game/playforge/infrastructure/external/auth/RedisTokenStore.java:37 | distinct tokens live under distinct keys |
| TokenStore.NewToken | infrastructure/src/main/java/com/game/playforge/infrastructure/external/auth/RedisTokenStore.java:36 | a refresh token is 32 hex characters (a UUID without its dashes) |
| TokenStore.UserIdOf | infrastructure/src/main/java/com/game/playforge/infrastructure/external/auth/RedisTokenStore.java:50-55 | a user id is read only for a token whose key is stored, and it lies in the 64-bit range |
| TokenStore.StoredIsFound | infrastructure/src/main/java/com/game/playforge/infrastructure/external/auth/RedisTokenStore.java:35-42 | after storing, the token reads back as its user; every other token reads as before |
| TokenStore.DeletedIsGone | infrastructure/src/main/java/com/game/playforge/infrastructure/external/auth/RedisTokenStore.java:62-66 | after deletion the token reads as absent; every other token reads as before |
| TokenStore.NeverCreatedIsAbsent | infrastructure/src/main/java/com/game/playforge/infrastructure/external/auth/RedisTokenStore.java:35-66 | over any history of creations and deletions, a token no operation created reads as absent |
| TokenStore.RedisTokenStore.constructor | infrastructure/src/main/java/com/game/playforge/infrastructure/external/auth/RedisTokenStore.java:26-27 | the store starts empty |
| TokenStore.RedisTokenStore.CreateRefreshToken | infrastructure/src/main/java/com/game/playforge/infrastructure/external/auth/RedisTokenStore.java:35-42 | the token made from the UUID is returned and stored under its key with the user id |
| TokenStore.RedisTokenStore.DeleteRefreshToken | infrastructure/src/main/java/com/game/playforge/infrastructure/external/auth/RedisTokenStore.java:62-66 | the token's key is removed |
| Auth.LoginCheck | application/src/main/java/com/game/playforge/application/service/impl/AuthServiceImpl.java:57-63 | a successful login is a stored row with that phone whose encoded password matches the given one; every failure is CREDENTIALS_ERROR (an unknown phone and a wrong password are not told apart) |
| Auth.LoginCheckSpec | application/src/main/java/com/game/playforge/application/service/impl/AuthServiceImpl.java:57-63 | with unique phones, login succeeds exactly when a stored row has the phone and a matching password, and then yields that row |
| Auth.RegisteredCanLogIn | application/src/main/java/com/game/playforge/application/service/impl/AuthServiceImpl.java:35-68 | a registration under a new phone keeps phones unique, and the account then logs in with the password it registered with (for a sound encoder) |
| Auth.RotationRetiresToken | application/src/main/java/com/game/playforge/application/service/impl/AuthServiceImpl.java:71-84 | a refresh retires the presented token, so it works at most once; the new token reads as the same user; every other token is unchanged |
| Auth.AuthService.constructor | application/src/main/java/com/game/playforge/application/service/impl/AuthServiceImpl.java:28-32 | the service starts over a table with unique phones, a cache coherent with it and a sound encoder |
| Auth.AuthService.Register | application/src/main/java/com/game/playforge/application/service/impl/AuthServiceImpl.java:35-54 | a taken phone is PHONE_ALREADY_REGISTERED with nothing changed; otherwise a non-administrator row with the encoded password is appended under the next id and a token pair for it is issued and stored |
| Auth.AuthService.Login | application/src/main/java/com/game/playforge/application/service/impl/AuthServiceImpl.java:57-68 | a failed check changes nothing; a successful one caches the user and issues a token pair stored under its id |
| Auth.AuthService.Refresh | application/src/main/java/com/game/playforge/application/service/impl/AuthServiceImpl.java:71-84 | an unknown token is REFRESH_TOKEN_INVALID with nothing changed; otherwise the old token is deleted and a new pair issued for its user |
| Auth.AuthService.Logout | application/src/main/java/com/game/playforge/application/service/impl/AuthServiceImpl.java:87-93 | a null token changes nothing; any other token is deleted |
| Auth.AuthService.GetCurrentUser | application/src/main/java/com/game/playforge/application/service/impl/AuthServiceImpl.java:96-109 | the cached user, else the stored row (then cached), else USER_NOT_FOUND |
| Auth.AuthService.GenerateTokenPair | application/src/main/java/com/game/playforge/application/service/impl/AuthServiceImpl.java:117-122 | the user's access token and a new refresh token stored under the user's id |
| UserService.PatchedFields | application/src/main/java/com/game/playforge/application/service/impl/UserServiceImpl.java:50-58 | each given field takes the given value, each absent one keeps the stored value, no other field changes; patching with nothing is the identity |
| UserService.UpdateProfileOn | application/src/main/java/com/game/playforge/application/service/impl/UserServiceImpl.java:43-62 | the update fails exactly when no row has the id, with USER_NOT_FOUND |
| UserService.UpdateProfileSpec | application/src/main/java/com/game/playforge/application/service/impl/UserServiceImpl.java:43-62 | after a successful update ids stay unique, the user reads back patched and every other user reads back unchanged |
| UserService.ReplaceWithStored | application/src/main/java/com/game/playforge/application/service/impl/UserServiceImpl.java:59 | writing back a row that is already stored changes nothing |
| UserService.UpdateProfileIdempotent | application/src/main/java/com/game/playforge/application/service/impl/UserServiceImpl.java:43-62 | applying the same update to its own result stores the same table |
| UserService.UserProfileService.constructor | application/src/main/java/com/game/playforge/application/service/impl/UserServiceImpl.java:24-25 | the service starts over a table with a coherent cache |
| UserService.UserProfileService.GetProfile | application/src/main/java/com/game/playforge/application/service/impl/UserServiceImpl.java:28-40 | the cached user, else the stored row (then cached), else USER_NOT_FOUND |
| UserService.UserProfileService.UpdateProfile | application/src/main/java/com/game/playforge/application/service/impl/UserServiceImpl.java:43-66 | a missing user is USER_NOT_FOUND with nothing changed; otherwise the row is stored patched, the patched user returned and cached under the id |
| UserService.UserProfileService.Store | application/src/main/java/com/game/playforge/application/service/impl/UserServiceImpl.java:59-62 | the row is replaced in the table and the cache entry evicted then re-filled with it |
| Web.FailWithIsConsistent | api/src/main/java/com/game/playforge/api/interceptor/AuthInterceptor.java:64-68 | a failure answer made from a code carries the status that code is bound to, and its body's code finds that constant back |
| Web.Authenticate | api/src/main/java/com/game/playforge/api/interceptor/AuthInterceptor.java:34-62 | every refusal is an authentication code answered with HTTP 401, except a token on which the parser throws something other than a `JwtException`, which leaves the interceptor and is answered INTERNAL_ERROR |
| Web.AuthenticateSpec | api/src/main/java/com/game/playforge/api/interceptor/AuthInterceptor.java:34-62 | NOT_LOGGED_IN exactly without a "Bearer " header; INTERNAL_ERROR exactly for a token the parser throws on; TOKEN_EXPIRED exactly for an expired token; TOKEN_INVALID exactly for an otherwise unparsable one; accepted exactly when the token parses, with its user id |
| Web.BlankBearerIsInternalError | api/src/main/java/com/game/playforge/api/interceptor/AuthInterceptor.java:34-50 | with JJWT's refusal of a blank token, a header of "Bearer " followed by nothing or white space is answered INTERNAL_ERROR with HTTP 500, not as an authentication failure |
| Web.AuthInterceptor.constructor | api/src/main/java/com/game/playforge/api/interceptor/AuthInterceptor.java:30 | the interceptor holds the token parser |
| Web.AuthInterceptor.PreHandle | api/src/main/java/com/game/playforge/api/interceptor/AuthInterceptor.java:34-62 | the request proceeds exactly when authentication succeeds, and then carries the user id as its current-user attribute with the response untouched; a token the parser throws on leaves request and response untouched and hands the exception to the handler; otherwise the response gets the code's status, its failure body and the JSON content type |
| Web.AuthInterceptor.WriteError | api/src/main/java/com/game/playforge/api/interceptor/AuthInterceptor.java:64-68 | the response gets the code's HTTP status, the JSON content type and the code's failure body |
| Web.Handle | api/src/main/java/com/game/playforge/api/config/GlobalExceptionHandler.java:35-113 | no answer is written exactly for a client abort or an unusable async request |
| Web.MessageNotBlank | common/src/main/java/com/game/playforge/common/result/ResultCode.java:23-125 | every result code carries a non-blank message |
| Web.HandleBusiness | api/src/main/java/com/game/playforge/api/config/GlobalExceptionHandler.java:35-44 | a business error is answered with its own code and that code's status, and a non-blank message: its own unless null or blank, else the code's message |
| Web.HandleValidation | api/src/main/java/com/game/playforge/api/config/GlobalExceptionHandler.java:52-61 | a validation failure answers PARAM_VALIDATION_FAILED with status 400 and the first field error's message, else the code's message |
| Web.HandleFallbacks | api/src/main/java/com/game/playforge/api/config/GlobalExceptionHandler.java:69-113 | a missing static resource answers NOT_FOUND (4001, 404); any other exception answers INTERNAL_ERROR (9001, 500) |
| Web.HandlerAgreesWithInterceptor | api/src/main/java/com/game/playforge/api/config/GlobalExceptionHandler.java:35-44 | a business error thrown with its code's own message is answered exactly as the interceptor answers that code |

## Left out

- Concurrency: threads, `CompletableFuture` scheduling and executors are not modelled. A task completing is an explicit `TaskBus` event. A wait that times out or is interrupted returns what has completed so far.
- Sleeping, retry jitter and thread interruption are parameters of the retry loops, not real waits.
- Reactor `Flux`/`FluxSink` and the LangChain4j `AiServices` assembly are reduced to the event sequences and checks they carry. The only way `createAgent` fails in the model is an unsupported provider.
- `ScopedModel`: `doChat` and `defaultRequestParameters` are delegated to the underlying model and are not modelled. Only the parameter sanitising is.
- The provider configuration classes and the model-provider registry beans are not part of this model. A provider is its enum value and a supported-or-not check.
- Persistence technology: MyBatis mappers, Redis, TTLs and cache serialisation are not modelled. Repositories are in-memory tables. A JSON failure in the user cache is not modelled.
- TokenStore: a stored refresh-token value that is not numeric yields `None`. The source throws `NumberFormatException` instead.
- SubAgentTools: progress events are returned as an out-parameter, not pushed into a sink.
- ChatApp: the background chat started for a sub-agent is not tied to its task's completion. The bus records only the completion events it is given.
- The exact message text of Java's `NumberFormatException` is assumed when the handler formats it.
- Some callees have no implementation in the source. They are given the signatures their callers use:
  - `findByParentThreadId`;
  - the `parentThreadId` and `skillNames` fields;
  - the four-argument `SubAgentTool` constructor;
  - `resolve(definition, String)`, modelled as `Prompts.SystemPromptResolver.ResolveWithContext`;
  - `AgentDefinitionRepository.findByUserId`, which has no implementation in the source. Its documented meaning, the user's enabled definitions, is modelled by `AgentManagement.OfUser`.
- The `AgentMessageMapper` paged and latest queries are abstract. Paging is ascending by insertion order. Latest is newest first.
- Temperature and other sampling settings are passed through without interpretation.
- Encodings and cryptography are parameters: Base64, HMAC-SHA1 signing, URL encoding, JJWT signing and parsing, and BCrypt hashing (a salted encoder).
- JSON parsing of WebSocket client frames is not modelled. A frame arrives as its parsed fields.
- Which tokens make the JJWT parser throw something other than a `JwtException` is a parameter (`Jwt.JwtOutcome.Malformed`). Only the refusal of a blank token is stated (`Jwt.RefusesBlank`).
- AgentTypeLabels: a TypeScript `Record` lookup of an inherited key such as `toString` is not modelled.
- The trace id from the MDC is a parameter. The expiration date format of signed URLs is a parameter.
- Java's `String.split` drops trailing empty pieces. The model splits fully, and every caller filters out empty or blank pieces afterwards.
- Random UUIDs (file names, refresh tokens) are parameters.
- Case mapping and digit parsing are ASCII-only. Java's `toUpperCase`, `toLowerCase`, `equalsIgnoreCase` and `Long.parseLong` also handle non-ASCII letters and digits. For example, a dotless `ı` upper-cases to `I`, and `parseLong` accepts full-width digits. This affects `Providers.ParseIgnoreCase`, the bearer sub-protocol match in `ChatSocket.ExtractToken`, the lower-casing in `Causes`, and the id parsing in `SubAgentTools.TargetOfSpec`.
- TaskBus: a task that finishes at the very moment it is cancelled is not modelled. `cancel` always completes the future first and its callback consumes the mark. In that race the source can queue the result and leave the mark behind, and the mark would then silence the next task dispatched under the same id.
- Phone-number uniqueness is a table invariant. The database unique index is not modelled.
- Spring's choice of exception handler is modelled by the `Thrown` datatype, one constructor per handled exception type.
- The servlet response writer and WebSocket session I/O are fields or logs of sent frames.
- The frontend UI, and the thin tool and skill classes that only delegate, are not part of this model.
- MessageRepo.AgentMessageRepository.CountByThreadId: states only that the count is at most the table size and is zero exactly when the thread has no messages. The exact count is not stated.
- Tools.Lookups: its own contract states membership only. The order of the result is stated by `Tools.LookupsAppend` and `Tools.LookupsConcat`.
- Skills.Matched: its own contract does not state that the input order is preserved.
- ChatSocket: what Spring does with an exception that escapes `afterConnectionEstablished` (`ChatSocket.Admission.Escaped`) is not modelled. The model leaves the session open and unbound.
