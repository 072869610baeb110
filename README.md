# The run/replay engine of replai, in Dafny

replai records the messages of an agent run and replays them later. A run
starts from an HTTP request or an AMQP delivery. The run's messages are
stored, the tool calls they carry are re-executed in order on tools that
share one context, and an optional agent is invoked. The run is marked
`running`, then `done` with a task status extracted from the agent's
messages, or `failed` when anything throws. This project models that
engine and proves what it promises. The model covers:

- the run and message store, with its SQLite and PostgreSQL dialects;
- the message schemas and the mappers between engine, store and LangChain
  messages, including the legacy variants;
- the tool context and the tool loop;
- `processRun` and the task-status extraction;
- the three runners (HTTP, RESTful and AMQP) and the local replay spawner;
- the evaluation prompt and the template parameterization of config messages.

Modules, one per file:

- `Js` (js.dfy): JavaScript values as a `Json` datatype, with `undefined`
  as `None`. It also has truthiness, property access that throws on null,
  `parseInt`, number printing, `join`, and `JSON.stringify`/`JSON.parse`
  as an abstract `Codec`. The round trip `decode(encode(x)) == x` is the
  predicate `Lawful`, required where a proof needs it.
- `Messages`: message types, run statuses, the run record, the
  `messageSchema` of the store as a parser that strips undeclared keys,
  and its inverse.
- `DbMappers`, `LcMappers`, `LegacyMappers`: the store-side, LangChain-side
  and legacy mappers.
- `Ordering`: a stable sort by timestamp, and LIMIT/OFFSET windows.
- `Store`: the free-standing query builders and table functions, and the
  class `Database`. The class holds the `runs` and `messages` tables, the
  id counters, and a ghost log of the writes in the order they happened.
- `Tools`: the `ToolContext` class (the closure cell of `createContext`),
  tools as pure functions of the stored context and their input, and
  `executeTools`/`executeSingleTool` as methods proved against
  `StepSpec`/`RunSpec`.
- `TaskStatus`: `extractTaskStatus`. The fenced-JSON regex is a concrete
  leftmost-match search; JSON parsing goes through the codec.
- `RunProcessor`: `processRun`, the LangChain replay callback and the
  agent, each method proved against a specification of its trace.
- `FrontEnd`: what the runners share: message assembly, GET /runs
  pagination, the read routes, the failure writes and the replay responses.
- `HttpRunner`, `RestfulRunner`, `AmqpRunner`, `LocalSpawner`: the
  handlers. Each is a method that writes to the store and the tool context,
  proved equal to a specification function (`PostSpec`, `ConsumeSpec`,
  `ReplaySpec`, `LocalReplaySpec`). The lemmas state what the source
  promises about those functions.
- `Prompts`: `evaluateTask`, read through its lines, and
  `LangChainHumanMessageToParameterizedMessage`.

Discrepancies between the code and its evident intent are modelled as the
code is written, and each is stated by a lemma:

- The RESTful runner hands `processRun` an `agentInvoke` option, but
  `processRun` reads `agentInvokeFactory`. Without a custom processor,
  every run that is not tools-only therefore ends `failed`
  (`RestfulRunner.AgentRunsFail`, `RestfulRunner.MappedRunFailsAtFactory`).
- The local spawner passes the message `getMessage` returns to the message
  package's `toMessage`. That mapper expects a raw row with `run_id`, so
  every request with both ids answers 500 and runs no tool
  (`LocalSpawner.LocalReplayNeverReplays`).
- The package mapper reads the singular `tool_call` column, which no store
  writes (`LegacyMappers.PackageToMessage`, see
  `LegacyMappers.PackageToMessageOfStoredMessage`).
- On an AMQP delivery for a run the store does not hold, the catch block
  throws too. The delivery is never acknowledged
  (`AmqpRunner.UnknownRunIsNeverAcked`).
- In both HTTP runners, GET /runs/:runId/messages/:messageId cannot answer
  404, because `getMessage` throws rather than returning nothing; a missing
  message is a 500 (`FrontEnd.FetchMessage`).
- In the HTTP runner, a rejected message throws after the run was
  created. The request is never answered and the run stays `scheduled`
  (`HttpRunner.UnstoredRunIsUnanswered`).

## Model

| member | source | states |
|---|---|---|
| Messages.TypeFromName | database/model/index.ts:4-8 | a name denotes a message type exactly when it is one of "HumanMessage", "ToolMessage", "AiMessage" |
| Messages.TypeNameRoundTrip | database/model/index.ts:4-8 | every message type's name is recognised as that type again |
| Messages.StatusNameInjective | database/model/index.ts:21-26 | the four run statuses have four distinct column values |
| Messages.ParseEach | database/model/index.ts:61-71 | an array validates iff every element does; the results keep the elements' order and count |
| Messages.ParseMessageToJson | database/model/index.ts:44-73 | every validated message is accepted by the schema again and reproduced exactly |
| Messages.ParseBlockToJson | database/model/index.ts:50-58 | every text or image block is accepted again and reproduced |
| Messages.ParseContentToJson | database/model/index.ts:48-60 | every content value (string, block array, null) is accepted again and reproduced |
| Messages.ParseCallsToJson | database/model/index.ts:61-71 | every list of tool calls is accepted again and reproduced, in order |
| Messages.ParseMessageStripsUnknownKeys | database/model/index.ts:44-73 | keys the schema does not declare do not change whether a message validates or what it becomes |
| Messages.ParseMessageIgnoresTimestamp | database/model/index.ts:72 | when the timestamp is omitted from the schema, its presence or value is irrelevant |
| Messages.ParseMessage | database/model/index.ts:44-73 | a message validates iff it is an object whose runId is a string, type one of the three names, content and toolCalls valid, and (when demanded) timestamp a number; the result carries exactly those values |
| Messages.ParseContentAccepts | database/model/index.ts:48-60 | content is valid iff it is a string, null, or an array of text/image blocks |
| Messages.ParseToolCallsAccepts | database/model/index.ts:61-71 | toolCalls is valid iff it is null or an array of `{name: string, args: {input: string or record}}` |
| DbMappers.IsMessageType | database/mappers/toDbMessage.ts:8-10 | true exactly for the three message type names |
| DbMappers.StoredTypeName | database/mappers/toDbMessage.ts:26 | a valid type name is kept; any other becomes "AiMessage" |
| DbMappers.ToDbMessage | database/mappers/toDbMessage.ts:12-28 | run_id is the message's runId and the validated type is kept; string content is stored unchanged, null content as null, and block content as a text that decodes back to it; tool_calls is present exactly when toolCalls is non-null (even empty) and decodes back to it; tool_call_id is always null |
| DbMappers.DecodeCall | database/mappers/toMessage.ts:19-28 | a decoded call keeps the name; args appears only for a defined input, a falsy one becoming ""; a null call or missing args throws a TypeError |
| DbMappers.DecodeCalls | database/mappers/toMessage.ts:18-29 | on success one decoded call per call, in order, each as `DecodeCall` gives it; otherwise the first call's error |
| DbMappers.DecodeToolCalls | database/mappers/toMessage.ts:14-30 | null for an empty column, a non-array or an empty array; otherwise the decoded calls; an unparsable column throws a SyntaxError |
| DbMappers.ToMessage | database/mappers/toMessage.ts:4-33 | runId, type and timestamp are the row's; content comes back as stored; toolCalls as `DecodeToolCalls` gives them; no id and no toolCallId |
| DbMappers.DecodeCallsThrowsTypeError | database/mappers/toMessage.ts:18-29 | decoding a list of calls can only throw a TypeError |
| DbMappers.ToMessageThrows | database/mappers/toMessage.ts:4-33 | reading a row back throws only a SyntaxError from the tool_calls column or a TypeError from one of its calls |
| DbMappers.ExpectedCalls | database/mappers/toMessage.ts:18-29 | one read-back call per validated call, in order, with its name and input |
| DbMappers.DecodeEncodedCall | database/mappers/toMessage.ts:18-29 | an encoded validated call decodes to its name and input (a falsy input as "") |
| DbMappers.DecodeEncodedCalls | database/mappers/toMessage.ts:14-30 | an encoded non-empty list of validated calls decodes to those calls, in order |
| DbMappers.RoundTrip | database/mappers/toMessage.ts:4-33 | the fields `toDbMessage` builds for a validated message, filed under a stored runId and read back, give that runId, the message's type, its string content and every call's name and input in order |
| LcMappers.ToType | langchain/mappers/toMessage.ts:3-14 | "human", "ai" and "tool" map to their types; anything else is AiMessage |
| LcMappers.ToTypeNeverFalsy | langchain/mappers/toMessage.ts:17-22 | the mapped type is always a non-empty name, so the "Message is required" throw is dead |
| LcMappers.LcCall | langchain/mappers/toMessage.ts:33-38 | a call becomes `{id, name, args, type: "tool_call"}` or `{name, args}`; reading a null call throws |
| LcMappers.LcCalls | langchain/mappers/toMessage.ts:31-39 | calls map one to one and in order, or the first call's error |
| LcMappers.LcToMessage | langchain/mappers/toMessage.ts:16-44 | succeeds iff the value is a LangChain message whose `tool_calls`, when an array, holds no null call; otherwise a value without `_getType` throws a TypeError, a function object "Message must be an object", and a null call a TypeError; a success is a message object with exactly type, content, toolCalls, toolCallId and timestamp |
| LcMappers.LcToDbMessage | langchain/mappers/toDbMessage.ts:16-40 | succeeds iff the value is a LangChain message with no null call in an array `tool_calls`, with the same refusals as `lcToMessage`; a success has exactly type, content, toolCalls and timestamp, with no toolCallId |
| LcMappers.LcToMessageFields | langchain/mappers/toMessage.ts:28-43 | both mappers read type, content (null when absent) and the clock alike; a value without `_getType` throws a TypeError, and a function object is refused |
| LcMappers.LcToMessageCalls | langchain/mappers/toDbMessage.ts:31-37 | an array of calls maps one to one and in order: full records keep id/name/args and add the tag, store records keep name and args; a non-array gives null |
| LcMappers.LangChainToDbMessage | database/mappers/langchain.ts:17-31 | the row has the mapped type, the encoded content, the encoded tool_calls when truthy else "", and the current time |
| LcMappers.LangChainContentAlwaysEncoded | database/mappers/langchain.ts:24 | string content is stored as its encoding, not as itself |
| LcMappers.ToLcMessage | langchain/mappers/toLcMessage.ts:9-27 | HumanMessage gives a human message with content or ""; AiMessage an AI message with content or "" and calls or []; any other type a tool message with content or "" and tool_call_id or "" |
| LcMappers.TypeSurvivesLangChain | langchain/mappers/toLcMessage.ts:12-26 | the class `toLcMessage` picks reports a tag that `toType` maps back to the same type |
| LcMappers.UnknownTypeBecomesTool | langchain/mappers/toLcMessage.ts:23-26 | a type other than the three names becomes a tool message |
| LegacyMappers.ClassToType | message/src/index.ts:8-18 | ToolMessage is tested before HumanMessage; anything else is AiMessage |
| LegacyMappers.MessageFields | runner/mappers/toMessage.ts:5-38 | the object literal has runId, and type, content, tool_calls and timestamp exactly when defined, and no other key |
| LegacyMappers.LegacyToMessage | runner/mappers/toMessage.ts:4-39 | a missing or null run_id throws a TypeError first, then a content error, then a tool-calls error; it succeeds exactly when none throws, with runId as text, type, content, tool_calls and (when copied) timestamp, and no other key |
| LegacyMappers.RunnerToMessage | runner/mappers/toMessage.ts:4-39 | the runner mapper reads tool calls from `tool_calls` and copies the timestamp |
| LegacyMappers.PackageToMessage | message/src/index.ts:20-54 | the package mapper reads tool calls from the singular `tool_call` column and sets no timestamp |
| LegacyMappers.ReadCallName | message/src/index.ts:40-49 | a call written back carries its name under "name" |
| LegacyMappers.ReadCallsToJson | runner/mappers/toMessage.ts:23-34 | one JSON call per decoded call, in order |
| LegacyMappers.LegacyContent | runner/mappers/toMessage.ts:8-18 | string content is kept unchanged (the decoding of other content is `LegacyContentDecodes`) |
| LegacyMappers.LegacyToolCalls | runner/mappers/toMessage.ts:19-36 | a falsy column gives no tool_calls key (the truthy case is `LegacyToolCallsPresent`) |
| LegacyMappers.RunnerToMessageFields | runner/mappers/toMessage.ts:4-39 | for string content: runId is the run_id's text, type, content and timestamp are copied, and tool_calls is as `LegacyToolCalls` gives it |
| LegacyMappers.LegacyToolCallsPresent | runner/mappers/toMessage.ts:19-36 | tool_calls is present iff the column decodes to a non-empty array, and then holds each call's name and, for a defined input, `args.input` with a falsy input as "" |
| LegacyMappers.DecodedCallToJson | message/src/index.ts:39-50 | a decoded call written back keeps its name and, under args, its input (a falsy one as "") |
| LegacyMappers.LegacyContentDecodes | message/src/index.ts:24-34 | non-string content decodes by its `type` tag: "text" gives a text block, any other tag an image block, no tag the raw content |
| LegacyMappers.LegacyNullContentThrows | message/src/index.ts:27 | null content never yields a block: the `in` test on parsed null throws |
| LegacyMappers.PackageToMessageOfStoredMessage | message/src/index.ts:20-22 | fed a message as `getMessage` returns it, the package mapper finds no run_id and throws a TypeError |
| LegacyMappers.ParseLegacyMessages | message/model/index.ts:44 | an array is accepted iff every element is, in order |
| LegacyMappers.ParseLegacyMessageToJson | message/model/index.ts:20-40 | every well-formed legacy message is accepted and reproduced |
| LegacyMappers.LegacyContentNeverNullOrArray | message/model/index.ts:23-30 | legacy content is a string or one block, never null or an array |
| LegacyMappers.LegacyNullToolCallsRefused | message/model/index.ts:31-38 | an explicit null tool_calls is refused; the key may only be absent or an array |
| Ordering.Insert | database/src/sqlite.ts:69 | the element is added exactly once, and a sorted sequence stays sorted |
| Ordering.HeadBelowAll | database/src/sqlite.ts:69 | the head of a sorted sequence is at or below every later key |
| Ordering.SortBy | database/src/sqlite.ts:69 | the result is sorted by the key and is a permutation of the input |
| Ordering.Window | database/src/sqlite.ts:69-70 | OFFSET then LIMIT: the elements from position max(offset, 0) (or none past the end) onwards, exactly `limit` of them or all that remain when fewer or when the limit is negative |
| Ordering.WindowKeepsOrder | database/src/sqlite.ts:69-70 | a window of a sorted sequence is sorted and holds only its elements |
| Ordering.WindowsTile | database/src/sqlite.ts:69-70 | page k+1 starts where page k ends |
| Store.ActiveFilters | database/src/postgresql.ts:58-70 | at most two filters, status first, each non-empty |
| Store.MatchesAllIff | database/src/sqlite.ts:54-67 | a run matches iff each truthy filter equals its column |
| Store.FilterRuns | database/src/sqlite.ts:45-68 | exactly the stored runs that match, in table order |
| Store.Conditions | database/src/postgresql.ts:58-70 | one condition per filter, numbered from 1 in filter order |
| Store.FilterParams | database/src/postgresql.ts:58-70 | one text parameter per filter, in filter order |
| Store.BuildWhere | database/src/postgresql.ts:55-71 | the conditions and parameters of the truthy filters, with `paramIndex` one past the last placeholder |
| Store.BuildRunsQuery | database/src/postgresql.ts:49-80 | k filter placeholders, then LIMIT as placeholder k+1 and OFFSET as k+2, with exactly that many parameters in that order |
| Store.BuildCountQuery | database/src/postgresql.ts:81-108 | the same conditions and exactly one parameter per placeholder |
| Store.PlaceholderMarks | database/src/postgresql.ts:62 | each placeholder holds one marker character |
| Store.ConditionsMarks | database/src/postgresql.ts:58-70 | each condition holds one placeholder |
| Store.WhereClauseMarks | database/src/postgresql.ts:71-73 | the WHERE clause holds one placeholder per filter |
| Store.PageClauseMarks | database/src/postgresql.ts:75 | the ORDER BY/LIMIT/OFFSET tail holds two placeholders |
| Store.RunsQueryPlaceholders | database/src/postgresql.ts:55-76 | the listing query holds k+2 placeholders |
| Store.CountQueryPlaceholders | database/src/postgresql.ts:85-104 | the count query holds k placeholders |
| Store.IndexOfRun | database/src/sqlite.ts:99-108 | the first run whose id prints as the given text, no run before it printing so; none exactly when no run does |
| Store.IndexOfMessage | database/src/sqlite.ts:116-126 | the first row matching both run_id and id, no row before it matching both; none exactly when no row does |
| Store.RowsOfRun | database/src/sqlite.ts:109-115 | a row is kept exactly when it is stored under that run |
| Store.ToMessages | database/src/sqlite.ts:109-115 | on success one message per row, each as `toMessage` makes it; it fails exactly when some row fails, with the error of the first failing row |
| Store.Merged | database/src/postgresql.ts:174-178 | `{runId, ...message}`: the message's own runId wins over the argument |
| Store.Validate | database/src/postgresql.ts:174-184 | one validated message per input, or the index of a refused one |
| Store.ValidateAccepted | database/src/sqlite.ts:169-179 | an accepted batch holds, position by position, what the schema made of each merged message |
| Store.ValidateRejected | database/src/sqlite.ts:169-179 | a rejected batch names its first refused message; all before it pass |
| Store.ValidateAcceptsIff | database/src/sqlite.ts:169-179 | the batch is accepted iff every merged message passes the schema |
| Store.ToFields | database/src/sqlite.ts:187-196 | one row of fields per message, each as `toDbMessage` makes it |
| Store.NewRows | database/src/postgresql.ts:191-208 | one row per validated message in input order: consecutive ids, the call's runId, the row's type and content, its tool calls or "", and a clock reading of its own, the i-th row the i-th reading |
| Store.IdStrings | database/src/postgresql.ts:205-207 | the new ids as text, in insertion order |
| Store.StoredRowsReadBack | database/src/sqlite.ts:185-200 | each row of a committed batch reads back under the call's runId, whatever runId the message carried, with the message's type, content and calls in order and the row's own clock reading |
| Store.NewRowsInClockOrder | database/src/postgresql.ts:191-208 | with a clock that never goes back, a batch's ids increase and its timestamps never decrease in insertion order |
| Store.NewRowsSnoc | database/src/postgresql.ts:191-208 | inserting one more message appends exactly its row, with the next id and the next clock reading |
| Store.AppendRowValid | database/src/sqlite.ts:181-203 | appending a row with the next id keeps ids positive, increasing and below the counter |
| Store.Database.constructor | database/src/sqlite.ts:15-44 | both tables and the write log start empty |
| Store.Database.GetRun | database/src/sqlite.ts:99-108 | a stored run whose id prints as the given text; "Run not found" exactly when no run has it |
| Store.Database.GetMessage | database/src/sqlite.ts:116-126 | "Message not found" when no row matches both ids; otherwise the first matching row through `toMessage`, and a result always comes from a matching row |
| Store.Database.GetMessageFindsStored | database/src/sqlite.ts:116-126 | ids are unique, so any stored row of that run with that id is the one `getMessage` decodes |
| Store.Database.GetAllMessages | database/src/sqlite.ts:109-115 | one message per row of the run, in `RunRows` order, each through `toMessage`; it fails exactly when some row of the run fails to decode, with the first such row's error |
| Store.Database.RunRows | database/src/sqlite.ts:112 | `ORDER BY timestamp ASC`: the run's rows, and only they, each as often as stored, in non-decreasing timestamp order |
| Store.Database.GetRuns | database/src/sqlite.ts:45-73 | exactly the window at offset and limit of `Listing`; hence at most limit runs, each stored and matching, sorted in the requested direction; PostgreSQL refuses exactly a negative limit or offset, with the driver's error |
| Store.Database.Listing | database/src/sqlite.ts:51-69 | the matching runs, each as often as stored, sorted by timestamp in the requested direction |
| Store.Database.PagesTile | database/src/sqlite.ts:69-70 | two consecutive pages of `limit` runs are one page of twice that limit: no run is skipped or repeated |
| Store.Database.GetRunsCount | database/src/sqlite.ts:74-98 | the number of runs matching the same filters |
| Store.Database.ListingWithinCount | database/src/sqlite.ts:45-98 | a page never holds more runs than the count reports |
| Store.Database.FullPageIsCount | database/src/sqlite.ts:45-98 | a first page at least as large as the count holds exactly the counted runs |
| Store.Database.CreateRun | database/src/sqlite.ts:127-138 | a new run with a fresh id, `scheduled`, task status "unknown" (PostgreSQL also reason ""), stamped now, its id returned as text; nothing else changes |
| Store.Database.UpdateRunStatus | database/src/sqlite.ts:139-149 | an unknown run throws "Run not found" and nothing changes; otherwise only that run's status changes |
| Store.Database.UpdateRunTaskStatus | database/src/postgresql.ts:159-169 | an unknown run throws and nothing changes; otherwise only that run's task status changes, and on PostgreSQL its reason |
| Store.Database.InsertMessages | database/src/sqlite.ts:165-209 | validation before any write; then every row appended under runId in input order, each stamped by its own clock reading, with new ids returned in that order, or the messages table left exactly as it was |
| Store.Database.RejectedAt | database/src/postgresql.ts:191-212 | the row the driver rejects: the first when PostgreSQL's run_id foreign key fails, else the fault row |
| Store.Database.WriteRows | database/src/postgresql.ts:186-216 | the transaction: a clock reading per attempted row; every row appended and committed exactly when the driver accepts the batch, else a rollback to the prior table at the first rejected row, SQLite also restoring its id counter |
| Store.Database.InsertRow | database/src/postgresql.ts:192-207 | one INSERT: the row takes the next id, the call's runId, its fields and the given stamp, and its id comes back as text; nothing else changes |
| Store.Database.Rollback | database/src/postgresql.ts:211-213 | ROLLBACK: the messages table is the saved one again; SQLite also restores its id counter, a PostgreSQL sequence keeps its value |
| Tools.UpdatedFromUndefined | tools/src/tool-extension.ts:11-22 | an update before any set gives exactly the update |
| Tools.UpdatedTwice | tools/src/tool-extension.ts:17-22 | two updates merge as one whose later keys win |
| Tools.OwnEntries | tools/src/tool-extension.ts:18-21 | what spreading the storage copies: an object's own keys, an array's items or a string's characters under their indices, and nothing for undefined, null, a boolean or a number |
| Tools.Updated | tools/src/tool-extension.ts:17-22 | the update's keys win, every other own entry of the storage keeps its value, and no other key appears |
| Tools.IndexedPair | tools/src/tool-extension.ts:18-21 | two elements spread under the keys "0" and "1" |
| Tools.UpdatedString | tools/src/tool-extension.ts:17-22 | updating a stored "ab" with {x: 1} gives {"0": "a", "1": "b", x: 1} |
| Tools.ToolContext.constructor | tools/src/tool-extension.ts:10-11 | a new context holds undefined |
| Tools.ToolContext.SetContext | tools/src/tool-extension.ts:14-16 | the storage is replaced by the new value |
| Tools.ToolContext.UpdateContext | tools/src/tool-extension.ts:17-22 | the storage becomes an object: the update's keys with their new values, the other own entries of the old storage (an object's keys, or an array's or string's indices) with theirs, and no other key |
| Tools.ApplyWrite | tools/src/tool-extension.ts:13-22 | a set replaces the storage, an update spreads it as `Updated` says, no write leaves it |
| Tools.ToolsWithContext | tools/src/tool-extension.ts:31-40 | one tool per definition, same names in the same order, all bound to one new context; a definition without a function throws |
| Tools.Names | tools/model/index.ts:6 | the registry's names in order |
| Tools.NotFoundMessageEmpty | tools/model/index.ts:4-7 | with an empty registry the message ends in ": " |
| Tools.NotFoundMessageSingle | tools/model/index.ts:4-7 | a one-tool registry names that tool after the colon |
| Tools.NotFoundMessageGrows | tools/model/index.ts:6 | one more tool adds ", " and its name at the end |
| Tools.Lookup | runner/routines/run.ts:140 | the first tool whose name equals the call's, or none |
| Tools.StepUnknownTool | runner/routines/run.ts:136-152 | a call no tool answers throws ToolNotFoundError and leaves the context alone |
| Tools.StepSucceeds | runner/routines/run.ts:136-152 | a successful call reports its own name and the first matching tool's result |
| Tools.RunSpec | runner/routines/run.ts:124-134 | on success one result per call, in call order, each named after its call |
| Tools.RunSpecSnoc | runner/routines/run.ts:129-132 | one more call after a prefix that ran: that call's outcome decides, on the prefix's context |
| Tools.RunSpecAborts | runner/routines/run.ts:124-134 | after a failing prefix, later calls change neither the outcome nor the context |
| Tools.RunSpecPrefix | runner/routines/run.ts:124-134 | a run that succeeds on a list succeeds on each prefix |
| Tools.UnknownToolFailsRun | runner/routines/run.ts:124-152 | an unknown tool anywhere in the list makes the whole run throw |
| Tools.RunSpecAppend | runner/routines/run.ts:124-134 | running two lists back to back is running their concatenation |
| Tools.ExecuteSingleTool | runner/routines/run.ts:136-152 | `executeSingleTool` on the shared context does what `StepSpec` says |
| Tools.ExecuteTools | runner/routines/run.ts:124-134 | the loop returns what `RunSpec` says and leaves the context it says |
| TaskStatus.SkipSpaces | runner/routines/run.ts:29 | the first non-whitespace index at or after the start |
| TaskStatus.FirstClose | runner/routines/run.ts:29 | the first `}` from the start that whitespace and a closing fence follow |
| TaskStatus.MatchAt | runner/routines/run.ts:29 | a match starts with the opening fence, and its captured text starts with `{` and ends with `}` |
| TaskStatus.LeftmostFirst | runner/routines/run.ts:29 | the search returns the match at the first position that matches, and nothing when none does |
| TaskStatus.FindBlockLeftmost | runner/routines/run.ts:29 | the block found is the one at the leftmost matching position |
| TaskStatus.NoFenceNoBlock | runner/routines/run.ts:29 | text without an opening fence has no block |
| TaskStatus.ParseVerdict | runner/routines/run.ts:10-13 | a verdict exactly for an object whose taskStatus and reason are strings, holding those two strings |
| TaskStatus.ExtractTaskStatus | runner/routines/run.ts:15-48 | `unknown` when no message yields a verdict; the verdict of the last message that yields one; never anything but the default or some message's verdict |
| TaskStatus.ExtractDefault | runner/routines/run.ts:43-46 | no message with a valid block (the empty list too) gives `unknown` and "Ai didn't express a reason" |
| TaskStatus.ExtractLastValid | runner/routines/run.ts:18-42 | the last message with a valid block wins; later messages without one do not reset it |
| TaskStatus.ExtractSource | runner/routines/run.ts:15-48 | the verdict is the default or one some message expressed |
| TaskStatus.NoContentIgnored | runner/routines/run.ts:20-28 | a non-object, null, or a message without string content leaves the verdict as it was |
| TaskStatus.LeftmostOnly | runner/routines/run.ts:29-39 | only the leftmost block counts; when it fails to parse or validate the message contributes nothing |
| RunProcessor.ResultMessages | runner/routines/run.ts:108-115 | a result that is not an object with a message array contributes no messages to the verdict |
| RunProcessor.LengthOf | runner/routines/run.ts:81 | the `length` a string or an array has, the `length` key of an object, and none for a number, a boolean or null |
| RunProcessor.HasToolCalls | runner/routines/run.ts:80-82 | reading toolCalls of null throws a TypeError; otherwise kept iff toolCalls is truthy and its length compares above 0 with JavaScript's `>`: a non-empty array or string, an object with such a `length` key; never a number or boolean |
| RunProcessor.KeptToolCalls | runner/routines/run.ts:80-82 | fails (a TypeError) exactly when some message is null; otherwise the toolCalls of every kept message, and only those |
| RunProcessor.CallLists | runner/routines/run.ts:84-88 | succeeds exactly when the filter succeeds and every kept toolCalls value is iterable, giving each value's items in order |
| RunProcessor.PhaseSpec | runner/routines/run.ts:84-89 | no kept message runs nothing and leaves the context as it was |
| RunProcessor.IteratedPrefix | runner/routines/run.ts:84-88 | the call lists of a prefix of the kept values are the prefix of their call lists |
| RunProcessor.LateTypeError | runner/routines/run.ts:84-88 | a kept toolCalls value that is not iterable throws a TypeError only at its turn, after every earlier message's tools ran, and their context stays |
| RunProcessor.PhaseIsOneRun | runner/routines/run.ts:84-89 | when every kept toolCalls value is iterable, running the tools message by message is running all their calls as one list: same first error and same final context |
| RunProcessor.RunToolPhase | runner/routines/run.ts:84-89 | the loop iterates each kept toolCalls value and runs its calls, returning what `PhaseSpec` says and leaving its context |
| RunProcessor.PhaseAborts | runner/routines/run.ts:84-89 | a failing prefix of messages fixes the outcome of the whole phase |
| RunProcessor.LcCallback | langchain/callbacks/index.ts:9-14 | a batch exactly for outputs with a message list whose every message maps, one row per message in order, each as `lcToDbMessage` makes it; outputs without messages write nothing |
| RunProcessor.EndsWrites | langchain/callbacks/index.ts:10-14 | the writes of several chain ends are their batches in order, each for this run |
| RunProcessor.HandleChainEnd | langchain/callbacks/index.ts:10-14 | one chain end inserts its batch for the captured run, or nothing; its error never reaches the agent |
| RunProcessor.ReplayChainEnds | langchain/callbacks/index.ts:10-14 | the callback runs on each chain end in order and appends exactly `EndsWrites` |
| RunProcessor.AgentOutcome | runner/routines/run.ts:91-107 | the first message the mapper throws on ends the agent phase; otherwise a missing factory throws, and an agent settles as it does |
| RunProcessor.AgentEnds | runner/routines/run.ts:96-106 | no chain ends when the agent is never invoked: no factory, or a message the mapper throws on |
| RunProcessor.AgentPhase | runner/routines/run.ts:91-107 | the agent's outcome, with its chain-end batches written before it settles |
| RunProcessor.PhasesSpec | runner/routines/run.ts:80-107 | every write of the tool and agent phases is a message batch of this run |
| RunProcessor.Phases | runner/routines/run.ts:80-107 | the phases return, write and leave what `PhasesSpec` says |
| RunProcessor.ProcessRun | runner/routines/run.ts:50-122 | an unknown run throws "Run not found" before anything else; a known run is processed as `ProcessSpec` says |
| RunProcessor.ProcessRest | runner/routines/run.ts:80-121 | after `running`, everything as `RestSpec` says, with the run left running after a throw and done after completion |
| RunProcessor.ProcessSpec | runner/routines/run.ts:50-122 | processing starts with `running`; after a throw only this run's message batches follow it; a completed run ends with `done` then its task status and reason, with only its own batches in between |
| RunProcessor.Finish | runner/routines/run.ts:116-121 | `done`, then the task status and reason |
| RunProcessor.IndexOfRunKeepsIds | runner/routines/run.ts:79 | changing fields other than ids keeps every lookup by id |
| RunProcessor.ToolFailureStopsBeforeAgent | runner/routines/run.ts:84-89 | a failing tool stops the run before the agent; the only write is `running` |
| RunProcessor.ToolsOnlyIsUnknown | runner/routines/run.ts:91-115 | with toolsOnly and succeeding tools the run is done with the default verdict and the agent is never consulted |
| RunProcessor.MissingFactoryFails | runner/routines/run.ts:100 | without a factory, a run that needs the agent throws after its tools ran and stores nothing more |
| FrontEnd.ConfigMessagesInOrder | runner/src/http-runner.ts:49-51 | one message per configured message, in order; a template error wins over a mapping error wherever they are |
| FrontEnd.ReplayPart | runner/src/http-runner.ts:55-60 | nothing for a falsy replayMessages; otherwise its spread, which can only throw a TypeError |
| FrontEnd.Assemble | runner/src/http-runner.ts:49-60 | fails exactly when a configured message throws (included or not) or replayMessages is not iterable, a throwing template winning; otherwise the mapped configured messages when included, then the replayed ones |
| FrontEnd.ConfigMessagesValues | runner/src/http-runner.ts:49-51 | each mapped configured message is its own parameterize-then-map result |
| FrontEnd.QueryNumber | runner/src/http-runner.ts:116-117 | the value `parseInt` without a radix gives (hexadecimal after 0x included) when it is a non-zero integer, else the default; never 0 for a non-zero default |
| FrontEnd.QueryNumberExamples | runner/src/http-runner.ts:116-117 | "3" is 3, "0x10" is 16, and "0" or "ten" take the default |
| FrontEnd.Ceil | runner/src/http-runner.ts:132 | the least integer at or above count/limit, for a positive or a negative limit |
| FrontEnd.ListRuns | runner/src/http-runner.ts:114-153 | a 500 with the driver's error exactly on PostgreSQL with a negative limit or offset |
| FrontEnd.ListRunsPage | runner/src/http-runner.ts:114-153 | the page is exactly the window at (page - 1) * limit of the sorted matching runs: at most limit of them, in the order asked for; the count is that of all matching runs, and page and limit are the parsed parameters with their defaults 1 and 10 |
| FrontEnd.DefaultPage | runner/src/http-runner.ts:116-118 | without page and limit the page is the first min(10, n) runs of the listing |
| FrontEnd.FetchRun | runner/src/http-runner.ts:155-170 | the stored run with that id; "Run not found" (a 500) exactly when no run has it |
| FrontEnd.FetchMessages | runner/src/http-runner.ts:172-186 | one message per stored row of the run in timestamp order, each as `toMessage` reads it; a 500 exactly when some row fails to decode, with the first such error; a run without rows answers an empty list |
| FrontEnd.FetchMessage | runner/src/http-runner.ts:188-205 | the first stored row with that run and id answers with its decoded message, or a 500 with its decode error; no such row is a 500 "Message not found"; never the 404 |
| FrontEnd.FetchMessageFindsStored | runner/src/http-runner.ts:188-196 | ids are unique, so any stored row with that run and id decides the answer: its message, or a 500 with its decode error |
| FrontEnd.MarkFailed | runner/src/http-runner.ts:103-107 | `failed` then task status "failed"; an unknown run throws and nothing is written |
| FrontEnd.Caught | runner/src/http-runner.ts:243-258 | ToolNotFoundError and schema errors are 400s, any other error a 500 |
| HttpRunner.HttpMessages | runner/src/http-runner.ts:49-60 | an absent configuration throws a TypeError (`messagesFromConfig.map` on undefined) |
| HttpRunner.ResultStatus | runner/src/http-runner.ts:95-100 | the result's status exactly when the result is an object with a string status |
| HttpRunner.Complete | runner/src/http-runner.ts:94-102 | `done`, then the status write when the result has one |
| HttpRunner.Settle | runner/src/http-runner.ts:68-107 | everything after the response, as `SettleSpec` says |
| HttpRunner.Open | runner/src/http-runner.ts:61-66 | createRun, insertMessages, `running`, then the run as it is; or the insert's error after the run is created |
| HttpRunner.OpenSpecCases | runner/src/http-runner.ts:61-66 | the three outcomes: a refused message, a rejected row, or the running run |
| HttpRunner.MarkRunning | runner/src/http-runner.ts:64-65 | the new run is marked running and returned as it then is |
| HttpRunner.Serve | runner/src/http-runner.ts:61-107 | open the run, answer, then settle it, as `Served` says |
| HttpRunner.PostRuns | runner/src/http-runner.ts:45-108 | the whole POST /runs handler, as `PostSpec` says |
| HttpRunner.AnsweredRunIsRunning | runner/src/http-runner.ts:61-66 | an answered request created the run, inserted its messages and marked it running before any tool ran, and answers with it running |
| HttpRunner.UnstoredRunIsUnanswered | runner/src/http-runner.ts:61-63 | messages that cannot be stored leave the request unanswered and the run scheduled |
| HttpRunner.UnassembledRequestWritesNothing | runner/src/http-runner.ts:49-60 | messages that cannot be assembled throw before any write |
| HttpRunner.SettleCloses | runner/src/http-runner.ts:72-107 | after the response: the agent's batches, then `done` and the string status, or `failed` and "failed" |
| HttpRunner.TaskStatusFromResult | runner/src/http-runner.ts:94-102 | a task status is written exactly when the result has a string status, and with toolsOnly never |
| HttpRunner.Replay | runner/src/http-runner.ts:214-260 | the replay handler answers and leaves the context as `ReplaySpec` says |
| HttpRunner.ReplayNeedsIds | runner/src/http-runner.ts:219-228 | a falsy runId, then a falsy messageId, is a 400 before anything else |
| HttpRunner.ReplayUnknownMessage | runner/src/http-runner.ts:230-256 | ids naming no stored message give a 500 and run nothing |
| HttpRunner.ReplayedResults | runner/src/http-runner.ts:231-241 | a 200 replays a stored message with calls: one result per call, in order, each named after its call |
| HttpRunner.ReplayUnknownTool | runner/src/http-runner.ts:240-248 | a call naming no tool means there is no 200 |
| RestfulRunner.Rescue | runner/src/restful-runner.ts:81-85 | after a throw, `failed` and "failed"; after a completion nothing |
| RestfulRunner.Process | runner/src/restful-runner.ts:70-79 | `processRun` with the options it is given, on the run just created |
| RestfulRunner.Settle | runner/src/restful-runner.ts:66-85 | the processor or `processRun`, exactly one, with the catch block, as `SettleSpec` says |
| RestfulRunner.Open | runner/src/restful-runner.ts:60-64 | createRun, insertMessages, then the run as created |
| RestfulRunner.Serve | runner/src/restful-runner.ts:60-85 | open the run, answer, then settle it, as `Served` says |
| RestfulRunner.PostRuns | runner/src/restful-runner.ts:45-86 | the whole POST /runs handler, as `PostSpec` says |
| RestfulRunner.AnsweredRunIsScheduled | runner/src/restful-runner.ts:60-64 | an answered request created the run and inserted its messages, and answers with it scheduled |
| RestfulRunner.UnstoredRunIsUnanswered | runner/src/restful-runner.ts:60-63 | messages that cannot be stored leave the request unanswered and nothing processes the run |
| RestfulRunner.AgentRunsFail | runner/src/restful-runner.ts:70-79 | without a processor, every run that is not tools-only ends failed: `running`, any batches, then the two failure writes |
| RestfulRunner.MappedRunFailsAtFactory | runner/src/restful-runner.ts:70-79 | without a processor, a run whose messages all map and whose tools succeed throws the factory's TypeError, is marked failed with no batch stored, and keeps the tools' context |
| RestfulRunner.ToolsOnlyRunCompletes | runner/src/restful-runner.ts:70-79 | without a processor, a tools-only run whose tools succeed completes with the default verdict |
| RestfulRunner.ProcessorOnlyMarksFailure | runner/src/restful-runner.ts:67-68 | with a processor, the runner itself writes nothing after the response unless the processor throws, and then only the two failure writes |
| RestfulRunner.AbsentConfigIsEmpty | runner/src/restful-runner.ts:48 | an absent configuration behaves like an empty one |
| AmqpRunner.Channel.constructor | runner/src/amqp-runner.ts:49 | a new channel has acknowledged nothing |
| AmqpRunner.Channel.Ack | runner/src/amqp-runner.ts:85 | the delivery is appended to the acknowledgements |
| AmqpRunner.MessagesOf | runner/src/amqp-runner.ts:58-62 | the body's messages when they are an array, else none |
| AmqpRunner.Rescue | runner/src/amqp-runner.ts:75-83 | after a throw, `failed` and "failed" with "Processing failed" |
| AmqpRunner.ProcessKnown | runner/src/amqp-runner.ts:63-85 | for a stored run: processing, the catch block and one acknowledgement |
| AmqpRunner.Process | runner/src/amqp-runner.ts:63-85 | the try block, catch block and acknowledgement, as `ProcessedSpec` says |
| AmqpRunner.Consume | runner/src/amqp-runner.ts:54-86 | the consume callback for one delivery, as `ConsumeSpec` says |
| AmqpRunner.MalformedDeliveryIsDropped | runner/src/amqp-runner.ts:56-62 | a body that is not JSON, or is null, is never acknowledged and writes nothing |
| AmqpRunner.UnknownRunIsNeverAcked | runner/src/amqp-runner.ts:75-85 | a delivery for a run the store does not hold is never acknowledged and writes nothing |
| AmqpRunner.KnownRunIsAcked | runner/src/amqp-runner.ts:63-85 | a delivery for a stored run is acknowledged once, after `running` and either the completion or the failure writes |
| AmqpRunner.NonArrayMessagesFail | runner/src/amqp-runner.ts:58-85 | non-array messages fail right after `running`; the failure writes follow and the delivery is still acknowledged |
| LocalSpawner.LocalReplay | spawners/src/local-spawner.ts:32-79 | the handler answers and leaves the context as `LocalReplaySpec` says |
| LocalSpawner.GetMessageThrows | spawners/src/local-spawner.ts:49 | `getMessage` throws only "Message not found" or what reading the row throws |
| LocalSpawner.LocalReplayNeedsIds | spawners/src/local-spawner.ts:37-46 | a falsy runId, then a falsy messageId, is a 400 and runs nothing |
| LocalSpawner.LocalReplayNeverReplays | spawners/src/local-spawner.ts:48-77 | with both ids truthy every request is a 500 that runs no tool |
| Prompts.Lines | prompts/src/evaluateTask.ts:6-22 | splitting any text gives at least one line |
| Prompts.EvaluateTask | prompts/src/evaluateTask.ts:6-22 | every prompt starts with the line "Important:" and ends with the fenced answer block and the closing request |
| Prompts.LinesAfterLine | prompts/src/evaluateTask.ts:6-22 | a line then a break splits as that line followed by the rest's lines |
| Prompts.LinesOfLayout | prompts/src/evaluateTask.ts:6-22 | laid-out one-line texts come back as the first lines |
| Prompts.LayoutHead | prompts/src/evaluateTask.ts:6-22 | the laid-out lines come first and at least one line follows |
| Prompts.LayoutSameTail | prompts/src/evaluateTask.ts:6-22 | equally many one-line texts over the same rest leave the same lines after them |
| Prompts.LayoutEndsWith | prompts/src/evaluateTask.ts:6-22 | a layout over `a + b` ends with `b` |
| Prompts.CriterionOneLine | prompts/src/evaluateTask.ts:8-10 | a criterion line from one-line parts is one line |
| Prompts.HeadingOneLine | prompts/src/evaluateTask.ts:7-10 | the heading and criterion lines are one line each |
| Prompts.CriterionLines | prompts/src/evaluateTask.ts:7-10 | the first lines are the heading and one line per criterion, success, failure, need human help; each holds its sentence iff the criterion is non-empty, else it is empty |
| Prompts.InstructionsFixed | prompts/src/evaluateTask.ts:11-22 | the lines after the criteria are the same for every input |
| Prompts.PromptEndsWithFence | prompts/src/evaluateTask.ts:14-22 | every prompt ends with the fenced JSON block naming taskStatus and reason, then the closing text |
| Prompts.Parameterize | runner/mappers/toParameterizedMessage.ts:3-35 | a message that is not a human message with non-empty string content comes back unchanged; otherwise it fails exactly when the template throws, and succeeds with the filled content and the original's other fields |
| Prompts.ParameterizeIdentity | runner/mappers/toParameterizedMessage.ts:31-33 | a substitution that changes nothing leaves every message unchanged |
| Prompts.ParameterizeTwice | runner/mappers/toParameterizedMessage.ts:24-33 | parameterizing twice with an idempotent substitution is parameterizing once |
| Js.NatToStringInjective | database/src/sqlite.ts:127-138 | distinct ids print as distinct texts |
| Js.ParseIntNatToString | database/src/postgresql.ts:107 | parsing a printed count gives the count back |
| Js.ParseInt | database/src/postgresql.ts:107 | `parseInt(s, 10)` is NaN exactly when no digit follows the leading whitespace and sign |
| Js.ParseIntAuto | runner/src/http-runner.ts:116-117 | `parseInt` without a radix reads as radix 10 unless 0x or 0X follows the sign, then as hexadecimal; a prefix without hexadecimal digits is NaN |
| Js.ParseIntAutoNatToString | runner/src/http-runner.ts:116-117 | a printed number reads back the same without a radix |
| Js.ParseIntAutoHex | runner/src/http-runner.ts:116-117 | "0x10" is 16 without a radix, where radix 10 reads 0 |
| Js.ParseIntAutoNegativeHex | runner/src/http-runner.ts:116-117 | the sign comes before the prefix: "-0X1f" is -31 |
| Js.ParseIntAutoBarePrefix | runner/src/http-runner.ts:116-117 | "0x" without digits is NaN |
| Js.ParseIntAutoWord | runner/src/http-runner.ts:116-117 | "ten" is NaN |
| Js.PositiveNatToString | runner/routines/run.ts:81 | a printed count compares above 0 exactly when it is not 0 |
| Js.LengthCoercions | runner/routines/run.ts:81 | `length > 0` holds for 1, true, "1" and [1], and not for 0, "0", "-1" or an object |
| Js.Characters | runner/routines/run.ts:84 | a string iterates to its characters, one one-character string per position, in order |
| Js.Iterated | runner/src/http-runner.ts:55-60 | `for...of` and spread: an array gives its items, a string its characters, anything else throws a TypeError |
| Js.Indexed | tools/src/tool-extension.ts:18-21 | spreading an array or a string copies each element under its index as text, and adds no other key |
| Js.JoinAppend | tools/model/index.ts:6 | joining one more part adds the separator and the part |

## Left out

- HTTP and AMQP I/O: Express wiring (`app.use`, `cors`, `listen`, `res.json`), the health-check route, the AMQP connection, queue assertion and consumer registration, and runner/processors/amqp-publisher.ts. Handlers are methods returning a response value; `channel.ack` is a `Channel` class that records acknowledgements.
- spawners/src/locally-distributed-spawner.ts: it runs docker through a shell. simple-spawner.ts and the model-only type files have no behaviour.
- callbacks/src/index.ts: it calls database functions that the `Database` interface does not have.
- The logger and every `console` call.
- SQL engines, connection pools and the driver: the tables are sequences in the `Database` class. A row the driver refuses is a `fault` index passed to `InsertMessages`. PostgreSQL's foreign key is modelled only as a run that must exist.
- Driver column types: node-postgres returns the BIGINT `timestamp` columns of runs and messages as text, so on PostgreSQL the runs and messages read back carry string timestamps. The model's timestamps are integers on both stores. This shows only in response values.
- FrontEnd.RunsQuery: each GET /runs query parameter is its text or absent. Express's query parser can also hand over an array (`?page=1&page=2`) or an object (`?status[a]=x`), which reach `parseInt` and the SQL parameters unchanged; those are not modelled.
- RunProcessor.HandleChainEnd: a callback batch is always inserted without a driver fault, so a batch the driver refuses is not expressed. The callback swallows any such error, and a refused batch is rolled back. So the run's trace differs only in the missing batch, and on PostgreSQL in the message ids the sequence used up.
- Store.Database.GetRun: a PostgreSQL id that is not numeric makes the driver throw. The model treats it as "Run not found". Ids are matched as decimal text, not by SQL's numeric comparison, so a text such as "01" or "+1" that the SQL engines compare as run 1 finds nothing in the model.
- Store.IndexOfRun: matches the id's decimal text exactly; SQL's numeric comparison ("01" or "+1" as 1) is not modelled.
- Store.IndexOfMessage: matches run_id and id as text exactly; SQL's numeric coercion of the id parameter is not modelled.
- Store.RowsOfRun: matches run_id as text exactly; SQL's coercion of the run_id parameter is not modelled.
- FrontEnd.FetchRun: inherits the exact text matching of `GetRun`; "01" is "Run not found" (a 500) in the model, where the stores find run 1.
- RestfulRunner.ProcessorOnlyMarksFailure: states only the runner's own writes. What a custom processor writes on its own is outside the model, because the processor is a parameter.
- Js.GreaterThanZero: a decimal literal whose value underflows to 0 in floating point (such as "1e-400") counts as above 0; floating-point rounding is not modelled.
- Tools.OwnEntries: a string's characters are indexed one key per character. JavaScript indexes UTF-16 code units, so a character outside the Basic Multilingual Plane takes two keys there and one here. `for...of` iterates code points, which `Js.Characters` matches.
- Ordering.SortBy: ties in timestamp are kept in table order. SQL does not promise any tie order.
- zod, `JSON.parse`/`JSON.stringify` and pupa are not reimplemented. zod is a concrete parser of `Json` values. The JSON codec is an abstract pair, with its round trip as the `Lawful` predicate. A pupa template is an abstract function that may throw.
- LangChain message classes are datatypes. Agents, tools, the agent factory, the processor of the RESTful runner and the replay callback factory are functions given as parameters. The replay callback is modelled through the batches it inserts.
- `Date.now()`: `createRun` and the LangChain mappers read it once per call. The model shares one reading, a `now` (or `at`) parameter: one per request for `createRun` and every configuration message's `lcToMessage`, and one per batch for the `lcToDbMessage` calls of the replay callback. The difference cannot be observed, because `insertMessages` stamps each row from its own reading. `insertMessages` reads the clock once per row, modelled as a `clock` function of the store and a counter of readings taken.
- JavaScript numbers are integers. NaN and fractions do not occur: `parseInt` either gives an integer or fails. Radix 10 is used only where the source passes it (the PostgreSQL count, database/src/postgresql.ts:107); the query parameters of GET /runs are read without a radix, so a `0x` prefix switches to hexadecimal.
- `Math.ceil` on a float ratio is exact integer ceiling division. The limit is never 0, because `|| 10` replaces a zero.
- Concurrency: processing after the response, and the two queries of GET /runs, are modelled in order. Nothing else runs between them.
- A `replayCallbackFactory` that is not a function is not modelled. Every runner supplies one.
- The AMQP body's `toolsOnly` and the HTTP body's `toolsOnly` are passed as their truthiness, which is all `processRun` tests.
- The `ReadonlyDatabase`/`Database` split is a typing matter. The replay handlers take the store only for reading: they modify nothing but the tool context.
