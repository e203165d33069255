# ferris-wheel core in Dafny

A model of the orchestration core of ferris-wheel, a chat back end. The model covers:

- the two bounded tool-calling loops:
  - `askModel` with `memoryAbstraction`, the memory-augmented assistant;
  - `queryEventsAgent` with `eventsAbstraction`, the calendar sub-agent;
- the calendar event store;
- the memory plumbing: writing and ranking recollections, vector-store collection naming and document ids, and the conversation table.

Modules and files:

| module | file | models |
|---|---|---|
| `Common` | common.dfy | JavaScript values (`undefined`/`null`/value), truthiness, `||`, template rendering, `join`, `includes` |
| `Chat` | chat.dfy | messages, completion responses, upsert-by-tag, append-if-absent, the in-place `messages` array (`MessageHistory`) |
| `EventsService` | events_service.dfy | src/agent-services/eventsService.js: `createEventObject` and the per-client `${clientUUID}_events` collections (`EventStore`) |
| `ChromaProvider` | chroma_provider.dfy | src/chromaProvider.js: collection names, document ids, the vector store (`VectorStore`) |
| `Cortex` | cortex.dfy | src/cortex.js: `addMemoryToCortex`, `rememberMemories` |
| `MongoProvider` | mongo_provider.dfy | src/mongoProvider.js: the `cortexConversations` table (`ConversationStore`) |
| `Inference` | inference.dfy | src/inference.js: `askModel`, `memoryAbstraction` |
| `EventsAgent` | events_agent.dfy | src/agents/eventsAgent.js: `queryEventsAgent`, `eventsAbstraction` |

Each loop has two forms:
- The methods (`AskModel`, `QueryEventsAgent`) run the `while` loop over a `MessageHistory` object and a store object.
- The functions (`AskRun`, `EventsRun`) describe the same run as a value: the answer, the final history, the final store and the list of histories sent to the completion service.

The methods are proved equal to the functions (`MemoryAbstraction` and `EventsAbstraction` against `MemoryStep` and `EventsStep`), and the properties are proved about the functions.

External services are parameters:
- the completion service is a function of the loop counter and the history sent;
- recall, rephrasing, random bytes and uuid generation are functions of the loop counter or the exchange;
- database failures are boolean parameters.

A thrown exception is a `None` reply. Writes made before the throw stay in the store.

Behaviour reproduced as the code has it:
- `askModel` sends at most five requests (`loopCounter < 6`); `queryEventsAgent` sends at most six (`loopCounter <= 6`).
- A `stop` in `askModel` does not end the run: the loop goes on, and `suspend_thread` then returns the stored answer. In the events agent, a `stop` with non-empty content ends the run at once.
- `eventsAbstraction` is declared with four parameters and called with six, so its `finalResponse` is the client UUID. The model passes the client UUID in that place. As a result:
  - `suspend_thread` answers with the UUID;
  - when the last response before exhaustion was a `get_client_events`, `add_client_event` or unknown tool call and the client UUID is non-empty, the exhausted run answers with the UUID instead of the max-attempts text. A later `stop` with empty content resets the kept answer to "", and exhaustion then gives the max-attempts text.
- The events system prompt names `get_client_events`. The first listing's confirmation therefore replaces the prompt itself (`FirstGetReplacesPrompt`).
- `update_client_event`, `delete_client_event` and any finish reason other than `stop` or `tool_calls` make `eventsAbstraction` return `undefined`. Destructuring that throws, and the run answers with the error text.
- `rememberMemories` sorts by decreasing distance, although its comment says least distance first.

Where the design description disagrees with the code, the model follows the code:
- stored conversations keep system messages;
- the calendar sub-agent is not called by `askModel`;
- there is no update or delete handler;
- the iteration caps are as stated above.

## Model

| member | source | states |
|---|---|---|
| Chat.FindTagged | src/agents/eventsAgent.js:387-389 | the index of the first system message whose content contains the tag, and -1 exactly when there is none |
| Chat.UpsertKeepsOneNote | src/inference.js:163-174 | upserting a note that carries its tag leaves exactly one tagged message when there was none, keeps the count otherwise, and the first tagged message is the new note |
| Chat.UpsertIdempotent | src/inference.js:163-174 | upserting the same tagged note twice equals upserting it once |
| Chat.UpsertKeepsUntagged | src/agents/eventsAgent.js:387-397 | an upsert grows the history by at most one and leaves every message without the tag in its place |
| Chat.UpsertKeepsNonSystem | src/inference.js:163-174 | an upsert never removes a user or assistant message |
| Chat.AppendIfAbsentOneCopy | src/inference.js:121-128 | appending the end-of-thread note only if absent leaves exactly one copy, and repeating it changes nothing |
| Chat.MessageHistory.Push | src/inference.js:106-109 | `push` appends one message at the end |
| Chat.MessageHistory.Unshift | src/inference.js:150-153 | `unshift` puts one message in front |
| Chat.MessageHistory.Set | src/inference.js:170 | index assignment replaces exactly that message |
| Chat.MessageHistory.UpsertTagged | src/inference.js:164-174 | find-and-replace of the first tagged system message, else push |
| Chat.MessageHistory.PushIfAbsent | src/inference.js:121-128 | push of a system note unless an identical system message exists |
| EventsService.CreateEventObject | src/agent-services/eventsService.js:9-37 | fails, with "Event must have a title and a date.", exactly when the title or the date is falsy; every event built has its defaults filled and no times when all-day |
| EventsService.AllDayClearsTimes | src/agent-services/eventsService.js:29-30 | an all-day event has null start and end times whatever was given; any other event keeps the given times |
| EventsService.CreateEventObjectDefaults | src/agent-services/eventsService.js:9-20 | omitted uuid, location, description, collaborators, reminders and all_day take the generated uuid, "", "", [], [] and false; null is kept; title and date are kept |
| EventsService.CreateEventObjectIdempotent | src/agent-services/eventsService.js:9-37 | rebuilding an already built event gives the same event |
| EventsService.CollectionNameInjective | src/agent-services/eventsService.js:57 | different clients get different `${clientUUID}_events` collections |
| EventsService.FirstWithUuid | src/agent-services/eventsService.js:93 | the position of the first event with the uuid, with no match before it, or -1 when none matches |
| EventsService.ApplyPatchIdempotent | src/agent-services/eventsService.js:110-113 | `$set` twice equals `$set` once; an empty `$set` changes nothing |
| EventsService.RemoveFirstRemovesOne | src/agent-services/eventsService.js:130 | `deleteOne` removes exactly the first match: one event fewer, the others in order, one fewer match |
| EventsService.InsertIsolated | src/agent-services/eventsService.js:71-79 | inserting into one client's collection leaves every other client's collection unchanged |
| EventsService.EventStore.GetEvents | src/agent-services/eventsService.js:55-66 | returns the client's collection in insertion order and changes nothing |
| EventsService.EventStore.CreateEvent | src/agent-services/eventsService.js:69-85 | fails with "Event must have a UUID." and changes nothing exactly when the uuid is falsy; otherwise appends the event to that client's collection only, duplicates included |
| EventsService.EventStore.ReadEvent | src/agent-services/eventsService.js:88-102 | the first event with the uuid; "Event with UUID … not found." exactly when no event has it |
| EventsService.EventStore.UpdateEvent | src/agent-services/eventsService.js:105-122 | sets the given fields of the first match only, other events and collections unchanged; modified count 0 or 1; not-found error and no change when nothing matches |
| EventsService.EventStore.DeleteEvent | src/agent-services/eventsService.js:125-139 | removes the first match only and returns 1; not-found error and no change when nothing matches |
| ChromaProvider.MemoryCollectionsDistinct | src/chromaProvider.js:12 | distinct clients have distinct memory collections |
| ChromaProvider.OtherKindsShared | src/chromaProvider.js:8-14 | every kind other than "memory" gives the one name "" for all clients |
| ChromaProvider.Hex | src/chromaProvider.js:39 | two lower-case hexadecimal digits per byte |
| ChromaProvider.HexRoundTrip | src/chromaProvider.js:39 | the hexadecimal text decodes back to the same bytes |
| ChromaProvider.DocumentIdShape | src/chromaProvider.js:39-40 | an id is the client UUID, "-", and eight hexadecimal characters |
| ChromaProvider.DocumentIdInjective | src/chromaProvider.js:39-40 | different random bytes give different ids for one client |
| ChromaProvider.MemoryIsolation | src/chromaProvider.js:36-48 | adding to one client's memories leaves another client's memory collection as it was |
| ChromaProvider.VectorStore.GetOrCreateCollection | src/chromaProvider.js:5-32 | returns the collection name for (client, kind) and creates that collection only if missing |
| ChromaProvider.VectorStore.AddToChroma | src/chromaProvider.js:34-50 | appends exactly one document, with the client's id, to the (client, kind) collection and touches no other |
| ChromaProvider.VectorStore.QueryChroma | src/chromaProvider.js:52-63 | creates the collection if absent, adds nothing, and searches only that collection's documents |
| Cortex.MemoryWriteOnlyTouchesClient | src/cortex.js:26-41 | a memory write adds exactly the rephrased text to the client's memory collection, and nothing when rephrasing failed; other collections are unchanged |
| Cortex.InsertByDistance | src/cortex.js:59 | inserting keeps every memory and adds exactly one |
| Cortex.SortByDistance | src/cortex.js:59 | the sort is a permutation of its input |
| Cortex.InsertByDistanceSorted | src/cortex.js:59 | inserting into a list sorted by decreasing distance keeps it sorted |
| Cortex.SortByDistanceSorted | src/cortex.js:59 | the sort orders by non-increasing distance |
| Cortex.SortByDistanceStable | src/cortex.js:59 | the sort is stable: the memories of each distance keep their input order |
| Cortex.RankMemories | src/cortex.js:48-62 | nothing exactly when the result, its documents or the outer document list is missing or empty |
| Cortex.RankedMemoriesArePairsByDistance | src/cortex.js:48-61 | the ranked memories are a permutation of the pairs (i-th document, i-th distance) of the first query, as many as documents, largest distance first |
| Cortex.EmptyInnerListRanksEmpty | src/cortex.js:48-49 | an empty first document list ranks to an empty list, not to nothing |
| Cortex.AddMemoryToCortex | src/cortex.js:7-42 | the store afterwards is the memory write of the rephrased exchange; a failed rephrasing leaves it unchanged |
| Cortex.RememberMemories | src/cortex.js:44-63 | queries only the client's memory collection and returns its ranking; the only store change is creating that collection |
| MongoProvider.ForClient | src/mongoProvider.js:46 | `find({ clientUUID })` returns exactly the records of that client |
| MongoProvider.ForClientIsolation | src/mongoProvider.js:46 | no record of one client is returned for another |
| MongoProvider.ForClientAppend | src/mongoProvider.js:46 | appending a record extends the result of its own client only |
| MongoProvider.ConversationStore.SubmitCortexConversation | src/mongoProvider.js:23-39 | appends exactly one record with the messages verbatim; a failed insert changes nothing and is not reported |
| MongoProvider.ConversationStore.RetrieveCortexConversations | src/mongoProvider.js:41-53 | the client's records, or an empty list on failure; nothing changes |
| MongoProvider.SubmitThenRetrieve | src/mongoProvider.js:27-34 | a submitted conversation comes back last for its client with its messages, system ones included, unchanged, after that client's earlier records, which are unchanged |
| Inference.MemoryAbstraction | src/inference.js:94-193 | the reply, history and store after one call are those of `MemoryStep` |
| Inference.AskModel | src/inference.js:7-92 | the answer and final store are those of the run function `AskModelRun` |
| Inference.AskRunRequestCount | src/inference.js:61-84 | from iteration k on, at most 6 − k more requests |
| Inference.AskRunRequestOrder | src/inference.js:61-72 | earlier requests stay first and the next request sends the current history |
| Inference.AskRunAnswers | src/inference.js:79-91 | every run answers with a non-empty string |
| Inference.AskModelBounds | src/inference.js:53-86 | one to five requests, the first holding only the user's query, and a non-empty answer |
| Inference.AskRunAnswerProvenance | src/inference.js:79-86 | the answer is a fixed text or an assistant message still in the history |
| Inference.StepKeepsAnswer | src/inference.js:98-185 | a step keeps every non-system message and its remembered answer is in the history |
| Inference.AskModelAnswerProvenance | src/inference.js:79-90 | `askModel` answers with the error, max-attempts or suspension text, or with an answer the model gave |
| Inference.EndNoteLacksRecallMarker | src/inference.js:116-119 | the end-of-thread note does not contain the recall marker sentence |
| Inference.ContextNoteLacksRecallMarker | src/inference.js:150-153 | a context note carries the marker only if the recollection does |
| Inference.RecallNoteTagged | src/inference.js:158-161 | the recall note contains its marker sentence |
| Inference.StopKeepsHistoryOk | src/inference.js:98-130 | a stop keeps one user message, at most one recall note and at most one end note |
| Inference.RecallKeepsHistoryOk | src/inference.js:147-174 | for a recollection without the recall marker sentence (`HonestRecall`), a recall keeps the same three counts |
| Inference.StepKeepsHistoryOk | src/inference.js:94-193 | under `HonestRecall`, every step keeps them |
| Inference.AskRunKeepsHistoryOk | src/inference.js:61-84 | under `HonestRecall`, every history of a run keeps them |
| Inference.AskModelHistoryOk | src/inference.js:53-86 | every history `askModel` sends has exactly one user message, at most one recall note and at most one end note |
| Inference.StepThrowsExactly | src/inference.js:132-185 | a step throws exactly on an empty call list, unparsable arguments or a failing recall, and then changes nothing |
| Inference.IgnoredResponseIsNoOp | src/inference.js:187-192 | an unknown tool or finish reason changes nothing and lets the loop go on |
| Inference.StopStep | src/inference.js:98-130 | a stop appends the answer and, unless one is already there, the end note, leaving exactly one; it stores the rephrased exchange, remembers the answer and does not end the run |
| Inference.RecallStep | src/inference.js:158-176 | under `HonestRecall`, after a recall exactly one recall note is left, carrying the current loop count, and the store is untouched |
| Inference.RecallStepShifts | src/inference.js:149-154 | under `HonestRecall`, a truthy recollection is put in front and shifts every untagged message by one; otherwise they stay in place |
| Inference.SuspendEndsRun | src/inference.js:178-185 | `suspend_thread` ends the run with the stored answer, or the suspension text when there is none |
| Inference.AnswerThenSuspend | src/inference.js:98-185 | an answer followed by `suspend_thread` returns that answer after two requests |
| Inference.ExhaustedRun | src/inference.js:61-86 | when no remaining response ends the run, all remaining requests are made and the stored answer or max-attempts text is returned |
| Inference.AnswerThenExhausted | src/inference.js:61-86 | an answer at the first request followed only by ignored responses: five requests, and the run returns that answer |
| Inference.FailedRequestGivesErrorText | src/inference.js:88-91 | a failed completion request ends the run with the error text |
| Inference.UnboundRecallEndsInError | src/inference.js:147 | with `queryCortex` missing, the first `try_to_remember` ends the run with the error text |
| EventsAgent.PushListing | src/agents/eventsAgent.js:356-379 | the pushes of a listing: the no-events note, or the header and one line per event in collection order |
| EventsAgent.GetClientEvents | src/agents/eventsAgent.js:349-399 | the history after a listing is that of `GetStep` |
| EventsAgent.AddClientEvent | src/agents/eventsAgent.js:401-448 | the reply, history and store after an add are those of `AddStep` |
| EventsAgent.EventsAbstraction | src/agents/eventsAgent.js:307-472 | the reply, history and store after one call are those of `EventsStep` |
| EventsAgent.QueryEventsAgent | src/agents/eventsAgent.js:240-304 | the answer and final store are those of the run function `EventsAgentRun` |
| EventsAgent.EventsRunRequestCount | src/agents/eventsAgent.js:274-297 | from iteration k on, at most 7 − k more requests |
| EventsAgent.EventsRunRequestOrder | src/agents/eventsAgent.js:274-285 | earlier requests stay first and the next request sends the current history |
| EventsAgent.EventsRunAnswers | src/agents/eventsAgent.js:292-303 | every run answers with a non-empty string |
| EventsAgent.EventsAgentBounds | src/agents/eventsAgent.js:241-299 | one to six requests, the first holding the instruction set and "The client uuid: X. The query from the user: Y", and a non-empty answer |
| EventsAgent.PromptTagged | src/agents/eventsAgent.js:259 | the instruction set names `get_client_events` |
| EventsAgent.GetConfirmationTagged | src/agents/eventsAgent.js:381-384 | the listing confirmation names `get_client_events` |
| EventsAgent.AddConfirmationTagged | src/agents/eventsAgent.js:418-432 | the creation confirmation names `get_client_events` |
| EventsAgent.StepKeepsHistoryOk | src/agents/eventsAgent.js:307-472 | every step keeps a first message naming `get_client_events` and keeps the user message |
| EventsAgent.EventsRunKeepsHistoryOk | src/agents/eventsAgent.js:274-297 | every history of a run keeps both |
| EventsAgent.EventsAgentHistoryOk | src/agents/eventsAgent.js:246-297 | every history `queryEventsAgent` sends starts with a system message naming `get_client_events` and holds the user message |
| EventsAgent.ListingShape | src/agents/eventsAgent.js:356-379 | a listing is the no-events note or a header followed by one line per event, all system messages |
| EventsAgent.GetStepReplacesFirst | src/agents/eventsAgent.js:381-399 | a listing reads the collection of the client named in the arguments; its confirmation replaces the first message; the store is untouched and the run goes on |
| EventsAgent.FirstGetReplacesPrompt | src/agents/eventsAgent.js:387-393 | the first listing overwrites the instruction set: the history becomes confirmation, user message, listing |
| EventsAgent.StopStep | src/agents/eventsAgent.js:311-338 | a stop appends the answer and, unless one is already there, the end note, leaving exactly one; it leaves the store and replies with the answer as result |
| EventsAgent.StopEndsRun | src/agents/eventsAgent.js:292-295 | a stop with a non-empty answer ends the run with it |
| EventsAgent.AddStepStores | src/agents/eventsAgent.js:403-446 | an add with title and date stores the built event, with the drawn (non-empty) uuid, at the end of the named client's collection only, even when a list is null; when neither collaborators nor reminders is null it goes on with the caller's `finalResponse`, and with a null list it throws after the write |
| EventsAgent.AddWithoutTitleOrDateThrows | src/agents/eventsAgent.js:405-415 | an add without title or date throws before storing anything |
| EventsAgent.AddNullListThrowsAfterWrite | src/agents/eventsAgent.js:417-429 | null collaborators or reminders throw after the event was stored |
| EventsAgent.StepThrowsExactly | src/agents/eventsAgent.js:307-472 | the cases in which `eventsAbstraction` throws or returns `undefined`, both directions |
| EventsAgent.AddFailureLeavesStore | src/agents/eventsAgent.js:403-429 | a failing add leaves the history, and the store unless a list was null |
| EventsAgent.ThrowingStepGivesErrorText | src/agents/eventsAgent.js:301-303 | a throwing step ends the run with the error text |
| EventsAgent.UnimplementedToolsFail | src/agents/eventsAgent.js:450-458 | update and delete calls end the run with the error text and change nothing |
| EventsAgent.OtherFinishFails | src/agents/eventsAgent.js:469-472 | a finish reason other than `stop` and `tool_calls` ends the run with the error text |
| EventsAgent.NonStopKeepsFinalized | src/agents/eventsAgent.js:285 | every non-stop reply hands back the `finalResponse` it was given, which in a run is the client UUID |
| EventsAgent.SuspendReturnsClientUUID | src/agents/eventsAgent.js:460-465 | `suspend_thread` ends the run with the client UUID, or the suspension text when it is empty |
| EventsAgent.UnknownToolsAnswerClientUUID | src/agents/eventsAgent.js:467-468 | with only unknown tools from request k on, all remaining requests are made and the run answers with the client UUID, or the max-attempts text when the UUID is empty |

## Left out

- Network calls are inputs, not code. This covers the completion service, the rephrasing completion, Chroma's embedding and similarity search (with `nResults`), MongoDB, `crypto.randomBytes`, `uuid.v4` and `new Date()`. Each is a function of the loop counter or of its arguments, or a boolean saying whether the call succeeds.
- `JSON.parse` of tool arguments: arguments are already-parsed records, and a parse failure is `None`.
- `JSON.stringify` of the exchange handed to `addMemoryToCortex`: it is passed as a (user, assistant) pair.
- Store failures other than those modelled are left out: connection errors, `process.exit`, a failed `getOrCreateCollection`, a throwing `find`, and a throwing `collection.add` inside `addMemoryToCortex`, which the code swallows.
- Cortex.AddMemoryToCortex: a vector-store failure after a successful rephrasing is not modelled; the store always accepts the document.
- Cortex.RememberMemories: requires the vector store to answer one distance per document (`Aligned`). A missing or short distance list is not modelled; in the code it would throw or sort by `undefined`.
- `console.log` logging, the tool JSON schemas, index.js (HTTP routes, child processes) and src/agents/CoTAgent.js are not part of this model.
- Distances are `real`, not IEEE floating point.
- Message contents, collaborator names and reminder fields are strings; other JSON types are not modelled. A `null` message content is the empty string.
- MongoDB's `_id` field, added by `insertOne`, is not modelled.
- EventsAgent.AddStepStores: proves that the confirmation is appended only when no system message already contains `add_client_event`. The note embeds model-supplied text, which may itself contain that name, so the unconditional "each add appends" is not claimed.
- Inference.AskModelHistoryOk: holds only for recollections that do not repeat the recall marker sentence (`HonestRecall`). A recollection that contains the marker makes its context note the first tagged message, and the code then overwrites that note instead of the recall note.
- Inference.RecallKeepsHistoryOk: requires `HonestRecall`, for the same reason.
- Inference.StepKeepsHistoryOk: requires `HonestRecall`, for the same reason.
- Inference.AskRunKeepsHistoryOk: requires `HonestRecall`, for the same reason.
- Inference.RecallStep: requires `HonestRecall`. With a recollection that repeats the marker, the note that remains tagged is not the one carrying the loop count.
- Inference.RecallStepShifts: requires `HonestRecall`. With a recollection that repeats the marker, the upsert overwrites the context note instead.
- Inference.StepThrowsExactly: `queryCortex` is not exported by src/cortex.js. Recall is an oracle that may succeed or throw, so the working recall path is modelled as the import evidently intends.

## Findings

| source | as written | input that shows it | evidently intended | confidence | as-written member | corrected member |
|---|---|---|---|---|---|---|
| src/inference.js:5 | `queryCortex` is imported from src/cortex.js, which exports only `addMemoryToCortex` and `rememberMemories`, so the call at line 147 throws | any `try_to_remember` tool call | recall a memory and continue the run | not executed | Inference.UnboundRecallEndsInError | Inference.RecallStep |
