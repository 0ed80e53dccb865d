# Veronica message server: a Dafny model

This project models the core of the Veronica assistant server. The server keeps
a bounded memory of chat turns. It sends that memory, headed by a system prompt,
to a chat-completion provider. When the provider's first reply names a function,
the route runs the handler of that name from its table once. Each handler
records what happened as a turn in the memory and usually asks the provider
again. Independently of the route, `getReply` runs `sendMessageWithAnimation`
itself whenever a provider message it receives calls it.

The project models five parts:

- the ring buffer that holds the memory (`Ring`, with the class `CircularBuffer`);
- the handlers, `getReply` and the POST `/` and GET `/clear` routes. The runs they
  produce are pure values in `Dispatch`. The class `Server.Assistant` performs
  them step by step on a memory object;
- the train live-status lookup (`TrainStatus`);
- the todo routes of the store service, as a class over a sequence of records
  (`TodoStore`);
- the catalogue of functions offered to the provider (`Catalogue`).

Helper modules:

- `Js` holds the JavaScript values the code reads (truthiness, `||`, property
  reads, the result of `JSON.parse`).
- `Strings` holds `split`, `trim`, `toLowerCase`, decimal printing and the ISO
  date text.
- `Conversation` defines:
  - turns, and requests to the provider and to the outside services;
  - the event trace a handler produces;
  - `Exec`, which applies a trace to a session (the memory ring plus the
    requests sent so far).

Everything outside the server is an input:

- the provider's messages;
- the outcome of each service call, either the JSON text of the response or a
  failure;
- the fetched train page, given as its header text and its `h1` text;
- the clock, as a local date and a UTC instant.

A POST dispatches at most one function from the table. The follow-up provider
message a handler gets back is returned to the client as it is, and a call in
it is not dispatched again; an animation call there still runs inside
`getReply`, which records its turn and reply. A function name that is not in
the table gets no reply, and a failed completion leaves the request hanging.
`Dispatch.NoSecondDispatch`, `Dispatch.FollowUpAnimationRunsInGetReply`,
`Dispatch.UnknownFunction` and `Dispatch.PostBounds` state this.

## Model

| member | source | states |
|---|---|---|
| Ring.CircularBuffer.constructor | utils/ciruclar-buffer.js:2-9 | a new ring of capacity n ≥ 1 is empty: head, tail and count 0, not full, no slots |
| Ring.CircularBuffer.Push | utils/ciruclar-buffer.js:11-25 | the new state is `PushState` of the old: a full ring moves `head` instead of `count` and overwrites the slot at `tail` |
| Ring.CircularBuffer.ToArray | utils/ciruclar-buffer.js:27-34 | the counting loop returns `Entries` of the state (the `count` slots from `head`, modulo the capacity) and changes no field |
| Ring.CircularBuffer.Read | utils/ciruclar-buffer.js:36-42 | returns the slot at `head % length`, advances `head` modulo the capacity and decrements `count`, without any guard |
| Ring.CircularBuffer.Clear | utils/ciruclar-buffer.js:44-46 | only the backing array is replaced; head, tail, count and full are kept |
| Ring.Put | utils/ciruclar-buffer.js:23 | writing a slot sets that slot only; writing past the end extends the array with holes |
| Ring.Fresh | utils/ciruclar-buffer.js:2-9 | the state the constructor builds; `Ring.LastPushed` and `Ring.FreshPushesTracked` start from it |
| Ring.PushState | utils/ciruclar-buffer.js:11-25 | what one push does to the state; its properties are stated by `Ring.PushTracks`, `Ring.PushCount` and `Ring.InvariantKept` |
| Ring.Entries | utils/ciruclar-buffer.js:27-34 | what `toArray` yields for a state; `Ring.CircularBuffer.ToArray` is proved equal to it, and `Ring.LastPushed` says which elements it holds |
| Ring.ReadState | utils/ciruclar-buffer.js:36-42 | what one read does to the state and the slot it returns; `Ring.ReadFront` and `Ring.ReadEmpty` state its properties |
| Ring.ClearState | utils/ciruclar-buffer.js:44-46 | what `clear` does to the state; `Ring.ClearKeepsCounters` states its properties |
| Ring.PushAll | utils/ciruclar-buffer.js:11-25 | pushing a sequence keeps the capacity |
| Ring.PushTracks | utils/ciruclar-buffer.js:11-25 | a push onto a ring that holds the last pushes of xs in order gives a ring that holds the last pushes of xs+[e] |
| Ring.FreshPushesTracked | utils/ciruclar-buffer.js:2-25 | after any pushes onto a fresh ring, its slots, head, tail, count and full follow the pushed sequence |
| Ring.TrackedEntries | utils/ciruclar-buffer.js:27-34 | for such a ring, `toArray` is the last min(M, N) elements pushed, oldest first |
| Ring.LastPushed | utils/ciruclar-buffer.js:11-34 | capacity N ≥ 1, fresh, M pushes: `toArray` is the last min(M, N) pushed elements, oldest first |
| Ring.ExampleLastThree | utils/ciruclar-buffer.js:11-34 | capacity 3 and pushes A, B, C, D give [B, C, D] |
| Ring.PushesBookkeeping | utils/ciruclar-buffer.js:12-24 | under pushes alone: count = min(M, N) ≤ N; full exactly when M > N; tail = M mod N < N; once full, head % N = tail |
| Ring.PushCount | utils/ciruclar-buffer.js:12-24 | one push raises count by one until it equals the capacity, then leaves it; count never exceeds the capacity; tail stays below it |
| Ring.InvariantKept | utils/ciruclar-buffer.js:11-46 | push, read and clear keep capacity ≥ 1, tail < capacity and count ≤ capacity |
| Ring.FullIsSticky | utils/ciruclar-buffer.js:12-46 | once `full` is set, push, read and clear all leave it set |
| Ring.ReadFromFull | utils/ciruclar-buffer.js:36-42 | a read from a full ring keeps it full with count one below the capacity |
| Ring.PushesAfterRead | utils/ciruclar-buffer.js:12-22 | from a full ring with count N−1, any pushes keep it full at count N−1 |
| Ring.EntriesCount | utils/ciruclar-buffer.js:27-34 | `toArray` yields exactly `count` entries, or none when count is not positive |
| Ring.ClearKeepsCounters | utils/ciruclar-buffer.js:44-46 | after `clear`, the counters are unchanged and `toArray` yields `count` holes, all `undefined` |
| Ring.ReadFront | utils/ciruclar-buffer.js:36-42 | with count > 0, `read` returns the first element of `toArray`; `toArray` afterwards is the rest; head advances modulo the capacity; count drops by one |
| Ring.ReadShiftsSlot | utils/ciruclar-buffer.js:36-42 | after a read, entry i of `toArray` is entry i+1 of the old one |
| Ring.ReadEmpty | utils/ciruclar-buffer.js:36-42 | a read of an empty ring drives count negative, and `toArray` is then empty |
| Ring.CapacityOnePush | utils/ciruclar-buffer.js:11-25 | with capacity 1, a push onto any state leaves `toArray` exactly [that element], except on a full ring with count below one or a ring with negative count (what reads leave behind), where `toArray` is then empty |
| Ring.CapacityOneFromFresh | utils/ciruclar-buffer.js:11-25 | with capacity 1 and fresh, after any pushes `toArray` is [the last one] |
| Ring.CapacityOneAfterRead | utils/ciruclar-buffer.js:11-42 | with capacity 1, pushes A, B and a read leave count 0 while full stays set, so a later push of C is not visible to `toArray` |
| Conversation.CompletionCarriesRecentTurns | server.js:66-72 | from a fresh memory of capacity N, the messages of a completion request made after a trace are the prompt followed by the last min(K, N) of the K turns the trace remembered, oldest first |
| Conversation.Step | server.js:62-72 | one event applied to the session: `addToMemory` pushes onto the ring; a call appends its request, a completion request carrying the prompt and `toArray` of the memory; `Conversation.ExecMemory` and `Conversation.ExecOutbound` state its effects |
| Conversation.Exec | server.js:62-72 | a trace applied event by event, keeping the capacity; every `Server.Assistant` method is stated through it |
| Conversation.ExecMemory | server.js:62-64 | the memory after a trace is the old one with exactly the remembered turns pushed, in order |
| Conversation.ExecOutbound | server.js:66-72 | each call in a trace sends one request; the completion requests among them are counted apart; earlier requests are kept |
| Conversation.ExecConcat | server.js:62-89 | running two traces one after the other is running their concatenation |
| Server.Assistant.constructor | server.js:18-31 | the server starts with a fresh ring of the given capacity and no requests sent |
| Server.Assistant.AddToMemory | server.js:62-64 | pushes exactly one turn onto the memory |
| Server.Assistant.GetReply | server.js:66-89 | sends one completion request over the prompt and the whole memory, then records what `GetReplyRun` records, and resolves to the provider message |
| Dispatch.GetReplyRun | server.js:66-89 | the run of getReply: one completion request, then the provider message recorded, or for an animation call the function turn and the value handed back (the reply object, or the rejected Promise when the arguments do not parse); it resolves to the provider message. Its properties are stated by `Dispatch.GetReplyShape` |
| Dispatch.AnimationRun | server.js:477-486 | the run of sendMessageWithAnimation: the function turn and the animation reply object, or nothing and no reply when the arguments do not parse; `Dispatch.GetReplyShape` and `Dispatch.MalformedArguments` state its effects |
| Dispatch.AnimationReply | server.js:485 | the object `{role: "assistant", content, animation: animationName}`; `Dispatch.AnimationAtTopLevel` and `Dispatch.GetReplyShape` show where it ends up |
| Dispatch.ThenReply | server.js:128-129 | a handler's own events followed by `await getReply()`, whose message is the handler's result; `Dispatch.ThenReplyCounts` states it |
| Server.Assistant.SendMessageWithAnimation | server.js:477-486 | records the content as a function turn and returns `{role: assistant, content, animation}` |
| Server.Assistant.RunUniform | server.js:91-417 | the nine uniform handlers, performed as `HandlerRun` describes |
| Server.Assistant.DeviceAction | server.js:419-438 | broadcast, acknowledgement turn, getReply; arguments that do not parse end the handler with nothing recorded and no reply |
| Dispatch.DeviceActionRun | server.js:419-438 | the run of deviceAction: the broadcast, the acknowledgement turn and one getReply, or nothing and no reply when the arguments do not parse; `Dispatch.DeviceActionShape` and `Dispatch.MalformedArguments` state its effects |
| Dispatch.DeviceActionShape | server.js:419-438 | with parsed arguments deviceAction first broadcasts the `action` field, records the turn `{"message":"success"} please format the json and tell this to the user`, then what getReply records; one completion, one service call, and the reply is the follow-up message |
| Server.Assistant.GetTrainLiveStatus | server.js:440-475 | performs `TrainRun`: lookup with the defaulted arguments, one turn, then either the apology or a getReply |
| Server.Assistant.Dispatch | server.js:488-526 | runs the handler from the table, as `HandlerRun` describes |
| Server.Assistant.HandleMessage | server.js:507-536 | POST `/` performs `PostRun`: user turn, one getReply, at most one dispatch |
| Server.Assistant.ClearMemory | server.js:57-60 | GET `/clear` clears the memory ring only and answers "Memory Cleared" |
| Dispatch.GetReplyShape | server.js:66-89 | getReply makes one completion request and no other call, and always resolves to the provider message. An ordinary reply is recorded as itself. A well-formed animation call records two entries, the function turn and the animation reply object; one whose arguments do not parse records only the rejected Promise |
| Dispatch.UniformAttemptShape | server.js:91-417 | the `try`/`catch` of a uniform handler records exactly its one attempt turn, asks for no completion, and makes one service call exactly when it gets that far |
| Dispatch.UniformHandlerShape | server.js:91-417 | each of the nine handlers records exactly one turn of its own, makes at most one service call, then calls getReply exactly once. The turn is the function turn named after the handler exactly when the call was made and succeeded; otherwise it is the system turn "tell the user something went wrong" |
| Dispatch.UniformAttempt | server.js:91-417 | the events of a uniform handler's `try`/`catch`: its call, when it gets that far, then its one turn; `Dispatch.UniformAttemptShape` states them |
| Dispatch.AttemptTurn | server.js:91-417 | the turn a uniform handler records: its function turn when the call was made and answered, the failure turn otherwise; `Dispatch.UniformHandlerShape` states this |
| Dispatch.SuccessContent | server.js:117-408 | the content each uniform handler records on success, as the source spells it; `Dispatch.DeleteReportsSuccessRegardless` uses the deleteTodo text |
| Dispatch.DayMonthYear | server.js:183-191 | `${day}-${month}-${year}` of the local date, each part in decimal without padding |
| Dispatch.NormalizeTags | server.js:105-107 | saveMemory's tag normalisation; `Dispatch.NormalizedTags` states its properties |
| Dispatch.ServiceRequest | server.js:98-392 | the request each handler sends; saveMemory and loadMemory get that far only when `tags` is a string |
| Dispatch.AttemptedRequest | server.js:92-281 | getTodo and getWeather read no arguments and always send their request; any other handler whose arguments do not parse sends nothing, and one whose arguments parse sends `ServiceRequest` of them |
| Dispatch.CallThenTurn | server.js:91-130 | an optional call followed by one recorded turn adds one turn, no completion and at most one service call |
| Dispatch.ThenReplyCounts | server.js:128-129 | following a handler's own events with getReply adds exactly one completion and no service call, and the run's reply is getReply's |
| Dispatch.MalformedArguments | server.js:92-478 | with arguments that do not parse: a uniform handler that reads them records the failure turn and still asks; deviceAction and sendMessageWithAnimation stop with nothing recorded and no reply; getTrainLiveStatus records its failure turn and answers with the apology |
| Dispatch.NormalizedPiece | server.js:105-107 | one lower-cased, trimmed tag has no comma, no upper-case letter and no surrounding white space |
| Dispatch.NormalizedTags | server.js:105-107 | saveMemory's tags are one per comma-separated piece (commas + 1 of them), each lower-cased and trimmed |
| Dispatch.TrainDefaults | server.js:444-453 | trainNo defaults to 18451 when falsy; date defaults to the UTC date as eight digits YYYYMMDD; the resulting pair is always truthy, so the page is always requested |
| Dispatch.TrainArguments | server.js:444-453 | the train number and date with their defaults; `Dispatch.TrainDefaults` states them |
| Dispatch.TrainRun | server.js:440-475 | the run of getTrainLiveStatus; `Dispatch.TrainShape` states its effects |
| Dispatch.TrainReport | server.js:455-474 | the report text recorded on success, quoting the train name and status as the source spells it |
| Dispatch.TrainTurn | server.js:455-474 | the turn recorded for a lookup result: "Something went wrong." on error, the report otherwise; `Dispatch.TrainShape` states it |
| Dispatch.TrainFinish | server.js:455-474 | the end of getTrainLiveStatus once the lookup answered; `Dispatch.TrainFinishShape` states its effects |
| Dispatch.TrainFinishShape | server.js:455-474 | after the lookup: on error one function turn "Something went wrong." and the apology, with no completion; on success exactly the report turn followed by what getReply records, one completion, and the follow-up message as the reply |
| Dispatch.TrainShape | server.js:440-474 | getTrainLiveStatus requests the page with the defaulted arguments. On failure it records one function turn and returns the fixed apology, with no completion. On success it records exactly one turn carrying the report before getReply's turns, makes one completion request and answers with the follow-up message |
| Dispatch.HandlerBounds | server.js:91-486 | every handler makes at most one completion request and at most one service call |
| Dispatch.HandlerRun | server.js:488-501 | the run of the handler the table names; `Dispatch.HandlerBounds` bounds it |
| Dispatch.PostRun | server.js:507-536 | the run of POST `/`; `Dispatch.PostBounds`, `Dispatch.PlainReply`, `Dispatch.UnknownFunction` and `Dispatch.NoSecondDispatch` state its effects |
| Dispatch.PostBounds | server.js:507-536 | POST `/` first records the user turn, then makes one completion request; in all it makes at most two completion requests and at most one service call |
| Dispatch.PlainReply | server.js:507-535 | a provider message without a function call is recorded and sent back as is |
| Dispatch.UnknownFunction | server.js:517-526 | a function name missing from the table gets no recovery: no reply is sent and nothing more is recorded |
| Dispatch.PostDispatches | server.js:507-536 | a first provider message naming a table function other than the animation runs that handler exactly once, after the first ask, and its reply is the route's reply |
| Dispatch.DispatchedParts | server.js:507-536 | when the first provider message names a table function other than the animation, the POST records the user turn and that message, then exactly what the handler records; it makes one completion more than the handler does and answers with the handler's reply |
| Dispatch.NoSecondDispatch | server.js:507-536 | there is no repeat loop: after a uniform handler, the route answers with the follow-up provider message and does not dispatch a call in it from the table again; exactly two completion requests are made; the memory gains the user turn, the first message, the handler's attempt turn and then what getReply records for the follow-up |
| Dispatch.UniformRunTurns | server.js:91-417 | a uniform handler records its one attempt turn and then what getReply records for the follow-up |
| Dispatch.FollowUpAnimationRunsInGetReply | server.js:74-82 | an animation call in a uniform handler's follow-up is still run by getReply: the POST records five entries, the last two being the animation's function turn and its reply object, and answers with the follow-up message |
| Dispatch.MalformedAnimationAtTopLevel | server.js:507-536 | an animation call whose arguments do not parse, in the first reply: the memory gains the user turn and the rejected Promise, one completion is made, and the route sends no reply |
| Dispatch.AnimationAtTopLevel | server.js:507-536 | an animation call in the first reply runs twice. The memory gains four entries: the user turn, the function turn, the animation reply and the function turn again. The route answers with the animation reply after one completion request |
| Dispatch.FunctionTable | server.js:488-501 | the `functions` object: twelve names, each bound to its handler; `Dispatch.TableMatchesCatalogue` and `Dispatch.TableLeadsToNamedHandler` state it |
| Dispatch.TableMatchesCatalogue | server.js:488-501 | the table's keys are exactly the catalogue's names |
| Dispatch.TableLeadsToNamedHandler | server.js:488-501 | each key of the table leads to the handler of that name, and every handler is reached under its own name |
| Dispatch.DeleteReportsSuccessRegardless | server.js:242-275 | for an index that names no element the store leaves the list unchanged and, unless the index names an array property, answers with an error body, yet deleteTodo records "successfully deleted todo!" |
| TrainStatus.FalsyArgumentRefused | functions/trainStatus.js:5-7 | a falsy train number or date, 0 included, gives the refused-argument error before any fetch, and its `error` holds the thrown text "Inavild arguement provided" |
| TrainStatus.ThrownText | functions/trainStatus.js:4-22 | the text `{error}` holds: the thrown string for a refused argument, none for the Error objects of the other failures; `TrainStatus.FailuresAreValues` says it is present exactly when the arguments were refused |
| TrainStatus.FailuresAreValues | functions/trainStatus.js:4-22 | every outcome is a value: a status only when the arguments passed and the page came back, otherwise an error |
| TrainStatus.ExtractionNeedsThreeLines | functions/trainStatus.js:16-22 | a status is extracted exactly when the header text has at least three lines; otherwise the result is an error |
| TrainStatus.StatusIsThirdLinePrefix | functions/trainStatus.js:16-19 | `trainContent` is the part of the third line before its first `\|`; `trainName` is the `h1` text |
| TrainStatus.Extract | functions/trainStatus.js:14-19 | the status read off the fetched page; `TrainStatus.ExtractionNeedsThreeLines` and `TrainStatus.StatusIsThirdLinePrefix` state it |
| TrainStatus.GetTrainStatus | functions/trainStatus.js:3-23 | the whole lookup with its `catch`; `TrainStatus.FalsyArgumentRefused` and `TrainStatus.FailuresAreValues` state it |
| TodoStore.Store.constructor | database-server/routes/todo.js:1-5 | the collection starts empty |
| TodoStore.Store.List | database-server/routes/todo.js:7-14 | GET returns the whole sequence and changes nothing |
| TodoStore.Store.Create | database-server/routes/todo.js:16-25 | POST behaves as `Created`: either one record appended with a fresh id and a success reply, or a validation error with the list unchanged |
| TodoStore.Store.Delete | database-server/routes/todo.js:27-36 | DELETE behaves as `Deleted`: the record at the position goes and success comes back; for an index naming another property of the array the reply is success too; for any other index the list is unchanged and an error body comes back |
| TodoStore.Created | database-server/routes/todo.js:16-25 | the list and reply after POST; `TodoStore.CreateAppendsOne` states them |
| TodoStore.Deleted | database-server/routes/todo.js:27-36 | the list and reply after DELETE; `TodoStore.DeleteByPosition` states them |
| TodoStore.RemoveId | database-server/routes/todo.js:31 | `deleteOne({_id})`: the first record with that id goes; `TodoStore.RemoveAtPosition` states it |
| TodoStore.CreateAppendsOne | database-server/routes/todo.js:16-25 | a valid task appends exactly one `{task, dueDate}` record and replies success. A missing or empty task fails validation and leaves the sequence unchanged |
| TodoStore.TaskText | database-server/models/todo.js:4 | String casting of `task`, with `required` refusing undefined, null and "" |
| TodoStore.ArrayIndex | database-server/routes/todo.js:31 | `todo[index]` names an element only at a position in range, and only when the index is that number or its decimal text; an integer names one exactly when it is in range, a string exactly when it is the decimal text of a position in range; booleans, `null` and `undefined` name none |
| TodoStore.IndexResolution | database-server/routes/todo.js:29-31 | an integer index resolves exactly when it is in range, so does its decimal text, and a missing index never resolves |
| TodoStore.RemoveAtPosition | database-server/routes/todo.js:30-31 | deleting by the id found at position i removes exactly element i; the others keep their order, given distinct ids |
| TodoStore.DeleteByPosition | database-server/routes/todo.js:27-36 | an in-range index removes exactly that element, keeping the order of the rest; any other index leaves the list unchanged, and it is answered with success exactly when it names a property of the array, with an ordinary error body otherwise |
| Catalogue.Entries | utils/openAiConfig.js:9-217 | the twelve catalogue entries with their names, properties and `required` lists; `Catalogue.NamesInOrder`, `Catalogue.TwelveDistinctNames`, `Catalogue.RequiredAreDeclared` and `Catalogue.RequiredPlacement` state them |
| Catalogue.NamesInOrder | utils/openAiConfig.js:9-217 | the catalogue's names, in order |
| Catalogue.TwelveDistinctNames | utils/openAiConfig.js:9-217 | twelve entries with pairwise distinct names |
| Catalogue.RequiredAreDeclared | utils/openAiConfig.js:32-215 | every name on a `required` list, inside `parameters` or beside it, is a declared property |
| Catalogue.RequiredPlacement | utils/openAiConfig.js:9-217 | `required` sits inside `parameters` exactly for saveMemory, loadMemory, createTodo and deleteTodo. It sits beside `parameters` exactly for spotifyAction, spotifyRandomSong, spotifySearchSong, deviceAction and sendMessageWithAnimation. getTodo, getWeather and getTrainLiveStatus have none |
| Catalogue.Names | utils/openAiConfig.js:9-217 | the names of the entries, position by position |
| Strings.Split | functions/trainStatus.js:16 | `split` always yields at least one piece |
| Strings.SplitCount | server.js:105-106 | `split` yields one more piece than there are separators |
| Strings.SplitPiecesFree | functions/trainStatus.js:16 | no piece of `split` contains the separator |
| Strings.SplitJoin | functions/trainStatus.js:16 | joining the pieces with the separator gives back the text |
| Strings.JoinSplit | server.js:451 | splitting a join of separator-free pieces gives back the pieces |
| Strings.Trim | server.js:107 | `trim` removes exactly the leading and trailing white space and keeps the one contiguous slice between, which neither starts nor ends with white space |
| Strings.LowerCaseProperties | server.js:107-145 | `toLowerCase` keeps the length, leaves no upper-case letter, changes only letters and is idempotent |
| Strings.NatToString | server.js:191 | decimal text of a number: digits only, no leading zero |
| Strings.ParseNatToString | server.js:191 | the decimal text reads back as the number |
| Strings.ParsePadded | server.js:451-452 | a zero-padded field reads back as the number it pads |
| Strings.CanonicalIndex | database-server/routes/todo.js:31 | a string read as an array index consists of digits, and the number it names prints back as exactly that string |
| Strings.CanonicalIndexExactlyPrinted | database-server/routes/todo.js:31 | a string names the array index n exactly when it is the decimal text of n (so no leading zero, no sign, no other characters) |
| Strings.CanonicalIndexOfPrinted | database-server/routes/todo.js:31 | the decimal text of a number is the canonical index of that number |
| Strings.CompactDate | server.js:451-452 | the ISO date with its dashes removed is eight digits that read as year, month and day |

## Left out

- The provider call, every `fetch` (store, weather, music, train page), express
  middleware, routing, start-up and logging are I/O. Each call is an abstract
  outcome, and the provider's messages are inputs.
- The provider-failure path is left out. `getReply` has no `.catch`, so a
  rejected completion leaves the request hanging.
- Promises and `async` are not modelled. Every handler runs to completion in
  order. The model keeps three consequences:
  - the value pushed by the animation branch of `getReply` is a Promise; the
    model treats it as the reply object it resolves to, and a Promise that
    rejects as an assistant turn with `undefined` content;
  - arguments that do not parse in `deviceAction`, or in
    `sendMessageWithAnimation` when the route runs it, end the request with no
    reply;
  - a name missing from the table ends the request the same way. This includes
    names inherited from `Object.prototype`: none of them returns a Promise, so
    each of them throws as well.

  Each of these three cases is an unhandled rejection: the rejected Promise of
  the animation, the rejected Promise of the handler that the route's `.then`
  does not catch, and the TypeError thrown inside the `async` route. A current
  Node.js reports such a rejection after the fact and by default ends the
  process. The model records only what happens before it, and the rejection
  and the end of the process are not modelled.
- MESSAGE_MEMORY reaches the buffer as a string, so `count === this.length`
  never holds for it. The capacity is modelled as a number of at least one;
  capacity 0 (`% 0` gives NaN) is excluded.
- The web-socket server's connection set is connect/close concurrency. Its
  `wsSendMessage` is taken to return `{message:"success"}` without throwing.
- The memory and auth routes and models of the store service are thin client
  wrappers of the document store; the memory router is also never mounted.
- TodoStore.Store.Delete: for an index naming a property of the listing array
  (`length`, an `Array.prototype` or `Object.prototype` member), the reply is
  success and the model leaves the list unchanged, taking
  `deleteOne({_id: undefined})` to match no record. Whether the document store
  instead drops the undefined key and deletes its first record depends on the
  driver's settings and is not modelled.
- Document-store semantics are reduced to three things: insertion order as the
  listing order, fresh unique ids and the `required` check on `task`. The
  `dueDate` cast to a Date is not modelled, and neither are store errors.
- JSON values are scalars. Numbers are integers (no fractions, NaN or -0), and an
  argument text that parses to something other than an object is not modelled.
- Strings.ToLower: lower-cases ASCII letters only, because JS case mapping for
  the rest of Unicode is library data.
- Strings.CompactDate: covers years 0 to 9999 only, because `toISOString` switches
  to a six-digit signed year outside that range.
- The train page's HTML parsing is left out. The page arrives as its
  `.card-header` text and the text of its `h1`, and the module-load call at
  functions/trainStatus.js:27 is not modelled.
- The descriptions in the function catalogue are prose for the provider and are
  not kept. The floating-point `temperature` and `presence_penalty` are not
  modelled either. A completion request carries only its message list: the
  settings spread into it (`Catalogue.ModelName` and the catalogue itself) are
  constant and are not repeated in every request.
- Ring.CircularBuffer.Read is never called by the server. It is modelled as
  written, and its behaviour on an empty ring is specified rather than guarded.
