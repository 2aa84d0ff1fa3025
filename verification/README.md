# Verified model of opencode-go-cpa

The plugin puts one subscription behind three client protocols: OpenAI Chat Completions, OpenAI
Responses and Anthropic Messages. It translates requests, responses and event streams between them,
pumps streams through an asynchronous host bridge, and keeps a refreshed model catalog. This project
models that behaviour in Dafny 4.11 and proves what it keeps. `dafny verify dfyconfig.toml` checks all
of it.

Each stateful object of the program is a class whose methods are proved against functions on values;
the results are then lemmas about those functions, for every input, run or reachable state. What a
client makes of an event stream is defined separately, in `Clients`, so that the results speak of what
arrives rather than of how it was produced.

| modules | what they hold |
|---|---|
| `Folds`, `Wire`, `Clients` | logs and folds; events, items and the small shared kernels; independent clients: a block monitor, the block grammar, item and call accumulators |
| `LineFeed`, `SseFramer` | line splitting and draining under any chunking; the incremental frame parser, its grammar and its printer |
| `Assembler`, `Pieces`, `BlockLists` | the output assembler and what it aggregates |
| `ChatUpstream`, `ChatStream`, `ChatClaude`, `ChatGrammar`, `ChatContents`, `ChatResponses`, `ChatOpening`, `ChatLines`, `ChatConverter` | Chat Completions streams to Messages and Responses |
| `ChatConvert`, `ChatParity`, `ChatWhole`, `ChatClaudeParity` | the non-streaming converters, and the streams against them |
| `ToolTracker`, `ToolForks`, `ResponsesStream`, `ResponsesOpening`, `ResponsesClaude`, `ResponsesContents`, `ResponsesLate`, `ResponsesOrder`, `ResponsesFrames`, `ResponsesParity`, `ResponsesConverter` | Responses streams to Messages and Chat Completions, with the tool-call tracker |
| `MessagesConvert`, `MessagesStream`, `MessagesParity`, `MessagesOrder`, `MessagesText`, `MessagesChat`, `MessagesTold`, `MessagesFrames`, `MessagesConverter` | Messages streams to Responses and Chat Completions, and the non-streaming converter |
| `ResponsesConvert` | Responses results to Messages, and the round trip |
| `RequestParts`, `RequestRoundTrip`, `MsgBuilder`, `MessagesRequest`, `MessagesKeep`, `RouteParity`, `ClaudeRequest`, `ClaudeChatRequest` | request translations, their round trips and the order they keep |
| `HostBridge`, `Pump` | host callbacks under deadlines as interleaved steps; the stream pump |
| `Catalog`, `Lifecycle` | the model catalog; configuration, refresh loop and shutdown as steps |

## Where code and comments disagree

The model follows the code. Each of these is stated by a lemma.

- A tool index resumed after another block opened still emits on its stopped block
  (`ChatGrammar.ResumedToolBreaksGrammar`); the grammar holds exactly for the upstreams of
  `ChatGrammar.WellFormedIffInOrder`.
- The terminal event of a Responses stream resets the open blocks but not `textOpen`
  (internal/adapter/responses/stream.go:511-514), and Feed goes on after it: whatever it then emits is
  misplaced (`ResponsesClaude.LateOutputIsRejected`, `ResponsesLate.LateEventRejectedIff`), and late
  text lands on a stopped block exactly when text was the last to open one
  (`ResponsesClaude.LateTextOnStoppedBlockIff`).
- Both identifiers of a call are documented to be bound to one entry
  (internal/adapter/responses/stream.go:79-86); fragments under an item id that no announcement carried
  become a second call (`ToolForks.AnnouncedOneIndexIff`).
- Streamed call arguments match the upstream's only when complete arguments and fragments do not both
  arrive; an empty fragment also suppresses a later replay (`ToolTracker.ReassembledIff`).
- A call whose fragment comes before its item event is opened under the item id and without a name
  (internal/adapter/responses/stream.go:470-482), and stays so at the client though the item event and
  the final response name it (`ResponsesOrder.EarlyFragmentHidesName`,
  `ResponsesOrder.ContentAgreesIff`).
- An argument fragment marks tool calls as seen only towards Chat Completions
  (internal/adapter/responses/stream.go:461-462), though both targets are documented to share one
  precedence rule; when only fragments mention a call, the stop reasons differ
  (`ResponsesParity.TargetsDisagreeIff`).
- The in-flight count is documented to stay positive until a late stream has been closed
  (internal/plugin/hostbridge.go:176-182). It does for abandoned calls; a result within the grace
  window settles its invocation first, so its close can be owed at count zero
  (`HostBridge.GraceCloseOwedAtZero`), exactly as `HostBridge.OwedCloseCountedIff` says.
- DoStream is documented to leak no registered stream (internal/plugin/hostbridge.go:320-326); a result
  whose envelope is not OK names a stream that nobody closes (`HostBridge.DroppedIffRefused`).
- The pump's closer runs once, but the watchdog closes the upstream on its own, so an upstream can be
  closed twice (`Pump.ExecuteStream`).
- Streamed output positions are claimed always to match the terminal ones
  (internal/adapter/messages/stream.go:262-265); they do exactly for blocks started in order
  (`MessagesOrder.PositionsKeptIff`; `MessagesParity.OutOfOrderMovesItems` is an input where they do not).
- A Messages tool block without an argument fragment never reaches a Chat Completions client, though
  the finish reason announces it (`MessagesChat.SilentCallIsLost`).
- Streaming and non-streaming Chat Completions results are documented to be siblings
  (internal/adapter/chatcompletions/convert.go:180-182); they differ when a call came before the first
  text, when text or calls followed the finishing chunk, and when usage came later than the chunk
  after it (`ChatWhole.ModesAgreeIff`, `ChatClaudeParity.StopAndTokensAgreeIff`).
- The output count of a message_start is not kept, so a Messages stream without a message_delta after it
  reports another count than the message does (`MessagesParity.StartCountIsDropped`,
  `MessagesParity.ModeParity`).
- The terminal payload of a Chat Completions stream lacks what is said after the finishing chunk
  (`ChatWhole.PayloadIsWholeIff`).
- An image in a tool message is accepted towards Messages and refused towards Responses
  (`RouteParity.RoutesAgree`).
- An assistant turn of a Messages request loses the order of text and calls towards Chat Completions
  when text follows a call (`ClaudeChatRequest.AssistantOrderKeptIff`).
- The comment on Flush says Chat Completions targets of a Messages stream get the missing [DONE]
  (internal/adapter/messages/stream.go:347-352); the code returns nothing, and so does
  `MessagesConverter.StreamConverter.FlushStream`.

## Model

| member | source | states |
|---|---|---|
| `LineFeed.ChunkingIndependence` | internal/adapter/chatcompletions/stream.go:73-92 | for every handler of lines and every split of the bytes: events, state and status up to the first terminal status are those of the complete lines of all bytes, and the rest stays buffered while the stream is open |
| `LineFeed.TwoSplitsAgree` | internal/adapter/chatcompletions/stream.go:73-92 | two splits of the same bytes cannot be told apart |
| `LineFeed.TrimCRIff` | internal/adapter/chatcompletions/stream.go:81 | one carriage return before the newline belongs to the line ending, and nothing else is taken off |
| `ChatLines.LineReads` | internal/adapter/chatcompletions/stream.go:149-158 | what a line says, in terms of its own characters: a data line with anything but white space is [DONE] or one payload, which decodes to a chunk or fails the stream; every other line says nothing |
| `ChatLines.UnknownTargetFails` | internal/adapter/chatcompletions/stream.go:94-105 | a target that is none of the three fails with the first complete line and delivers nothing |
| `ChatOpening.MessageOpens` | internal/adapter/chatcompletions/stream.go:297-305 | every stream, either ending: exactly one message_start if a chunk has a choice, with the first such chunk's identity, which is that of the non-streaming conversion, and its reported prompt count or 0; none otherwise |
| `ChatOpening.ResponseOpens` | internal/adapter/chatcompletions/stream.go:416-440 | the one response.created carries the id of the first chunk with a choice |
| `ChatClaude.BlockDiscipline` | internal/adapter/chatcompletions/stream.go:276-405 | every chunk sequence and either ending: block indices 0, 1, 2, ..., at most one open block at any event, each index started once and stopped at most once, text deltas hit the open block, message_start first, message_delta at most once and nothing after message_stop; nothing open after [DONE] |
| `ChatGrammar.WellFormedIffInOrder` | internal/adapter/chatcompletions/stream.go:114-137 | the whole emission is message_start (start delta* stop)* message_delta message_stop if and only if the upstream finished, said nothing afterwards and never resumed a tool index with more arguments once something else had started; for [DONE] and for Flush |
| `ChatGrammar.ResumedToolBreaksGrammar` | internal/adapter/chatcompletions/stream.go:330-346 | a concrete upstream that resumes a tool index after text: its fragment lands on a stopped block |
| `ChatContents.NothingLost` | internal/adapter/chatcompletions/stream.go:301-348 | every chunk sequence and either ending: the text of the client's blocks is the upstream text, and its tool blocks are the upstream calls in order of first arrival, arguments complete |
| `Clients.MonitorCounts` | internal/adapter/chatcompletions/stream.go:383-405 | an accepted log starts every index below the allocator exactly once and stops it exactly once unless it is the open one |
| `ChatResponses.ClientKeepsUp` | internal/adapter/chatcompletions/stream.go:416-484 | every chunk sequence: items are announced at 0, 1, 2, ..., and every delta names an announced item by position and id |
| `ChatResponses.OneTerminalPerFinish` | internal/adapter/chatcompletions/stream.go:495-543 | over Feed and Flush, response.completed is sent exactly once when a finish reason arrived and never otherwise |
| `ChatResponses.TerminalIsWhatWasStreamed` | internal/adapter/chatcompletions/stream.go:495-543 | wherever response.completed stands in the stream, its output equals, position by position, the items streamed before it, with the absent-arguments default |
| `ChatResponses.ResponsesNothingLost` | internal/adapter/chatcompletions/stream.go:416-484 | the client ends up with exactly the upstream text and the upstream calls in order |
| `ChatResponses.QuietPayloadIsComplete` | internal/adapter/chatcompletions/stream.go:495-543 | for an upstream that says nothing after its finish reason, response.completed is the last event and its output is the whole answer |
| `ChatWhole.TerminalIsSealed` | internal/adapter/chatcompletions/stream.go:495-543 | every stream that finishes: the one terminal event has the identity of the first choice, the status of the first finish reason and the last tokens heard up to the chunk after it |
| `ChatWhole.StreamedPlaced` | internal/adapter/chatcompletions/stream.go:441-480 | every stream: the client ends up with all text and calls, the message after exactly the calls that had started before the first text |
| `ChatWhole.ModesAgreeIff` | internal/adapter/chatcompletions/convert.go:159-207 | every stream that finishes, its terminal event against the non-streaming conversion of the whole response, tokens being the last reported anywhere: same identity and status; the reported tokens if and only if no differing usage came later than the chunk after the finishing one; the same output if and only if nothing a payload would show came in a chunk after the finishing one and the first text came before any tool call, or there was none |
| `ChatWhole.PayloadIsWholeIff` | internal/adapter/chatcompletions/stream.go:495-543 | every stream that finishes, quiet afterwards or not: response.completed comes right after the finishing chunk's events, and its output is all the client ends up with if and only if no text and no call came in a later chunk, and no argument beyond white space that leaves the arguments absent |
| `ChatClaudeParity.StopAndTokensAgreeIff` | internal/adapter/chatcompletions/stream.go:357-380 | every stream that finishes, ended either way, against the non-streaming conversion: exactly one message_delta; the same stop reason if and only if no call came first after the finishing chunk or the reason is tool_calls anyway; the same token counts if and only if no usage that counts differently came later than the chunk after the finishing one |
| `ChatClaudeParity.ChatToClaude` | internal/adapter/chatcompletions/convert.go:93-122 | fails exactly when `Convertible` says, else the specified conversion, pinned by the next two rows; the class of the failure as specified |
| `ChatClaudeParity.AcceptedIff` | internal/adapter/chatcompletions/convert.go:93-122 | accepted exactly: a choice whose content is absent, a string, or text and image parts with sources, and whose calls decode |
| `MessagesKeep.ResultKept` | internal/adapter/chatcompletions/convert.go:93-122 | the resulting blocks say exactly what the parts of the choice said, in order, and then its calls |
| `ChatConvert.ChatToResponses` | internal/adapter/chatcompletions/convert.go:159-207 | succeeds exactly when there is a choice whose content decodes to text only; the message leads if it has text, the calls follow in order; the class of the failure as specified |
| `ChatConvert.AcceptedIff` | internal/adapter/chatcompletions/convert.go:159-207 | accepted exactly: a choice whose content is all text |
| `ChatLines.ClaudeDelivery` | internal/adapter/chatcompletions/stream.go:73-105 | every split of every byte stream: the client receives the emission for the decoded chunks up to [DONE], or up to the first malformed payload |
| `ChatLines.ResponsesDelivery` | internal/adapter/chatcompletions/stream.go:73-105 | the same for the Responses target |
| `ChatLines.PassthroughDelivery` | internal/adapter/chatcompletions/stream.go:160-173 | the client receives exactly the upstream's data payloads up to [DONE] |
| `ChatConverter.StreamConverter.constructor` | internal/adapter/chatcompletions/stream.go:60-66 | a fresh converter |
| `ChatConverter.StreamConverter.Feed` | internal/adapter/chatcompletions/stream.go:73-92 | consumes the complete lines of buffer and chunk until one ends the stream, keeps the rest; result and new state are those of the line-by-line specification |
| `ChatConverter.StreamConverter.Flush` | internal/adapter/chatcompletions/stream.go:114-137 | emits the held terminal once; later calls emit nothing and change nothing |
| `ChatConverter.StreamConverter.ClaudeLine` | internal/adapter/chatcompletions/stream.go:276-300 | a line for the Messages target, including [DONE], keep-alives and in-stream errors |
| `ChatConverter.StreamConverter.ClaudeTerminal` | internal/adapter/chatcompletions/stream.go:357-380 | the held message_delta, with tool calls outranking the finish reason and cached tokens taken off the prompt |
| `ChatConverter.StreamConverter.StopBlocks` | internal/adapter/chatcompletions/stream.go:394-405 | stops the text block, then the open tool blocks in order of arrival, in place |
| `ChatConverter.StreamConverter.ClaudeToolCalls` | internal/adapter/chatcompletions/stream.go:319-348 | opens unknown tool indices after stopping what is open, and sends non-empty fragments |
| `ChatConverter.StreamConverter.ResponsesLine` | internal/adapter/chatcompletions/stream.go:416-440 | a line for the Responses target |
| `ChatConverter.StreamConverter.ResponsesContent` | internal/adapter/chatcompletions/stream.go:441-455 | announces the message once, accumulates and streams text |
| `ChatConverter.StreamConverter.ResponsesToolCalls` | internal/adapter/chatcompletions/stream.go:456-478 | announces calls once, accumulates arguments in place and streams them |
| `ChatConverter.StreamConverter.TerminalItems` | internal/adapter/chatcompletions/stream.go:505-530 | the output array built by the assembler equals the specified one: calls in arrival order, the message at its announced index |
| `ChatConverter.StreamConverter.ResponsesTerminal` | internal/adapter/chatcompletions/stream.go:495-543 | the held response.completed, at most once |
| `ChatConverter.StreamConverter.PassthroughLine` | internal/adapter/chatcompletions/stream.go:160-173 | one payload verbatim; [DONE] ends the stream |
| `Assembler.Placement` | internal/adapter/shared/shared.go:1405-1461 | every sequence of operations: calls keep their order; a reservation pins the message after the calls made before it even if empty; without one the message leads, and only when there is text |
| `Assembler.OutputAssembler.ReserveTextSlot` | internal/adapter/shared/shared.go:1421-1427 | reserves once |
| `Assembler.OutputAssembler.AddText` | internal/adapter/shared/shared.go:1430-1432 | appends to the text |
| `Assembler.OutputAssembler.AppendFunctionCall` | internal/adapter/shared/shared.go:1437-1441 | appends a call |
| `Assembler.OutputAssembler.Render` | internal/adapter/shared/shared.go:1446-1461 | fills the slot or prepends the message, in place, and returns the items |
| `Wire.DefaultArgsIdempotent` | internal/adapter/shared/shared.go:131-137 | the absent-arguments default applied twice is applied once |
| `Wire.DefaultArgsIff` | internal/adapter/shared/shared.go:131-137 | arguments become the empty object exactly when nothing, or a null, stands between white space; all others are kept as they are |
| `Wire.TrimSpaceIff` | internal/adapter/shared/shared.go:52-81 | trimming takes away exactly the white space around a text |
| `Wire.TablesAgree` | internal/adapter/shared/shared.go:276-375 | the stop-reason, finish-reason and status tables agree: reasons survive the way there and back, and all ways of telling how a response ended give one status |
| `SseFramer.SSEFramer.constructor` | internal/adapter/shared/shared.go:32-34 | a framer with nothing buffered |
| `SseFramer.SSEFramer.Push` | internal/adapter/shared/shared.go:37-39 | appends to the buffer |
| `SseFramer.SSEFramer.HandleLine` | internal/adapter/shared/shared.go:52-81 | one line: blank lines emit, event and data lines accumulate, other lines only enter the raw block |
| `SseFramer.SSEFramer.Next` | internal/adapter/shared/shared.go:43-82 | terminates on a shrinking buffer; takes exactly the lines up to the next frame; none only when no complete line is left |
| `SseFramer.SSEFramer.Frames` | internal/adapter/shared/shared.go:36-82 | push, then take until none: the frames and the state of the complete lines, the partial line kept |
| `SseFramer.BlocksPartition` | internal/adapter/shared/shared.go:43-82 | the grammar's blocks and the pending lines are the lines, and no block holds a blank line |
| `SseFramer.FramesAreTheGrammar` | internal/adapter/shared/shared.go:36-82 | for every split of the bytes the framed events are those of the blocks of the whole text, read by an independent grammar (last event name, joined data) |
| `SseFramer.ClassifyIff` | internal/adapter/shared/shared.go:52-81 | how a line is read, in terms of its own characters: an event name is what stands between white space after "event:", a payload what follows "data:" and at most one space |
| `SseFramer.RawIsLossless` | internal/adapter/shared/shared.go:36-82 | with raw capture, the raw blocks, the pending raw lines and the buffer are all the bytes pushed |
| `SseFramer.NothingCaptured` | internal/adapter/shared/shared.go:48-51 | without raw capture no frame carries raw bytes and none are held |
| `SseFramer.RawBlocksStandAlone` | internal/adapter/shared/shared.go:43-82 | every raw block framed on its own gives exactly the frame it came with |
| `SseFramer.RoundTrip` | internal/adapter/shared/shared.go:479-487 | framing any list of rendered events, split anywhere, returns the list of names and payloads with nothing pending |
| `ToolTracker.ToolCallTracker.constructor` | internal/adapter/responses/stream.go:95-97 | an empty tracker |
| `ToolTracker.ToolCallTracker.Bind` | internal/adapter/responses/stream.go:140-144 | an identifier resolves to the state from now on; empty identifiers are not bound |
| `ToolTracker.ToolCallTracker.State` | internal/adapter/responses/stream.go:125-138 | the state known under the identifier or its alias, or a new one with the next index |
| `ToolTracker.ToolCallTracker.Observe` | internal/adapter/responses/stream.go:104-111 | first sighting, index and whether complete arguments are to be delivered, as the value-level step says |
| `ToolTracker.ToolCallTracker.StreamArgs` | internal/adapter/responses/stream.go:117-121 | a fragment marks its call delivered |
| `ToolTracker.DecisionsAreExpected` | internal/adapter/responses/stream.go:85-144 | for one-to-one pairings of call_id and item id every decision is the one the log dictates: announced at its first event only, one index for all sightings, complete arguments only if nothing earlier carried any |
| `ToolTracker.OneIndexPerCall` | internal/adapter/responses/stream.go:85-144 | two events get the same index if and only if they are about the same call |
| `ToolTracker.SentIs` | internal/adapter/responses/stream.go:409-485 | what is delivered for a call is its first complete arguments, if they came first, and then every fragment |
| `ToolTracker.ReassembledIff` | internal/adapter/responses/stream.go:409-485 | when complete arguments and fragments each spell the arguments, the client reassembles exactly them if and only if exactly one of the two was sent |
| `ToolTracker.MissingItemIdForksCall` | internal/adapter/responses/stream.go:117-138 | a concrete log: without the item id at the announcement, fragments fork a second call |
| `ToolForks.OneIndexIffNoneStrays` | internal/adapter/responses/stream.go:117-144 | every log whose identifiers belong to their calls, whichever of them an event carries: the events of a call share one index if and only if none arrives with identifiers that are all new, or with none, after the call was known |
| `ToolForks.AnnouncedOneIndexIff` | internal/adapter/responses/stream.go:117-144 | a call announced before its fragments, by items with a call_id, gets one index if and only if its item id was carried before its first fragment |
| `ResponsesClaude.DisciplineIffAnnounced` | internal/adapter/responses/stream.go:383-404 | up to the terminal event the block monitor accepts the emission if and only if response.created came first and once; then at most one block is open and `textOpen` holds exactly when it is `textIndex` |
| `ResponsesClaude.EveryBlockStoppedOnce` | internal/adapter/responses/stream.go:492-554 | after the terminal event every started index has been stopped exactly once |
| `ResponsesClaude.LateOutputIsRejected` | internal/adapter/responses/stream.go:243-266 | Feed goes on after the terminal event: the monitor, which accepts nothing after message_stop, accepts the whole emission if and only if no later event made the converter emit anything |
| `ResponsesLate.LateEventRejectedIff` | internal/adapter/responses/stream.go:383-520 | which those are, read off the upstream: every text delta, fragment, second terminal event and second response.created; a call item whose identifiers are all new; and, for one-to-one pairings, one with complete arguments when no earlier event of the call carried any |
| `ResponsesClaude.LateTextOnStoppedBlockIff` | internal/adapter/responses/stream.go:511-514 | a late text delta lands on a stopped block if and only if text, and not a new call, was the last to open a block before the terminal event |
| `ResponsesClaude.TextLandsWhere` | internal/adapter/responses/stream.go:383-404 | every stream, beyond terminal events too: text goes to the block already there exactly when nothing but a new call beside an open block has come since the last text, and otherwise starts the next block |
| `ResponsesOpening.MessageOpens` | internal/adapter/responses/stream.go:273-288 | exactly one message_start for each response.created, in order, with the last identifier and model reported by then, and no other |
| `ResponsesOpening.RoleOpens` | internal/adapter/responses/stream.go:273-288 | exactly one role chunk for each response.created; the identity chunks carry is the last one reported |
| `ResponsesContents.ClaudeClientHolds` | internal/adapter/responses/stream.go:383-485 | up to the terminal event, for one-to-one pairings: the client's text is the upstream's and its tool blocks are exactly the upstream calls, each at its index with its first identity and the decided arguments |
| `ResponsesContents.ChatClientHolds` | internal/adapter/responses/stream.go:409-485 | to the end of the stream for the Chat Completions target: calls open at 0, 1, 2, ..., fragments name open calls, text and calls as upstream |
| `ResponsesOrder.BlocksInOrder` | internal/adapter/responses/stream.go:383-485 | the client's blocks, in index order, are the runs of text and the calls of the upstream in the order they were first heard of, each call as first announced and with the arguments sent for it |
| `ResponsesOrder.ContentAgreesIff` | internal/adapter/responses/convert.go:188-235 | a final response that says what the events said, each call as its first item event named it: the client holds that content, adjacent text joined, if and only if no call with an identifier or name of its own was first heard of through a fragment, and the arguments of every call went out one way, complete or in fragments; then it decodes to the content of the non-streaming conversion |
| `ResponsesOrder.EarlyFragmentHidesName` | internal/adapter/responses/stream.go:470-482 | a concrete upstream whose fragment comes before its item event: the client's block keeps the item id and no name |
| `ResponsesParity.ClaudeModesAgreeIff` | internal/adapter/responses/stream.go:492-520 | the terminal message_delta has the tokens of the non-streaming conversion, and its stop reason if and only if a function_call item was streamed exactly when the response holds one |
| `ResponsesParity.ChatFinishTells` | internal/adapter/responses/stream.go:492-506 | the finish reason is tool_calls if any event mentioned a call, fragments included, else the mapped status |
| `ResponsesParity.TargetsDisagreeIff` | internal/adapter/responses/stream.go:459-464 | the two targets give different reasons for the end if and only if calls were mentioned by fragments alone |
| `ResponsesFrames.FeedIsConversion` | internal/adapter/responses/stream.go:243-266 | every split: what was handed out is the conversion of the frames of all bytes, past terminal events, up to a failure |
| `ResponsesFrames.SplitsAgree` | internal/adapter/responses/stream.go:243-266 | two splits of the same bytes have the same outcome |
| `ResponsesFrames.ClaudeFromBytes` | internal/adapter/responses/stream.go:271-360 | however split, a healthy byte stream gives the Messages client the run over its decoded events |
| `ResponsesFrames.ChatFromBytes` | internal/adapter/responses/stream.go:271-360 | the same for the Chat Completions client |
| `ResponsesFrames.OutcomeFromBytes` | internal/adapter/responses/stream.go:243-360 | both targets, every byte stream: the run over the events up to the first malformed payload or reported failure, which becomes the outcome; done exactly when a terminal event was seen and nothing failed, before it or after |
| `ResponsesFrames.UnknownTargetFails` | internal/adapter/responses/stream.go:271-360 | an unknown target passes informational events and fails with the first other one, or the malformed payload before it |
| `ResponsesFrames.PassthroughOutcome` | internal/adapter/responses/stream.go:367-378 | every byte stream: frames before the first failure frame are echoed verbatim, that frame becomes the failure, and without one the stream is done exactly when a frame said that the response is over |
| `ResponsesFrames.PassthroughIsVerbatim` | internal/adapter/responses/stream.go:367-378 | without a failure frame, the bytes handed out, the block being captured and the partial line are exactly the upstream bytes |
| `ResponsesConverter.StreamConverter.constructor` | internal/adapter/responses/stream.go:46-60 | a fresh converter with an empty tracker |
| `ResponsesConverter.StreamConverter.Feed` | internal/adapter/responses/stream.go:243-266 | handles every frame buffer and chunk complete, up to a failure; state, tracker and framer as specified |
| `ResponsesConverter.StreamConverter.ConvertEvent` | internal/adapter/responses/stream.go:271-360 | one decoded event, unknown targets and malformed payloads included |
| `ResponsesConverter.StreamConverter.ClaudeTextDelta` | internal/adapter/responses/stream.go:383-404 | opens a text block if none is open, then sends the delta |
| `ResponsesConverter.StreamConverter.ClaudeOutputItem` | internal/adapter/responses/stream.go:409-453 | announces a call at its first sighting and delivers complete arguments when due |
| `ResponsesConverter.StreamConverter.ClaudeArgsFragment` | internal/adapter/responses/stream.go:459-485 | streams a fragment to its call's block, announcing it if needed |
| `ResponsesConverter.StreamConverter.ClaudeTerminalEvents` | internal/adapter/responses/stream.go:492-520 | stops the open blocks, then message_delta and message_stop |
| `ResponsesConverter.StreamConverter.CloseOpenBlocks` | internal/adapter/responses/stream.go:542-554 | one stop per open block, in order, and none left open |
| `ResponsesConverter.StreamConverter.ChatOutputItem` | internal/adapter/responses/stream.go:409-453 | the Chat Completions form of an item event |
| `ResponsesConverter.StreamConverter.ChatArgsFragment` | internal/adapter/responses/stream.go:459-485 | the Chat Completions form of a fragment |
| `ResponsesConverter.StreamConverter.CaptureResponse` | internal/adapter/responses/stream.go:563-571 | takes identity from the response once known |
| `MessagesParity.AnnouncedPositionsAreTerminal` | internal/adapter/messages/stream.go:246-280 | for increasing block indices every announced output_index holds that item in the terminal output, dropped thinking blocks notwithstanding, and the lengths agree |
| `MessagesText.PayloadIsStreamedIff` | internal/adapter/messages/stream.go:378-396 | the terminal output is item for item what was streamed if and only if the text in order of arrival is the text gathered block by block from the upstream |
| `MessagesText.InOrderTextIsStreamed` | internal/adapter/messages/stream.go:284-296 | in particular when every non-empty text delta names a text block and none follows one for a later block |
| `MessagesOrder.PositionsKeptIff` | internal/adapter/messages/stream.go:246-280 | every stream: the announced positions, 0, 1, 2, ..., are those of the terminal output if and only if calls start by increasing index, no such index is started again, and the first text block that is left stands where the first text was started; then the output holds nothing else |
| `MessagesParity.ClientKeepsUpIff` | internal/adapter/messages/stream.go:284-296 | every delta names an announced item if and only if no text came before a text block started |
| `MessagesParity.TerminalOnce` | internal/adapter/messages/stream.go:353-369 | at most one response.completed, exactly when message_stop arrived; Flush eligibility is whether anything was emitted |
| `MessagesParity.TerminalSentAtTheEnd` | internal/adapter/messages/stream.go:353-369 | message_stop, or Flush once anything was emitted, sends the terminal event; a second Flush nothing |
| `MessagesParity.OutOfOrderMovesItems` | internal/adapter/messages/stream.go:378-396 | a concrete stream whose items end up elsewhere than announced |
| `MessagesParity.ModeParity` | internal/adapter/messages/convert.go:161-201 | every stream, its terminal event against the non-streaming converter on the gathered message: same identity and status; the same tokens if and only if a message_delta came after the last message_start or that start reported the output count already held; for increasing block indices, up to the re-encoding of tool arguments, the same output |
| `MessagesParity.StartCountIsDropped` | internal/adapter/messages/stream.go:248-252 | a concrete stream whose message_start reports an output count that the terminal event does not |
| `MessagesChat.ChatClientHolds` | internal/adapter/messages/stream.go:181-243 | Chat Completions target, every stream: a client keying calls by index holds the text and exactly the calls for which a fragment arrived, with identity and all fragments |
| `MessagesChat.NoCallLostIff` | internal/adapter/messages/stream.go:203-218 | no started call is lost if and only if each had at least one fragment |
| `MessagesChat.SilentCallIsLost` | internal/adapter/messages/stream.go:203-218 | a concrete stream whose only call has no fragment: the finish reason says tool_calls, the client holds none |
| `MessagesChat.ArgumentsNeedACall` | internal/adapter/messages/stream.go:200-202 | arguments fail the stream if and only if the newest block at their index is not a tool call |
| `MessagesChat.FinishTellsOfCalls` | internal/adapter/messages/stream.go:225-235 | the finish reason is tool_calls if any call was started, else the mapped stop reason |
| `MessagesTold.ChatTells` | internal/adapter/messages/stream.go:181-243 | every stream that has not ended: the role chunk exactly once if anything opened or spoke; one finish chunk for each message_delta, with the reason and, read off the upstream, the input counts added up, that delta's output count and the last cache read; the identity of the last message_start |
| `MessagesTold.ResponseOpens` | internal/adapter/messages/stream.go:246-256 | exactly one response.created for each message_start, with its id |
| `MessagesTold.EndsAsTold` | internal/adapter/messages/stream.go:181-324 | both targets: the stream ends with the first message_stop, the first error event and its failure, or the first fragment whose newest block is not a call; later events change nothing, and failures emit nothing |
| `MessagesChat.RoleLeads` | internal/adapter/messages/stream.go:406-412 | the role chunk is sent at most once and before any content or call |
| `MessagesChat.EndIsQuiet` | internal/adapter/messages/stream.go:236-239 | the event that ends a Chat Completions stream emits nothing |
| `MessagesFrames.FeedIsConversion` | internal/adapter/messages/stream.go:68-86 | every split: events, state and status up to the end of the stream are those of the frames of all bytes |
| `MessagesFrames.SplitsAgree` | internal/adapter/messages/stream.go:68-86 | two splits of the same bytes have the same outcome |
| `MessagesFrames.ConvertedFromBytes` | internal/adapter/messages/stream.go:93-114 | however split, the outcome of both conversion targets is the run over the decoded events, or the failure of the first malformed payload if the run had not ended before it |
| `MessagesFrames.UnknownTargetFails` | internal/adapter/messages/stream.go:93-114 | a target that is none of the three fails with the first frame and delivers nothing |
| `MessagesFrames.PassthroughOutcome` | internal/adapter/messages/stream.go:162-178 | passthrough, every byte stream: frames are echoed verbatim up to the first message_stop, itself included, or up to the first error, which becomes the failure |
| `MessagesConverter.StreamConverter.constructor` | internal/adapter/messages/stream.go:55-63 | a fresh converter |
| `MessagesConverter.StreamConverter.Feed` | internal/adapter/messages/stream.go:68-86 | handles the frames until message_stop or a failure; state and framer as specified |
| `MessagesConverter.StreamConverter.DispatchFrame` | internal/adapter/messages/stream.go:93-114 | routes a frame to its target; malformed payloads before unknown targets |
| `MessagesConverter.StreamConverter.DispatchResponses` | internal/adapter/messages/stream.go:246-324 | one decoded event for the Responses target, in place |
| `MessagesConverter.StreamConverter.DispatchOpenAI` | internal/adapter/messages/stream.go:181-243 | one decoded event for the Chat Completions target, in place |
| `MessagesConverter.StreamConverter.DispatchClaude` | internal/adapter/messages/stream.go:162-178 | the verbatim block, or the classified error |
| `MessagesConverter.StreamConverter.ResponsesCompleted` | internal/adapter/messages/stream.go:333-338 | the terminal event of the current state |
| `MessagesConverter.StreamConverter.CollectOutput` | internal/adapter/messages/stream.go:378-396 | sorts the block indices and runs the assembler over them: equals the specified aggregate |
| `MessagesConverter.StreamConverter.FlushStream` | internal/adapter/messages/stream.go:353-369 | one-shot; the terminal event only for the Responses target and only if anything was emitted |
| `MessagesConverter.StreamConverter.CaptureUsage` | internal/adapter/messages/stream.go:431-440 | cache counts are kept from whichever event reported them last |
| `MessagesConvert.ClaudeToResponses` | internal/adapter/messages/convert.go:161-201 | succeeds exactly for a content array of known kinds; text aggregates at its first place, calls in order, reasoning omitted |
| `Pieces.AssemblyAggregates` | internal/adapter/shared/shared.go:1405-1461 | running the assembler over text and call pieces renders the aggregate: all text at the first text piece's place among the calls |
| `ResponsesConvert.ResponsesToClaude` | internal/adapter/responses/convert.go:188-235 | succeeds exactly when an output array is present and each item is representable; non-empty text parts and decoded calls in order |
| `ResponsesConvert.AcceptedIff` | internal/adapter/responses/convert.go:188-235 | accepted exactly: messages, reasoning, calls that decode, and other items that say nothing |
| `ResponsesConvert.RoundTripKeeps` | internal/adapter/responses/convert.go:188-235 | Messages to Responses to Messages keeps id, model, tool calls in order, the concatenated text, output and cache tokens, and a non-negative input count exactly |
| `ResponsesConvert.RoundTripIdempotent` | internal/adapter/responses/convert.go:188-235 | converting there and back a second time changes nothing |
| `ResponsesConvert.BackContent` | internal/adapter/responses/convert.go:188-235 | where the text of the round trip stands: at the first text block's place among the calls |
| `ResponsesConvert.InputSurvives` | internal/adapter/shared/shared.go:736-767 | the input count that comes back is the original, or zero when that was negative, for all 64-bit counts |
| `ResponsesConvert.AddThenSubtract` | internal/adapter/shared/shared.go:736-746 | taking away what was added is exact on 64-bit counters, even when the sum wrapped |
| `RequestParts.DecodeContent` | internal/adapter/shared/shared.go:1034-1071 | succeeds exactly on well-formed content; empty text decodes to nothing; a failure is of an unknown kind exactly when the first part that cannot be decoded is |
| `RequestParts.DecodeEncoded` | internal/adapter/shared/shared.go:1034-1071 | decoding is the inverse of encoding on decoded parts |
| `RequestParts.PartsTell` | internal/adapter/shared/shared.go:1034-1071 | what content says: a string itself, typed parts one after the other, nothing for empty text |
| `RequestParts.JoinTextsTell` | internal/adapter/shared/shared.go:1007-1027 | joining keeps all text in order and nothing of the images |
| `RequestParts.ReadableIff` | internal/adapter/shared/shared.go:1034-1071 | content is accepted exactly when it is absent, a string, or text and image parts with URLs; and as text only exactly when no part is an image |
| `RequestRoundTrip.FromChatCompletions` | internal/adapter/responses/request.go:179-245 | fails exactly when some message has an unknown role, unreadable content or a misplaced image; instructions and input items as specified; the failure is that of the first such message, unknown role or part kind against anything else |
| `RequestRoundTrip.ResponsesToChat` | internal/adapter/chatcompletions/request.go:334-406 | fails exactly on an item that cannot be represented; merges consecutive calls into one assistant message, in place; the failure is that of the first such item |
| `RequestRoundTrip.MessagesKeepAtoms` | internal/adapter/chatcompletions/request.go:334-406 | Responses to Chat Completions, every item list it accepts: the instructions, then the ordered atoms of the items, system and developer texts among them, whatever calls were merged |
| `RequestRoundTrip.AcceptedIff` | internal/adapter/responses/request.go:179-245 | accepted exactly: user and assistant messages that can be read, system and tool messages that are all text |
| `RequestRoundTrip.ItemAcceptedIff` | internal/adapter/chatcompletions/request.go:334-406 | accepted exactly: user and assistant items that can be read, system items that are all text, and every other kind but unknown ones |
| `RequestRoundTrip.MessagesTidy` | internal/adapter/chatcompletions/request.go:334-406 | every message built says something, and only what its role can: calls are the assistant's, a call id a result's, and a lone text a string |
| `RequestRoundTrip.InputKeepsAtoms` | internal/adapter/responses/request.go:179-245 | Chat Completions to Responses keeps the ordered atoms of all non-system messages |
| `RequestRoundTrip.RoundTripKeepsConversation` | internal/adapter/responses/request.go:179-245 | there and back: the backward leg succeeds; one leading system message holds the non-empty system texts joined by blank lines, and the ordered role-tagged text, image, call and result atoms after it are the original ones |
| `MsgBuilder.Builder.constructor` | internal/adapter/messages/request.go:124-128 | an empty builder |
| `MsgBuilder.Builder.Add` | internal/adapter/messages/request.go:130-137 | adds a block to the open group or closes it and opens another; messages are the rendered groups |
| `MsgBuilder.Builder.Flush` | internal/adapter/messages/request.go:139-150 | the last group becomes a message; a lone text block becomes a string |
| `MsgBuilder.AlternatesIff` | internal/adapter/messages/request.go:124-150 | for arbitrary additions, adjacent messages have different roles if and only if no addition comes under another key with the role, other than the user's, of the addition that opened the last message |
| `MsgBuilder.CoherentBuild` | internal/adapter/messages/request.go:124-150 | when keys go with roles, messages alternate and their blocks, flattened, are exactly the added blocks in order |
| `MsgBuilder.LoneTextIsPlain` | internal/adapter/messages/request.go:139-150 | every message built holds something, and is a plain string exactly when that is one text block |
| `MessagesRequest.FromChatCompletions` | internal/adapter/messages/request.go:228-287 | fails exactly when a message cannot be translated; system texts and alternating messages as specified; the failure is that of the first such message |
| `MessagesRequest.FromResponses` | internal/adapter/messages/request.go:330-405 | the same for Responses input items, reasoning summaries kept as thinking blocks; the failure is that of the first such item |
| `MessagesRequest.ConversationsAlternate` | internal/adapter/messages/request.go:228-287 | every Chat Completions conversation: no two adjacent messages of one role, and exactly the added blocks in order |
| `MessagesRequest.AcceptedIff` | internal/adapter/messages/request.go:228-287 | accepted exactly: user and tool messages that can be read and whose images have sources, system and assistant messages that are all text, the latter with calls that decode |
| `MessagesKeep.ConversationKept` | internal/adapter/messages/request.go:228-287 | every Chat Completions conversation that is accepted: the built messages say, under the same roles and in order, exactly the text, images, calls and results that its messages said, and the system field its system texts |
| `MessagesRequest.ItemConversationsAlternate` | internal/adapter/messages/request.go:345-405 | the same for every list of Responses input items |
| `MessagesRequest.ItemAcceptedIff` | internal/adapter/messages/request.go:345-405 | the same for Responses input items |
| `MessagesKeep.ItemsKept` | internal/adapter/messages/request.go:345-405 | every list of Responses input items: the built messages say exactly what the items said, reasoning summaries included, and the system field the instructions and system texts |
| `MessagesKeep.SummaryKept` | internal/adapter/messages/request.go:330-405 | a reasoning summary is its texts on lines of their own |
| `RouteParity.RoutesAgree` | internal/adapter/messages/request.go:201-405 | every conversation, Chat Completions to Messages directly or through a Responses request: the longer route succeeds if and only if the direct one does and no tool message carries an image; then both give the same messages, and the system fields agree up to joining the non-empty texts |
| `ClaudeRequest.FromClaudeMessages` | internal/adapter/responses/request.go:327-380 | succeeds exactly for user and assistant messages whose blocks the target can carry; calls and results flush the parts before them |
| `ClaudeRequest.ResponsesKeepsOrder` | internal/adapter/responses/request.go:327-380 | the input items say exactly what the messages said, in the same order |
| `ClaudeRequest.ItemsFull` | internal/adapter/responses/request.go:327-380 | no message item is empty: what stands between two calls or results becomes one only if there is something |
| `ClaudeRequest.AcceptedIff` | internal/adapter/responses/request.go:327-380 | accepted exactly: messages of users and assistants that say nothing unreadable |
| `ClaudeChatRequest.ClaudeUserMessages` | internal/adapter/chatcompletions/request.go:215-259 | text and image parts accumulate and are flushed before each tool result; fails exactly on other kinds |
| `ClaudeChatRequest.ClaudeAssistantMessage` | internal/adapter/chatcompletions/request.go:267-294 | text joined, calls in order, thinking omitted, nothing for an empty turn; fails exactly on other kinds |
| `ClaudeChatRequest.ClaudeToChat` | internal/adapter/chatcompletions/request.go:168-190 | system first, then the messages of each turn |
| `ClaudeChatRequest.ChatKeepsTurns` | internal/adapter/chatcompletions/request.go:168-190 | the whole request: the system text, then user turns in their order, assistant turns grouped as text then calls, nothing lost |
| `ClaudeChatRequest.AcceptedIff` | internal/adapter/chatcompletions/request.go:215-294 | accepted exactly: turns of users and assistants without a block that is unreadable or not theirs |
| `ClaudeChatRequest.ChatTidy` | internal/adapter/chatcompletions/request.go:168-294 | every message built says something and only what its role can; an empty turn makes none |
| `ClaudeChatRequest.UserTurnKept` | internal/adapter/chatcompletions/request.go:215-259 | a user turn keeps its text, images and results in order |
| `ClaudeChatRequest.AssistantOrderKeptIff` | internal/adapter/chatcompletions/request.go:267-294 | an assistant turn keeps its order, adjacent text joined, if and only if no text follows a call in it |
| `HostBridge.ReleasedOnceAndOnlyThen` | internal/plugin/hostbridge.go:183-252 | every interleaving: an invocation is released at most once, exactly when its callback goroutine has exited and its result was observed or its clean-up finished; the count is the number unreleased, positive if and only if there is one |
| `HostBridge.ZeroMeansSettled` | internal/plugin/hostbridge.go:260-272 | a count of zero means no callback runs and no clean-up of an abandoned call is unfinished |
| `HostBridge.PositiveWhileCleanupOwes` | internal/plugin/hostbridge.go:233-245 | while an abandoned call's clean-up still waits, owes a close or is inside one, the count is positive |
| `HostBridge.QuiescentIsReleased` | internal/plugin/hostbridge.go:183-252 | no reachable quiescent state leaves an invocation on the count |
| `HostBridge.EveryStreamHasOneOwner` | internal/plugin/hostbridge.go:327-375 | every registered stream id is with exactly one of the caller, a close, a pending result, or a refused result; in a quiet state none is pending |
| `HostBridge.DroppedIffRefused` | internal/plugin/hostbridge.go:327-375 | every run: an id is dropped as often as results naming it were refused: in time, because the call failed or its envelope is not OK; late, only because its envelope is not OK |
| `HostBridge.OwedCloseCountedIff` | internal/plugin/hostbridge.go:221-245 | every run: an invocation that owes the close of a late stream is on the count if and only if the close is its clean-up's or its callback goroutine has not exited |
| `HostBridge.GraceCloseOwedAtZero` | internal/plugin/hostbridge.go:221-232 | a concrete interleaving: a result within the grace window settles its invocation, so its close is owed at count zero |
| `Pump.SentIsPrefixOfOutput` | internal/plugin/executor.go:445-542 | every script of reads and refusals: what was emitted is an in-order prefix of the converter's output for the chunks it was fed, and all of it, with what Flush held back, on a clean end |
| `Pump.FedWithinCap` | internal/plugin/executor.go:489-493 | the converter never receives more than the cap in total |
| `Pump.RunFeeds` | internal/plugin/executor.go:474-515 | the chunks fed are the payloads read, in order |
| `Pump.FlushOnlyWithoutTerminal` | internal/plugin/executor.go:515-523 | Flush runs only after the upstream closed without a converter terminal |
| `Pump.CleanEndIsFlushed` | internal/plugin/executor.go:515-523 | a clean end has sent the converter's whole output and, if there was no converter terminal and the converter has a Flush, all that it held back |
| `Pump.EndIsTold` | internal/plugin/executor.go:466-528 | every script: the pump goes on exactly while every read is converted within the cap, every event is accepted, the upstream is open and there is no terminal; the first read after which that fails decides, in the order of the checks, what the reason is and how much was sent |
| `Pump.StreamPump.EmitEvents` | internal/plugin/executor.go:535-542 | emits in order and stops at the first refusal |
| `Pump.StreamPump.Watchdog` | internal/plugin/executor.go:456-464 | the watchdog logs its own close of the upstream once, whenever it is due, outside the closer that runs once |
| `Pump.StreamPump.CloseStreams` | internal/plugin/executor.go:446-453 | closes both streams, the first time only; the downstream close follows every emit |
| `Pump.StreamPump.PumpStream` | internal/plugin/executor.go:445-528 | the run of the specification, whenever the watchdog fires; on every exit the downstream is closed exactly once, after the last emit and with the reason of the end, and the upstream at least once, exactly once if and only if the watchdog did not fire |
| `Pump.ExecuteStream` | internal/plugin/executor.go:392-443 | a started upstream stream is closed: once, at once, for a status of 400 or more; else by the pump, exactly once if and only if its watchdog did not fire |
| `Catalog.Manager.constructor` | internal/catalog/catalog.go:157-159 | an empty catalog |
| `Catalog.Manager.Swap` | internal/catalog/catalog.go:249-345 | rebuilds the snapshot from the entries and installs it whole |
| `Catalog.Manager.Fail` | internal/catalog/catalog.go:233-243 | keeps everything under the stale policy, clears it otherwise |
| `Catalog.Manager.SeedFrom` | internal/catalog/catalog.go:175-180 | rebuilds the other manager's entries under this configuration |
| `Catalog.Manager.Lookup` | internal/catalog/catalog.go:446-451 | the index decides |
| `Catalog.LookupIffListed` | internal/catalog/catalog.go:249-345 | after a rebuild a key resolves if and only if a listed model has it as public or upstream id, then to that model, and no two listed models share a key |
| `Catalog.FirstClaimantKeeps` | internal/catalog/catalog.go:285-325 | the first accepted claimant keeps a key whatever follows |
| `Catalog.ClashesAreCrossRole` | internal/catalog/catalog.go:285-325 | same-role clashes are impossible: the holder of a contested key holds it in the other role only |
| `Catalog.EachEntryIsDisposedOf` | internal/catalog/catalog.go:249-345 | every entry is exactly one of routed, excluded with its reason and the holder of the key it clashes with, or a duplicate, as the entries before it dictate; no route exactly when it has neither an override nor a family; the lists are those in order |
| `Catalog.ListedAreDescribed` | internal/catalog/catalog.go:249-371 | every listed record describes the first entry with its id, field by field: its route is the id's override, or else that of the first family whose prefix starts the id in either case, at the override's endpoint or the protocol's path |
| `Catalog.WarningsAreTold` | internal/catalog/catalog.go:249-345 | the warnings are the caller's, then in order each duplicate, each override that routes an entry and each clash |
| `Lifecycle.SnapshotsAreRebuilds` | internal/catalog/catalog.go:175-243 | every reachable state: each manager holds the rebuild of its retained entries under its own configuration |
| `Lifecycle.ServedLookupIffListed` | internal/catalog/catalog.go:446-451 | in every reachable state lookups agree with the served list |
| `Lifecycle.OneLoopServesTheServed` | internal/plugin/plugin.go:497-546 | at most one refresh loop is alive; between operations it refreshes the served manager and exists exactly when one is served; that loop is alive and not told to stop, and a loop exits only after it has been told to |
| `Lifecycle.NothingAfterShutdown` | internal/plugin/plugin.go:475-491 | after a shutdown nothing is served and no loop is alive |
| `Lifecycle.ReconfigurationServes` | internal/plugin/plugin.go:345-379 | a reconfiguration serves its own fetched catalog, or the old entries rebuilt under the new configuration if that keeps stale data, or nothing |
| `Lifecycle.TickRefreshesOnlyItsManager` | internal/plugin/plugin.go:497-531 | in every reachable state a tick changes no other manager; its own is rebuilt from a fetched catalog, left alone without a credential or on failure under the stale policy, and emptied on failure without it, also when part of the answer decodes |
| `Lifecycle.Create` | internal/catalog/catalog.go:157-159 | the catalog object shows the fresh value of the lifecycle model |
| `Lifecycle.RefreshOnce` | internal/plugin/plugin.go:557-596 | the catalog object follows the refresh step of the lifecycle model, for every outcome |
| `Lifecycle.SeedManager` | internal/catalog/catalog.go:175-180 | the catalog object follows the seeding step of the lifecycle model |

## Left out

- JSON: decoders are parameters (from payloads to decoded events, or to values with an encoding that
  decodes back); the syntax of string-or-parts content, tool arguments and image sources is decided by
  them. Client events are values, not rendered bytes, except in the passthrough and printer results.
- The host SDK, CGO glue, HTTP, YAML, URL parsing (`Config.escapes` is an arbitrary predicate), regular
  expressions, login and management pages, auth files and debug tracing.
- Clocks and timers: deadlines, grace windows and ticks are steps that may happen at any time; creation
  timestamps are not carried. The shutdown's own time limit on waiting is not modelled.
- Panics in callbacks, and error messages: failures are classes (translation, unsupported, upstream
  with a status).
- The remaining non-streaming legs: Messages to Chat Completions and Responses to Chat Completions.
  They repeat the loops of the legs that are here.
- Tools, tool choice, sampling, token limits, stop sequences and reasoning settings of requests, and
  the thinking clamp: pure case analysis beside the conversation.
- The usage tracker and its price table.
- Best-effort byte scanning on unframed chunks (`usageFromChunk`, model name alignment): what the pump
  emits here is the converter's output before model names are aligned.
- Chat Completions chunks carry the identity the converter holds at that moment; the events here leave it
  out, and the results say what the converter holds.
- Text is a sequence of characters; trimming knows the ASCII white space and route lookup the ASCII
  letters only.
- The Messages converter's float counters are integers, and its 64-bit sums wrap as the program's do.
- HostBridge and Lifecycle are state machines over interleaved steps rather than classes: goroutines,
  locks and channels have no imperative form in Dafny. The bookkeeping between two lock operations is
  one step.
- The tool-call tracker receives the next free index as an argument instead of an allocation callback;
  its caller advances the allocator exactly when the call was new.
- ResponsesOrder.ContentAgreesIff: is about final responses that say what the upstream's own events said,
  up to how text is cut; an upstream that contradicts itself is outside it.
- Pump.FedWithinCap: counts characters of the chunks as bytes.
- Catalog.Manager.Swap: display and thinking fields are carried but nothing is proved about their
  normalization.
