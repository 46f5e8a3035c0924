# Verification of the agent harness

A Dafny model of the harness' stateful core with machine-checked proofs:

- **the turn engine** (`TurnModel`, `TurnEngine`, `TurnPairing`, `TurnEvents`, `Hooks`, `Retry`): the bounded
  loop that grows a message history, streams events and shares one versioned record with the tools it runs;
- **the bridge** (`BridgeModel`, `BridgeSystem`, `BridgeReplies`, `BridgeStreams`, `BridgePermissions`,
  `BridgeObjects`, `BridgeRunner`, `BridgedTurns`): client, server tasks and two FIFO channels as one transition
  system, the objects that go through its runs, and the turns whose permissions it decides;
- **framing** (`Framing`, `FramingReaders`, `LineFraming`): both wire framings, in both languages;
- **providers** (`ProviderEvents`, `OpenAIStream`, `OpenAIConverter`, `AnthropicStream`): stream demultiplexers
  and the history converter;
- **state** (`Messages`, `SessionStores`, `StoreRaces`, `Compaction`, `ChildAgents`).

`dafny verify dfyconfig.toml` checks everything.

## How the model is built

Code that changes things step by step is a class or a method with loops, proved against a specification
function; the main results are lemmas about those functions. Where proofs only pass a fact along, a `hide`
statement keeps the solver from unfolding it.

- The provider, tools, hooks, permission resolver and compactor of a turn are oracles: functions from the round
  (and the call) to everything they answer. Since the statements hold for all oracles, answers may depend on the
  history in any way. A `Write` is one load-edit-save of the session by a running tool. The decision of the
  pre_tool hooks is an oracle too; `Hooks.Dispatch` is what produces such decisions.
- `Outside.fuse` counts down over the awaits and yields of a turn and breaks it off when it reaches zero. Hook
  halts, provider errors, cancellation and an early close of the generator are all such interruptions; `None`
  means that nothing ever interrupts.
- A turn shares its store. At every await and yield, inside a running tool included, `TurnEngine.Meanwhile` lets
  others create, save and delete any sessions but the turn's own, as spawned agents and concurrent turns do.
- Sessions are heap objects with their own message list and attribute maps, changed in place; what a store keeps
  apart from its callers is a matter of which objects they share.
- In the bridge every `await` is a step boundary. A dispatch task is spawned, in its handler, writing an event,
  writing its reply, or done. The history variables in `BridgeSystem.History` are read by no step.
- In the stream reader the chunks, and how many of them arrive at each wait, are arbitrary.

## Where code and documentation differ

- `docs/architecture.md` lets pre_llm hooks transform and halt; the loop ignores the decision of every hook event but
  pre_tool, so only an explicit halt has an effect there. Accordingly hook events other than pre_tool are nothing
  but interruption points in the model.
- After a tool's save the engine takes over `attributes` and `version` only, so what a tool saves as metadata,
  tenant or messages is overwritten by the engine's next save (`TurnModel.SessionAt` keeps the loaded ones).
- `keep_recent` 1 makes every compaction inside a turn break a call/result pair
  (`TurnPairing.KeepingOneBreaksPairs`, with a concrete turn in `TurnPairing.KeepingOneHappens`), and `keep_recent` 0 lengthens the history (`Compaction.LengthensIff`).

## Model

| member | source | states |
|---|---|---|
| `TurnEngine.RunTurn` | src/meta_harney/engine/loop.py:134-506 | An undisturbed turn always completes and stores the loaded record with the history of exactly its rounds, the last attributes a tool saved, its own tenant and metadata, and a version that counts every save; the consumer saw the whole event list and the provider the successive histories. An interrupted turn stores the whole session as far as it got (`TurnModel.Unwound` says how far that can be), unless a tool has saved since the last resync, in which case that tool's save stands (`TurnModel.LeftRecord`). All this holds while others create, save and delete any other session of the same store; an unknown session changes nothing |
| `TurnEngine.Meanwhile` | src/meta_harney/builtin/multi_agent/in_process.py:75-106 | Whatever other tasks and spawned agents do to other sessions of the store, this session's record stays as it is |
| `TurnEngine.Turn.Point` | src/meta_harney/engine/loop.py:162-506 | At every await the turn may be broken off and other sessions may change; memory and store keep fitting together |
| `TurnEngine.Turn.Yield` | src/meta_harney/engine/loop.py:243-481 | A yielded event has been seen even if the turn is broken off there |
| `TurnEngine.Turn.Show` | src/meta_harney/engine/loop.py:243-481 | A shown event comes after all the earlier ones |
| `TurnEngine.Turn.Request` | src/meta_harney/engine/loop.py:221-240 | The provider is handed the history as it stands at that moment |
| `TurnEngine.Turn.Enter` | src/meta_harney/engine/tool_dispatch.py:131-134 | A tool is entered with the arguments the hooks left, and the entry stays on record |
| `TurnEngine.Turn.Adopt` | src/meta_harney/engine/loop.py:405-407 | The session continues as a fresh object with the data just saved |
| `TurnEngine.Turn.constructor` | src/meta_harney/engine/loop.py:153-162 | The turn starts with memory and store in agreement |
| `TurnEngine.Turn.Go` | src/meta_harney/engine/loop.py:162-506 | `try`/`finally`: a completed turn has saved; otherwise the final save stores the session in memory, or conflicts and leaves the tools' save; either way the stored record is `LeftRecord` of what there was to see |
| `TurnEngine.Turn.Body` | src/meta_harney/engine/loop.py:162-481 | Normal end: the save happened without conflict and the whole trace was produced; any other end leaves a part of one round |
| `TurnEngine.Turn.Rounds` | src/meta_harney/engine/loop.py:182-440 | The loop ends after exactly the rounds the model counts, with session, events, snapshots and executions as the model says and nothing left to resync |
| `TurnEngine.Turn.NextRound` | src/meta_harney/engine/loop.py:186-440 | Memory and stored version and attributes agree at the start of every iteration |
| `TurnEngine.Turn.Round` | src/meta_harney/engine/loop.py:186-440 | One iteration, against the model's record and trace; interrupted, it leaves a prefix of each |
| `TurnEngine.Turn.Speak` | src/meta_harney/engine/loop.py:221-283 | The request is the history before the round; exactly one assistant message made of the whole stream is appended, or none |
| `TurnEngine.Turn.Listen` | src/meta_harney/engine/loop.py:233-268 | Everything heard is text, thinking blocks and calls in order; the consumer gets the deltas, a prefix of them when interrupted |
| `TurnEngine.Turn.Hear` | src/meta_harney/engine/loop.py:241-256 | Text is kept and passed on, thinking only passed on, blocks and calls only kept |
| `TurnEngine.Turn.CallTools` | src/meta_harney/engine/loop.py:308-372 | One result block per call, in call order; events, entered tools and saves of all calls, a prefix when interrupted |
| `TurnEngine.Turn.CallTool` | src/meta_harney/engine/loop.py:309-372 | A call is completed exactly once, with the result its oracles determine |
| `TurnEngine.Turn.DecideAndRun` | src/meta_harney/engine/loop.py:317-358 | Unknown and refused calls fail unannounced; only cleared calls are announced and run |
| `TurnEngine.Turn.CheckPermission` | src/meta_harney/engine/tool_dispatch.py:28-77 | `deny` and `ask` both become a failed result, `allow` none |
| `TurnEngine.Turn.ExecuteTool` | src/meta_harney/engine/tool_dispatch.py:80-194 | A hook denial keeps the tool from running; a hook's `args` replace the call's; time-outs and exceptions become failed results |
| `TurnEngine.Turn.RunBody` | src/meta_harney/engine/tool_dispatch.py:131-150 | A tool's saves land in order; an interruption keeps those already made |
| `TurnEngine.Turn.ToolSaves` | src/meta_harney/builtin/session/memory_store.py:24-48 | A tool's load-edit-save never conflicts, runs one version ahead of the engine's copy and touches no other session |
| `TurnEngine.LoadEditSave` | src/meta_harney/builtin/session/memory_store.py:24-48 | Load, edit and save replace the record by the edited one at the next version and touch no other session |
| `TurnEngine.Turn.SaveSession` | src/meta_harney/engine/loop.py:465-506 | A save by the engine conflicts if and only if a tool has saved since the last resync, and touches no other session |
| `TurnEngine.Turn.Reload` | src/meta_harney/engine/loop.py:383-383 | The reloaded object is a fresh copy of the stored record, the tools' saves included |
| `TurnEngine.Turn.Resync` | src/meta_harney/engine/loop.py:376-386 | After the resync the version counts every tool save, the attributes are the last saved ones, the messages are the engine's own |
| `TurnEngine.Turn.Append` | src/meta_harney/engine/loop.py:157-157 | The message goes to the end, everything else stays |
| `TurnEngine.Turn.AnswerAndResync` | src/meta_harney/engine/loop.py:374-386 | The tool message is appended before the resync, so an interruption in between keeps it in memory only |
| `TurnEngine.Turn.UseTools` | src/meta_harney/engine/loop.py:301-386 | The tool part of a round, whole or interrupted |
| `TurnEngine.Turn.FinishTools` | src/meta_harney/engine/loop.py:388-440 | The iteration event, then the compaction check |
| `TurnEngine.Turn.SaveAndReload` | src/meta_harney/engine/loop.py:400-407 | The save before a compaction cannot conflict, and the session continues on a reloaded copy |
| `TurnEngine.Turn.ReplaceMessages` | src/meta_harney/engine/loop.py:408-424 | A failed compaction leaves the history as it was |
| `TurnEngine.Turn.CheckCompaction` | src/meta_harney/engine/loop.py:391-440 | The history after the check, and the one version the check adds when it saves |
| `TurnEngine.Turn.Finish` | src/meta_harney/engine/loop.py:442-481 | The normal-end save cannot conflict; `TurnCompleted` comes after it |
| `TurnModel.NextSession` | src/meta_harney/engine/loop.py:283-440 | The version after i rounds is the loaded one plus the tools' saves plus the compaction saves; the attributes are the last saved ones |
| `TurnModel.NextTrace` | src/meta_harney/engine/loop.py:186-440 | One round takes all there is to see before it, session, events, executions and requests, to all there is to see before the next |
| `TurnModel.WoundUp` | src/meta_harney/engine/loop.py:442-481 | With all rounds done, only the last event can be missing |
| `TurnModel.NextAfterTools` | src/meta_harney/engine/loop.py:374-440 | The same, for a round with tools |
| `TurnModel.NextAfterAnswer` | src/meta_harney/engine/loop.py:302-307 | The same, for the last round, which has none |
| `TurnModel.InterruptedSpeaking` | src/meta_harney/engine/loop.py:186-300 | Broken off before the tools: at most the assistant message was added |
| `TurnModel.InterruptedUsingTools` | src/meta_harney/engine/loop.py:301-386 | Broken off in the tool loop or just after it: an unanswered assistant message, or the whole round's messages |
| `TurnModel.InterruptedAfter` | src/meta_harney/engine/loop.py:388-440 | Broken off after the tools: the round's messages are there, compacted or not |
| `TurnModel.EventsInRound` | src/meta_harney/engine/loop.py:186-440 | Whatever breaks off round i leaves events between those before and after the round |
| `TurnModel.MessagesInRound` | src/meta_harney/engine/loop.py:186-440 | Without a compaction it leaves the messages before the round, with the assistant message, or with all the round's messages |
| `TurnModel.PrefixOfCalls` | src/meta_harney/engine/loop.py:309-372 | What the first k calls leave behind is a prefix of what all of them do |
| `TurnPairing.RequestsStayPaired` | src/meta_harney/engine/loop.py:221-374 | From a well-paired history, over any number of completed turns without compaction, every request of the next turn is well paired and its OpenAI form puts one tool entry per call right after the assistant entry |
| `TurnPairing.ConversationPaired` | src/meta_harney/engine/loop.py:157-465 | Any number of completed turns keep the stored history well paired |
| `TurnPairing.EveryRequestPaired` | src/meta_harney/engine/loop.py:221-240 | The same within one turn, compactions allowed as long as they return well-paired histories |
| `TurnPairing.HistoryPaired` | src/meta_harney/engine/loop.py:186-440 | The history is well paired at the start of every round |
| `TurnPairing.RoundKeepsPaired` | src/meta_harney/engine/loop.py:283-374 | A whole round keeps pairing; its assistant message alone leaves exactly the last message waiting |
| `TurnPairing.ToolMessageAnswers` | src/meta_harney/engine/loop.py:308-374 | The tool message answers the assistant message: same ids, same order |
| `TurnPairing.AssistantCallIds` | src/meta_harney/engine/loop.py:270-283 | The assistant message's call ids are the provider's, in stream order |
| `TurnPairing.ResultBlockIds` | src/meta_harney/engine/loop.py:309-366 | One result per call, carrying the call's id, whatever became of the call |
| `TurnPairing.SnapshotIs` | src/meta_harney/engine/loop.py:221-221 | The k-th request is the history before round k |
| `TurnPairing.SummarizedRound` | src/meta_harney/builtin/compaction/summarization.py:50-75 | With the summarization compactor the next request stays well paired if and only if the first kept message is no tool message |
| `TurnPairing.KeepingOneBreaksPairs` | src/meta_harney/builtin/compaction/summarization.py:60-75 | With `keep_recent` 1 a compaction inside a turn always keeps a tool message without its call |
| `TurnPairing.KeepingOneHappens` | src/meta_harney/builtin/compaction/summarization.py:60-75 | And this happens: a concrete turn with one call that the model compacts so |
| `TurnPairing.HistoryLost` | src/meta_harney/engine/loop.py:483-506 | A concrete turn broken off after a tool's save and before the resync: the record left in the store lacks the user's message |
| `TurnPairing.InterruptedHistory` | src/meta_harney/engine/loop.py:157-506 | However a turn is broken off, without compaction its history is a prefix of the undisturbed turn's and only its last message can lack its answer |
| `TurnPairing.InterruptedRound` | src/meta_harney/engine/loop.py:283-374 | The same for the interrupted round |
| `TurnPairing.HistoryGrows` | src/meta_harney/engine/loop.py:283-374 | Without compaction the history only grows |
| `TurnPairing.RoundsUnique` | src/meta_harney/engine/loop.py:186-186 | No round is entered after the last one |
| `TurnEvents.CompletedTurnIsSentence` | src/meta_harney/engine/loop.py:186-481 | The events of a completed turn are deltas, then per call an optional ToolCallStarted and its ToolCallCompleted, then IterationCompleted, iterations numbered from 0, then TurnCompleted, with every iteration but the last calling a tool and at most `max_iterations` iterations |
| `TurnEvents.InterruptedTurnIsPrefix` | src/meta_harney/engine/loop.py:186-506 | An interrupted turn has streamed the beginning of such a sequence |
| `TurnEvents.EventsRun` | src/meta_harney/engine/loop.py:186-389 | Where the automaton stands after i rounds |
| `TurnEvents.RoundRuns` | src/meta_harney/engine/loop.py:233-389 | A round's events lead from one iteration to the next, or to the end when it has no call |
| `TurnEvents.CallsRun` | src/meta_harney/engine/loop.py:309-372 | Each call's optional announcement is followed at once by its own completion |
| `TurnEvents.RoundReads` | src/meta_harney/engine/loop.py:241-374 | A round's messages can be read back from its events: deltas join to the text block, completions list the tool message |
| `TurnEvents.HistoryFromStream` | src/meta_harney/engine/loop.py:186-481 | From the flat event stream of a completed turn alone, cut at its IterationCompleted events, a consumer gets one reading per round, and with the thinking and call blocks these are exactly the messages every round appended |
| `TurnEvents.EventsCut` | src/meta_harney/engine/loop.py:186-440 | The cut of the first n rounds' events gives the readings of these rounds and leaves nothing over |
| `TurnEvents.CallsRead` | src/meta_harney/engine/loop.py:359-372 | The completions list the result blocks in order |
| `TurnEvents.ChildResult` | src/meta_harney/builtin/multi_agent/in_process.py:119-158 | A child's result, its text deltas joined, is the text of all assistant messages its turn appended, with or without compactions |
| `TurnEvents.OnlyAllowedCallsRun` | src/meta_harney/engine/tool_dispatch.py:28-150 | A tool is entered if and only if its call is to a registered tool, allowed by the resolver and not refused by a hook, with the arguments the hooks left |
| `Hooks.Dispatch` | src/meta_harney/engine/hook_dispatch.py:20-104 | The first hook that denies or halts decides, whatever follows it; failing and unsubscribed hooks are passed over; otherwise the event is allowed with the merged transforms, on pre_* events only |
| `Hooks.Keep` | src/meta_harney/engine/hook_dispatch.py:84-88 | Transforms merge in order on pre_* events and are ignored on others |
| `Hooks.LastTransformWins` | src/meta_harney/engine/hook_dispatch.py:84-88 | A key of the merged transform comes from the last hook that set it |
| `Retry.OpenStream` | src/meta_harney/engine/loop.py:72-131 | The output is a prefix of one attempt's events; every earlier attempt yielded nothing and failed retryably; it stops at the first attempt that did not, never opens more than `max_attempts`, and opens as many as `StreamsOpened` says |
| `Retry.RetryWithBackoff` | src/meta_harney/engine/retry.py:36-57 | The answer is the first that is not a retryable failure, or the last allowed one |
| `Retry.TotalSleep` | src/meta_harney/engine/retry.py:30-33 | Total waiting is at most (max_attempts - 1) * max_delay_s, negative delays taking no time |
| `Retry.SleepBound` | src/meta_harney/engine/retry.py:30-33 | Any number of waits take at most that many times the cap |
| `Retry.DelaysGrowIff` | src/meta_harney/engine/retry.py:30-33 | With a multiplier of at least 1 the delays never fall if and only if the first delay is not negative or the multiplier is 1 |
| `Retry.GrowingDelays` | src/meta_harney/engine/retry.py:30-33 | One direction: the next delay is no shorter |
| `Retry.ShrinkingDelay` | src/meta_harney/engine/retry.py:30-33 | The other: a negative first delay gives a falling step, found by Bernoulli's inequality |
| `Retry.StreamsPerTurn` | src/meta_harney/engine/loop.py:103-186 | A turn, completed or broken off anywhere, an exhausted opener included, opens at most max_iterations * max_attempts provider streams |
| `Retry.RequestsPerTurn` | src/meta_harney/engine/loop.py:186-240 | A turn, completed or broken off anywhere, makes at most max_iterations requests |
| `Retry.OpenAll` | src/meta_harney/engine/loop.py:103-240 | The openers of successive requests open as many streams as counted for each, and yield a prefix of the attempt they end with |
| `SessionStores.MemorySessionStore.constructor` | src/meta_harney/builtin/session/memory_store.py:20-22 | A new store is empty |
| `SessionStores.Session.DeepCopy` | src/meta_harney/builtin/session/memory_store.py:36-48 | The copy has the same data and shares no object with the original |
| `SessionStores.MemorySessionStore.Load` | src/meta_harney/builtin/session/memory_store.py:24-36 | The caller gets a deep copy that shares no object with the store, or null for an unknown id or another tenant's session; the store does not change |
| `SessionStores.MemorySessionStore.Save` | src/meta_harney/builtin/session/memory_store.py:38-48 | A matching or new version is stored as a deep copy one version up, also on the caller's object; a stale one conflicts and changes nothing; the store shares no object with the caller |
| `SessionStores.MemorySessionStore.Delete` | src/meta_harney/builtin/session/memory_store.py:65-67 | Only that id is removed |
| `SessionStores.MemorySessionStore.List` | src/meta_harney/builtin/session/memory_store.py:50-63 | Exactly the records that match tenant and every attribute, a missing attribute reading as None |
| `SessionStores.FileSessionStore.constructor` | src/meta_harney/builtin/session/file_store.py:22-25 | A new store is empty |
| `SessionStores.FileSessionStore.Load` | src/meta_harney/builtin/session/file_store.py:33-49 | Refused ids raise, others load like the memory store |
| `SessionStores.FileSessionStore.Save` | src/meta_harney/builtin/session/file_store.py:51-65 | Refused ids raise, others save like the memory store |
| `SessionStores.FileSessionStore.Delete` | src/meta_harney/builtin/session/file_store.py:87-90 | Refused ids raise and change nothing |
| `SessionStores.FileSessionStore.List` | src/meta_harney/builtin/session/file_store.py:67-85 | Exactly the matching records |
| `SessionStores.RunMemory` | src/meta_harney/builtin/session/memory_store.py:24-67 | Any sequence of operations on the memory store gives the model's observations and contents |
| `SessionStores.PerformOnMemory` | src/meta_harney/builtin/session/memory_store.py:24-67 | One operation, seen by its caller |
| `SessionStores.RunFiles` | src/meta_harney/builtin/session/file_store.py:33-90 | The same for the file store |
| `SessionStores.PerformOnFiles` | src/meta_harney/builtin/session/file_store.py:33-90 | One operation, seen by its caller, refused ids included |
| `SessionStores.StoresAgree` | src/meta_harney/builtin/session/file_store.py:27-90 | The two stores give the same results on a sequence of operations if and only if it uses permitted ids only, and then end with the same contents |
| `SessionStores.ChangesStayOutside` | src/meta_harney/builtin/session/memory_store.py:36-48 | After any sequence of in-place changes to the saved and to a loaded object, message lists and attribute maps included, the store holds what was saved |
| `SessionStores.ChangesStayOutsideFiles` | src/meta_harney/builtin/session/file_store.py:33-65 | The same for the file store |
| `SessionStores.OnlyOwnObjectsMatter` | src/meta_harney/builtin/session/memory_store.py:20-48 | No change to any object outside the store can change what it holds |
| `StoreRaces.CommitsAreConsecutive` | src/meta_harney/builtin/session/memory_store.py:38-48 | Under any interleaving of loads, arbitrary edits, saves and creates the committed versions of an id are 1, 2, 3, ..., each derived from the very record the commit before it left |
| `StoreRaces.NoLostUpdate` | src/meta_harney/builtin/session/memory_store.py:38-48 | When edits only append messages, the stored history is the concatenation of what every successful save added |
| `StoreRaces.GrowingHolds` | src/meta_harney/builtin/session/memory_store.py:24-48 | In such histories every commit and every held copy extends the messages it was derived from |
| `StoreRaces.OneCreatorWins` | src/meta_harney/runtime.py:69-98 | Of any number of concurrent create_session calls for one id exactly one succeeds |
| `StoreRaces.OrderlyHolds` | src/meta_harney/builtin/session/memory_store.py:24-48 | The invariant behind the three, kept by every step |
| `Compaction.Compact` | src/meta_harney/builtin/compaction/summarization.py:50-75 | The loop computes the compaction of the stored messages, or nothing for a missing session |
| `Compaction.SystemRun` | src/meta_harney/builtin/compaction/summarization.py:55-60 | The longest leading run of system messages |
| `Compaction.LengthensIff` | src/meta_harney/builtin/compaction/summarization.py:62-75 | Exactly when compaction lengthens the history: `keep_recent` 0, or a negative one on system messages alone |
| `Compaction.CompactedShape` | src/meta_harney/builtin/compaction/summarization.py:55-75 | When it fires with `keep_recent` at least 1: the system run unchanged, one system summary, the last messages unchanged |
| `Compaction.CompactedTwice` | src/meta_harney/builtin/compaction/summarization.py:50-75 | Compacting a compacted history changes nothing more |
| `Compaction.CompactionKeepsPairsIff` | src/meta_harney/builtin/compaction/summarization.py:66-75 | A well-paired history stays so if and only if the first kept message is no tool message |
| `OpenAIStream.Stream` | src/meta_harney/providers/openai.py:263-389 | The output is the deltas in order, then the one thinking block, one call per index in ascending order assembled from that index's deltas alone, then Done |
| `OpenAIStream.TakeText` | src/meta_harney/providers/openai.py:303-310 | Non-empty reasoning and content are yielded at once, in this order |
| `OpenAIStream.Absorb` | src/meta_harney/providers/openai.py:312-329 | After any deltas the buffer of each index is what its own deltas determine |
| `OpenAIStream.AbsorbOne` | src/meta_harney/providers/openai.py:313-329 | One delta changes its own index's buffer only |
| `OpenAIStream.EmitCalls` | src/meta_harney/providers/openai.py:361-373 | The buffered calls come out one per index, ascending |
| `OpenAIStream.CallFrom` | src/meta_harney/providers/openai.py:363-373 | Missing ids and names get their defaults, bad argument text the empty object |
| `OpenAIStream.Least` | src/meta_harney/providers/openai.py:362-362 | The smallest index left |
| `OpenAIStream.SwapNeighbours` | src/meta_harney/providers/openai.py:312-373 | Swapping neighbouring deltas of different indexes changes no emitted call |
| `OpenAIStream.ThinkingDeltasJoin` | src/meta_harney/providers/openai.py:303-306 | The thinking deltas the consumer saw are exactly the chunks of the thinking block |
| `OpenAIStream.StreamShape` | src/meta_harney/providers/openai.py:355-389 | No Done but the last event; exactly one call per index that occurred, indexes strictly ascending |
| `OpenAIConverter.Convert` | src/meta_harney/providers/openai.py:69-180 | The nested loops compute the concatenated conversions behind the system prompt |
| `OpenAIConverter.ConvertOne` | src/meta_harney/providers/openai.py:73-178 | One message's entries |
| `OpenAIConverter.TextsOf` | src/meta_harney/providers/openai.py:76-76 | The texts of a message's text blocks |
| `OpenAIConverter.PairedHistoryConverts` | src/meta_harney/providers/openai.py:73-180 | A well-paired history converts to a list in which every assistant's tool_calls are directly followed by one tool entry per call, ids in order, and no tool entry stands elsewhere |
| `OpenAIConverter.RequestIsPaired` | src/meta_harney/providers/openai.py:69-180 | The same with the system prompt in front |
| `OpenAIConverter.ConvertedPair` | src/meta_harney/providers/openai.py:80-95 | An assistant message and its tool message give one such group |
| `OpenAIConverter.WireCallIds` | src/meta_harney/providers/openai.py:120-130 | The entry's call ids are the message's, in order |
| `OpenAIConverter.ToolWireIds` | src/meta_harney/providers/openai.py:82-94 | One tool entry per result block, ids in order |
| `AnthropicStream.Stream` | src/meta_harney/providers/anthropic.py:234-318 | The output up to message_stop, and the indexes whose buffers are still open then |
| `AnthropicStream.Take` | src/meta_harney/providers/anthropic.py:244-318 | One event changes its own index's buffers only and yields what that index has collected |
| `AnthropicStream.WholeResponse` | src/meta_harney/providers/anthropic.py:234-318 | For interleaved well-formed blocks and a message_stop: nothing after it is read, the one Done is last, the assembled events are those of the blocks, and every buffer is empty |
| `AnthropicStream.BlocksInStopOrder` | src/meta_harney/providers/anthropic.py:283-304 | Each tool_use block gives one call and each thinking block one block event, made of its own chunks only, in stop order |
| `AnthropicStream.EveryBlockOnce` | src/meta_harney/providers/anthropic.py:238-304 | Every block that occurs is finished exactly once and leaves its buffers empty |
| `AnthropicStream.StoppedBlock` | src/meta_harney/providers/anthropic.py:283-304 | What the loop holds for a block when it stops is what its own events add up to |
| `AnthropicStream.StopIsLast` | src/meta_harney/providers/anthropic.py:283-304 | A stop sees exactly the earlier events of its own block |
| `Framing.FramedRoundTrip` | clients/typescript/src/framing.ts:144-165 | Reading back what was written gives the very payloads in order, newlines included, then a clean end |
| `Framing.FramedOne` | clients/typescript/src/framing.ts:144-165 | One frame in front of any bytes is read exactly, leaving those bytes |
| `Framing.HeaderParses` | clients/typescript/src/framing.ts:182-205 | The written header is read back as the payload's length |
| `Framing.ParseIntDecimal` | clients/typescript/src/framing.ts:151-151 | Printing and parsing a length are inverse |
| `Framing.DecimalParses` | clients/typescript/src/framing.ts:151-160 | The decimal digits of a number denote it |
| `Framing.IndexOf` | clients/typescript/src/framing.ts:94-94 | The first position of a byte, or -1 |
| `FramingReaders.TransferFramed` | clients/typescript/src/framing.ts:73-165 | End to end: however the written bytes are cut into chunks, the reader returns exactly the payloads and then the end |
| `FramingReaders.ReceiveFramed` | clients/typescript/src/framing.ts:144-156 | The result depends on the bytes and the way the stream ends, never on chunk boundaries or arrival times |
| `FramingReaders.ReadFramed` | clients/typescript/src/framing.ts:145-156 | One message, a clean end, or the error the bytes determine |
| `FramingReaders.ReadHeaders` | clients/typescript/src/framing.ts:182-205 | The headers the remaining bytes determine |
| `FramingReaders.BufferedReader.ReadExact` | clients/typescript/src/framing.ts:73-85 | Exactly n bytes and the rest kept, or the error |
| `FramingReaders.BufferedReader.ReadLine` | clients/typescript/src/framing.ts:92-109 | The next line of the whole stream, wherever the chunks are cut |
| `FramingReaders.BufferedReader.constructor` | clients/typescript/src/framing.ts:49-58 | A freshly attached reader holds nothing |
| `FramingReaders.BufferedReader.OnData` | clients/typescript/src/framing.ts:36-43 | Arriving bytes go to the end of the buffer |
| `LineFraming.LineReadersAgree` | src/meta_harney/bridge/framing.py:28-33 | The Python and TypeScript newline readers return the same messages if and only if no line ends in two CRs |
| `LineFraming.LinesRoundTrip` | clients/typescript/src/framing.ts:131-142 | Both readers invert the writer if and only if no payload holds an LF or ends in a CR |
| `LineFraming.ReceiveTsLines` | clients/typescript/src/framing.ts:131-137 | The TypeScript reader's messages depend on the bytes only |
| `LineFraming.ReadTsLine` | clients/typescript/src/framing.ts:132-137 | One message without its line end and at most one CR |
| `LineFraming.ReceivePyLines` | src/meta_harney/bridge/framing.py:28-33 | The Python reader's messages |
| `LineFraming.ReadPyLine` | src/meta_harney/bridge/framing.py:28-33 | One message without any trailing CR or LF |
| `LineFraming.ReadPyFramed` | src/meta_harney/bridge/framing.py:47-68 | The Python Content-Length reader returns what the bytes determine |
| `LineFraming.PyFramedRoundTrip` | src/meta_harney/bridge/framing.py:47-75 | The Python reader inverts the same writer, so frames cross the language border intact |
| `BridgeReplies.RequestHasOnePlace` | src/meta_harney/bridge/server.py:188-226 | In every reachable state a request is in at most one of request frame, dispatch task and response frame; while awaited in exactly one, unless its write failed, a cancel hit its reply being written, its result could not be encoded, or the transport broke |
| `BridgeReplies.SettledForGood` | clients/typescript/src/client.ts:639-663 | A promise is settled at most once, by the reply of its own request's task, a disconnection or its own failed write, and stays so |
| `BridgeReplies.RepliesHold` | src/meta_harney/bridge/server.py:122-226 | The inductive invariant over every interleaving |
| `BridgeReplies.RepliesKept` | src/meta_harney/bridge/server.py:122-226 | Every step of client, server tasks, resolver and channels keeps it |
| `BridgeReplies.PromiseStep` | clients/typescript/src/client.ts:639-710 | No step takes back or replaces a promise's outcome |
| `BridgeReplies.ClientReadsAt` | clients/typescript/src/client.ts:616-663 | Reading a response settles at most the promise of its id |
| `BridgeReplies.TaskStartsAt` | src/meta_harney/bridge/server.py:188-207 | Starting a task, cancels and shutdown included, keeps one place per request |
| `BridgeReplies.TaskEndsAt` | src/meta_harney/bridge/server.py:222-229 | A task that ends has written its reply, or its request is lost for a named cause |
| `BridgeReplies.ReceiveRequestAt` | src/meta_harney/bridge/server.py:138-139 | A received request becomes one task |
| `BridgeStreams.HandleSeesItsStream` | src/meta_harney/bridge/server.py:352-382 | A handle is delivered a prefix of what the server's stream for its request yielded, and all of it if the request completed |
| `BridgeStreams.NothingAfterSettling` | clients/typescript/src/client.ts:288-296 | After its promise is settled a handle hears nothing more |
| `BridgeStreams.StreamsHold` | src/meta_harney/bridge/server.py:352-382 | The inductive invariant over every interleaving |
| `BridgeStreams.ServerReceivesStream` | src/meta_harney/bridge/server.py:386-400 | Cancels and other inbound messages leave every task's progress alone |
| `BridgeStreams.ReadsResponseStream` | clients/typescript/src/client.ts:639-663 | A response arrives only after the events of its stream |
| `BridgePermissions.GrantsRestOnAnswers` | src/meta_harney/bridge/permission.py:37-58 | Each grant in a run rests on an allow or allow_always of the client for that very ask and tool, or on an earlier allow_always for the same tool name |
| `BridgePermissions.OneGrantPerAnswer` | src/meta_harney/bridge/server.py:264-290 | An answer grants at most one call |
| `BridgedTurns.ExecutionsAreGranted` | src/meta_harney/engine/tool_dispatch.py:28-150 | Every tool a turn enters over the bridge's resolver was granted to that very call, by the client's answer to an ask for that tool or by an earlier allow_always for it |
| `BridgedTurns.GrantsAreOwn` | src/meta_harney/bridge/permission.py:37-58 | Two calls never share a grant |
| `BridgePermissions.RepeatedAnswerChangesNothing` | src/meta_harney/bridge/server.py:281-290 | A second answer to an ask changes nothing, however late |
| `BridgePermissions.GoneForGood` | src/meta_harney/bridge/server.py:281-290 | A resolved outbound id never comes back |
| `BridgePermissions.PermissionsHold` | src/meta_harney/bridge/server.py:264-290 | The inductive invariant: outbound ids are distinct negatives, each future resolved at most once and only by the response with its id |
| `BridgePermissions.PermissionsKept` | src/meta_harney/bridge/server.py:264-290 | Every step keeps it |
| `BridgeObjects.BridgeClient.constructor` | clients/typescript/src/client.ts:239-280 | The first id is 1 and nothing is pending |
| `BridgeObjects.BridgeClient.SendRequest` | clients/typescript/src/client.ts:354-364 | An id no request ever had, with a promise that awaits its outcome; nothing changes for any other request |
| `BridgeObjects.BridgeClient.SendMessage` | clients/typescript/src/client.ts:496-527 | The same, with a handle that listens and has heard nothing |
| `BridgeObjects.BridgeClient.OnWriteRejected` | clients/typescript/src/client.ts:517-524 | A request still pending gets the failed write as its one outcome and its handle hears no more; an answered one keeps its answer; no other request is affected |
| `BridgeObjects.BridgeClient.HandleResponse` | clients/typescript/src/client.ts:639-663 | A response becomes the one outcome of the pending promise of its id and of no other; one that nobody awaits changes nothing |
| `BridgeObjects.BridgeClient.Settle` | clients/typescript/src/client.ts:645-663 | A pending promise gets exactly one outcome and leaves both tables |
| `BridgeObjects.BridgeClient.OnStreamEvent` | clients/typescript/src/client.ts:288-296 | An event is the next thing heard by the handle in flight with its id, and is heard by nobody otherwise |
| `BridgeObjects.BridgeClient.FailAllPending` | clients/typescript/src/client.ts:704-710 | Every pending promise is rejected once, settled ones keep their outcome, and both tables are empty |
| `BridgeObjects.BridgeClient.Dispatch` | clients/typescript/src/client.ts:616-637 | No message takes back an outcome, adds a second one, or reaches a handle no longer in flight |
| `BridgeObjects.BridgePermissionResolver.constructor` | src/meta_harney/bridge/permission.py:33-35 | Nothing is remembered at first |
| `BridgeObjects.BridgePermissionResolver.Cached` | src/meta_harney/bridge/permission.py:38-39 | A tool is allowed unasked if and only if an earlier answer for it was allow_always |
| `BridgeObjects.BridgePermissionResolver.Decide` | src/meta_harney/bridge/permission.py:51-58 | The verdict is that of the answer, anything but allow and allow_always being a denial, and only allow_always is remembered |
| `BridgeObjects.BridgeServer.constructor` | src/meta_harney/bridge/server.py:60-74 | No task, no outbound request, counter at -1 |
| `BridgeObjects.BridgeServer.ServeOne` | src/meta_harney/bridge/server.py:126-152 | A request starts one task that has not run yet; no message moves another task, though a cancel may be left for one; only an answer touches an ask |
| `BridgeObjects.BridgeServer.CancelById` | src/meta_harney/bridge/server.py:386-400 | Only the registered task of that id is told to stop; no task has moved when this returns |
| `BridgeObjects.BridgeServer.HandleInboundResponse` | src/meta_harney/bridge/server.py:281-290 | The id leaves the table, and a future that has an answer keeps it; an unknown or repeated response changes no future |
| `BridgeObjects.BridgeServer.DispatchRequest` | src/meta_harney/bridge/server.py:188-207 | While shutting down every request but `exit` is refused, and it stays so; a handler runs registered and only if the server is not shutting down; no other task moves |
| `BridgeObjects.BridgeServer.HandleSessionCancel` | src/meta_harney/bridge/server.py:386-400 | The reply is true if and only if there was a registered task, and that task has then been told to stop |
| `BridgeObjects.BridgeServer.SendRequest` | src/meta_harney/bridge/server.py:264-275 | A negative id no outstanding ask has, with a future nobody has answered; the other asks are untouched |
| `BridgeObjects.BridgeServer.FinishRequest` | src/meta_harney/bridge/server.py:276-279 | The id is gone, and the verdict is the client's answer to this very ask, recorded for the tool it was asked about |
| `BridgeObjects.BridgeServer.Reply` | src/meta_harney/bridge/server.py:208-222 | The handler's reply is what the task will write, and any cancel that reached it is used up |
| `BridgeObjects.BridgeServer.AskIsCancelled` | src/meta_harney/bridge/server.py:264-279 | An ask cancelled before its write is done leaves its table entry behind, a later one does not |
| `BridgeRunner.RunBridge` | src/meta_harney/bridge/server.py:122-290 | A client and a server object driven through any interleaving of their steps have gone through a run of the transition system: every promise is settled at most once, every handle heard a prefix of its stream and all of it once resolved, and no answer granted two calls |
| `BridgeRunner.Bridge.Perform` | src/meta_harney/bridge/server.py:122-290 | Whichever step comes next, the objects end in the state the transition system says |
| `BridgeRunner.WhatRunsGuarantee` | clients/typescript/src/client.ts:616-710 | The theorems about runs, stated of the state the objects end in |
| `ChildAgents.StatusIsFinal` | src/meta_harney/builtin/multi_agent/in_process.py:195-209 | SUCCEEDED, FAILED and CANCELLED are for good under every sequence of spawns, task ends, joins and cancels, and so is a child's result |
| `ChildAgents.JoinsAgree` | src/meta_harney/builtin/multi_agent/in_process.py:160-193 | All joins of a child that give a result give the same one, and none does after the child was seen failed or cancelled |
| `ChildAgents.FinishedAfter` | src/meta_harney/builtin/multi_agent/in_process.py:176-220 | A join that gave a result or timed out, and a cancel of a known task, leave the child finished |
| `ChildAgents.CancelledJoin` | src/meta_harney/builtin/multi_agent/in_process.py:177-181 | A cancelled joiner leaves the child running if and only if its join had a timeout (the shielded case) |
| `ChildAgents.ResultsHold` | src/meta_harney/builtin/multi_agent/in_process.py:170-193 | A stored result of a detached child is the one its task returned |
| `ChildAgents.InProcessBackend.constructor` | src/meta_harney/builtin/multi_agent/in_process.py:55-57 | No children at first |
| `ChildAgents.InProcessBackend.SpawnBlocking` | src/meta_harney/builtin/multi_agent/in_process.py:97-106 | A blocking child that returns has succeeded from then on, with its result; one that raises stays unknown; no other child is affected |
| `ChildAgents.InProcessBackend.SpawnDetached` | src/meta_harney/builtin/multi_agent/in_process.py:108-116 | A detached child is running and has no result; no other child is affected |
| `ChildAgents.InProcessBackend.Finish` | src/meta_harney/builtin/multi_agent/in_process.py:108-116 | The end of a task is seen for its own child only, and only once |
| `ChildAgents.InProcessBackend.Join` | src/meta_harney/builtin/multi_agent/in_process.py:160-193 | The answer and the state after a join, for every way the wait can end; a result is the child's result from then on, and a timeout leaves it finished |
| `ChildAgents.InProcessBackend.Status` | src/meta_harney/builtin/multi_agent/in_process.py:195-209 | Succeeded if and only if the child has a result, running if and only if a join would wait, none if and only if there is no such child |
| `ChildAgents.InProcessBackend.Cancel` | src/meta_harney/builtin/multi_agent/in_process.py:211-220 | A child with a task is finished when this returns, one that was finished before is as it was, and no other child is affected |
| `ChildAgents.RunBackend` | src/meta_harney/builtin/multi_agent/in_process.py:55-220 | The backend object taken through any sequence of operations has gone through a run of the model, and a status that was final at any point, with its result, is still what it reports at the end |

## Left out

- JSON text: payloads, argument texts and file contents are taken as the values they encode, with `Decoder` for argument decoding, and arguments that decode to something other than an object are not told apart.
- Message validation and classification: malformed inbound messages are dropped by the read loops and have no step of their own.
- Network, SDK clients, HTTP status mapping and child-process spawning: providers start from the sequence of SDK events, the bridge from messages.
- Trace sinks, span ids, telemetry and logging, which affect no result.
- Clocks, ids from UUIDs and real sleeping: a timeout is an oracle's choice, a fresh id is assumed unused.
- Floating point: `Retry` computes delays over exact reals, and lengths above 2^53 are not rounded as a double would.
- Liveness of the server's drain at end of input while an outbound request stays unanswered.
- The stream reader's line-length limit, and several reads of one stream at the same time (the waiters list).
- Routing of permission requests to the newest handle: the permission results speak of the connection, not of one send.
- A second cancellation that lands inside the final save of a turn.
- Deletion of the turn's own session while it runs, and writes to it by anyone but the turn's own tools, such as a second turn on the same session.
- Messages and attribute values as shared mutable objects: the lists and maps that hold them are heap objects, what they hold are values.
- Python's `repr` in error texts: names are quoted with single quotes whatever they contain.
- Session fields that nothing here reads (`user_id`, `parent_session_id`, `created_at`), and the order in which a store lists sessions.
- File system details behind the file store: case-insensitive names, corrupt files, partial writes.
- Image data, author and name passthrough in the converter beyond the image part itself.
- Provider catalogue, vendor quirks, prompt builders, the allow-all and deny-all resolvers: single-branch code.
- TurnEngine.Turn.Point: says only that nothing interrupts a turn whose fuse is `None`; which point is hit is the oracle's choice.
- BridgeReplies.RequestHasOnePlace: "exactly one" is claimed only while no cancel has landed on a reply being written and the result could be encoded, because in these cases the server loses the reply.
