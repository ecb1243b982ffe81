# Verified model of the agent platform's core

A Dafny model of the stateful heart of the agent platform, with proofs about every run of it:

- the kernel's tool loop, its pairing guard, the rebuilding of message lists and the compaction of context items
  (`AgentKernel.dfy`, `KernelSpec.dfy`, `KernelLaws.dfy`, `KernelExamples.dfy`, `Ledger.dfy`, `PairingGuard.dfy`,
  `Transcript.dfy`, `Doubles.dfy`, `Compaction.dfy`);
- the runtime dispatcher as an interleaved protocol over one shared store (`Dispatcher.dfy`);
- the context selection pipeline (`ContextSelection.dfy`, `Sorting.dfy`);
- the circuit breaker and the multi-provider adapter (`CircuitBreaker.dfy`, `LlmAdapter.dfy`);
- the console timeline and its broadcaster (`Timeline.dfy`, `Broadcaster.dfy`);
- the dead letter queue and the slash-command parser (`DeadLetter.dfy`, `CommandParser.dfy`).

`dafny verify dfyconfig.toml` checks the whole project.

## How the model is built

Everything a component waits for is an arbitrary input: model replies, handlers, dispatch and compaction answers,
exceptions, abort signals, clock readings and jitter in the kernel and the adapter; the order of all steps in the
dispatcher, the broadcaster and the dead letter queue. Stores and broadcasting always work. Objects that the source
updates in place are classes whose methods are tied to functions of their old state; the dispatcher, whose calls
interleave at their awaits, is a small-step machine, and `Dispatcher.Run` ranges over all label sequences. Token counts,
ids and times are unbounded integers, scores and jitter are reals.

`KernelSpec` computes from the environment's answers alone what a run comes to (`CourseOf`: its exit, its calls, what was
handled or dispatched, whose answers could not be recorded, whether a reply was cut short or dropped); the class in
`AgentKernel` keeps the records, and `KernelLaws` says what a course means in terms of the run's input and of its
environment's answers, field by field. Laws stated as `forall n :: Open(n) ==> ...` are passed on closed, which keeps the
verifier from unfolding them where they are only carried along.

Main results, hardest first:

1. **Kernel** (`AgentKernel.AgentKernel.Run`). Whatever the environment answers, at every way out nothing is waited for,
   every recorded call has a result, protected items were never compacted away, and exit, calls and effects are those of
   the run's course, in which each reply's effects follow the request order (`KernelSpec.OutcomeInOrder`). Every effect is caused by a readable
   call of a reply that was taken up: a dispatched call is projected, has no handler, and the agent is not remote; a handled
   one has a handler; and a reply that lets the run go on executed every call that may be (`KernelLaws.EffectsAreCaused`).
   How calls, turns and runs end is stated case by case (`CallEnds`, `TurnGoesOnIff`, `RunEnds`). If handlers
   answer under the id they were asked about and no reply repeats an id, each further property holds or fails exactly as
   a condition on the environment says (`Accounted`):
   - results and recorded calls agree as multisets if and only if no handler's answer failed to be recorded; in general
     they differ by exactly those answers;
   - every message list sent to the model is block-structured, after any number of compactions, as long as serialising
     the same value again has the same outcome (`steadySerialiser`): an answer that cannot be serialised throws again when
     the next list is rebuilt, unless a compaction hid it, and that ends the run. For any serialiser whatever, a list is
     block-structured if and only if it does not show a doubled result;
   - the transcript is paired if and only if moreover no reply with calls was dropped by an abort right after it;
   - with ids distinct over the run, the offline validation reports no warning if and only if no reply was cut short
     before its last call.
   `KernelExamples` runs the kernel into each of the failing cases, and shows both what follows an unserialisable answer
   (`RebuildAfterUnrecordableAnswer`) and that a doubled list takes a serialiser that fails first and then succeeds
   (`RequestFromUnsteadySerialiser`).
2. **Dispatcher**. Over every interleaving: one adapter execution per idempotency key (`OneExecutionPerKey`), duplicates
   name the first action (`DuplicateNamesTheFirst`), and stored statuses, events and results follow one life cycle
   (`Lifecycle`, `RunExtends`, `TerminalIsForever`). Whatever a dispatch comes to was caused by steps of its own: it executes
   only once allowed and looked up, and its race settles as its adapter or its timer said (`EverythingIsCaused`).
3. **Parser**. Writing a command out with quotes and parsing it gives it back if and only if a checkable condition on name
   and arguments holds (`RoundTripIff`); a backslash before anything but a line end is what breaks it.
   Unquoted words, single-quoted text and backslashes outside quotes have laws of their own.
4. **Selection**. The selection is the greedy one: best item first, each admitted exactly if it fits against the pinned items
   and what the better ones left (`GreedyIsRun`, `AdmittedInOrder`). Exact token accounting, source budgets, pair integrity;
   and which items are superseded (`SupersededIff`).
5. **Timeline**. Exact event counts for every turn and id (`ExactCounts`). That every summary id appears exactly once when
   no tool message carries an id is false of the code for repeated summary ids (`RepeatedSummaryIdShowsTwice`);
   `LackingIdsExactlyOnceIff` says exactly when it holds. The comparator of the timeline orders a list strictly and weakly
   if and only if no three of its events clash (`ComparatorOrdersIff`); the events of one turn can (`ComparatorCycles`).
6. **Dead letter queue**. Each row is a function of what happened to its own id; a discard is final if and only if no retry
   of the record is in flight (`DiscardIsFinalIff`, `OverlappingRetryRevives`).
7. **Breaker and adapter**. The breaker refines a specification over its whole timed history; waits, attempts and failover
   order are exact.
8. **Broadcaster**. The two indexes agree after any sequence of operations, silenced connections stay silent, and catch-up
   completes the page the client has seen a part of, with nothing older than the cursor and everything newer.

Where the code's comments promise more than the code does, the code is followed: the timeline comparator is described as
giving a stable order, which it does only for lists without a clash. The code is also followed where a handler asks to
stop but its answer cannot be serialised: the run then goes on, and the next handler of the same reply whose answer is
recorded ends it.

## Model

| member | source | states |
|---|---|---|
| `AgentKernel.AgentKernel.Run` | src/kernel/agent-kernel.ts:83-519 | at every exit no call is waited for, every recorded call has a result, pinned, incompressible and must-keep items survive and the item list is what no later compaction named, status, calls and effects are those of the course; every effect is caused by a call of a reply taken up, dispatched only if projected, without handler and not remote, handled only with a handler; with an honest environment conservation, pairing and validation each hold exactly in the cases named by the course, and every message list sent is block-structured if the serialiser is steady or no answer failed to be recorded |
| `AgentKernel.AgentKernel.AccountsClosed` | src/kernel/agent-kernel.ts:104-518 | closed books give the exact accounts: how results and calls differ, which requests were block-structured (all of them under a steady serialiser), when the transcript is paired and when validation passes |
| `AgentKernel.AgentKernel.Loop` | src/kernel/agent-kernel.ts:104-488 | the bounded loop takes the course of its turns and keeps the laws; the first ending iteration decides |
| `AgentKernel.AgentKernel.Iterate` | src/kernel/agent-kernel.ts:105-488 | one more iteration extends the course by what its turn does |
| `AgentKernel.AgentKernel.RunIteration` | src/kernel/agent-kernel.ts:105-488 | one iteration ends as its inputs dictate, or throws exactly if, with a steady serialiser, a result that failed before is still visible when the list is rebuilt; it does exactly what its reply comes to and leaves all paired unless it drops a reply; it goes on after calls only once compaction was checked |
| `AgentKernel.AgentKernel.CloseRun` | src/kernel/agent-kernel.ts:489-518 | exceptions and exhausted iterations flush whatever is still waited for; pairing and conservation stay as they were |
| `AgentKernel.AgentKernel.CallAndHandle` | src/kernel/agent-kernel.ts:137-210 | streaming, fallback, error and reply outcomes each end the iteration in the right way with the books balanced |
| `AgentKernel.AgentKernel.HandleReply` | src/kernel/agent-kernel.ts:235-487 | a reply's exit and effects; an abort right after it drops its calls, every other way out keeps pairing |
| `AgentKernel.AgentKernel.HandlePlainReply` | src/kernel/agent-kernel.ts:438-486 | exits for content, rejected content, reasoning alone and an empty reply |
| `AgentKernel.AgentKernel.AnswerCalls` | src/kernel/agent-kernel.ts:255-411 | exit, effects and unrecordable answers are those the reply and the environment determine; a call stays unannounced exactly if the reply was cut short |
| `AgentKernel.AgentKernel.TrackCalls` | src/kernel/agent-kernel.ts:255-258 | the reply's calls are recorded and, when their ids are distinct, are exactly the ones waited for |
| `AgentKernel.AgentKernel.RejectTruncated` | src/kernel/agent-kernel.ts:260-283 | every call of a truncated reply is announced and refused with a truncation error, in request order, and none is executed |
| `AgentKernel.AgentKernel.ProcessCalls` | src/kernel/agent-kernel.ts:285-411 | the tool loop: request order, early exits, the last batch's answer, and whether the loop was cut short |
| `AgentKernel.AgentKernel.ProcessCall` | src/kernel/agent-kernel.ts:289-395 | one call is announced and then does to buffer, stop flag, exit and effects what the loop step says |
| `AgentKernel.AgentKernel.RouteCall` | src/kernel/agent-kernel.ts:298-395 | an announced call gets the error result of its kind, goes to its handler or joins the buffer, and the waiting calls shrink accordingly |
| `AgentKernel.AgentKernel.Announce` | src/kernel/agent-kernel.ts:289-291 | the call's tool_call entry is written, and it is no longer silent |
| `AgentKernel.AgentKernel.RunHandler` | src/kernel/agent-kernel.ts:316-372 | buffered calls are dispatched before the handler runs, which may throw; a stop, possibly asked for by an earlier handler, and an abort close the books |
| `AgentKernel.AgentKernel.CallHandler` | src/kernel/agent-kernel.ts:326-365 | the answer, the error result of a handler that throws, or both when recording the answer throws; the call is no longer waited for |
| `AgentKernel.AgentKernel.RedoInOrder` | src/kernel/agent-kernel.ts:333-365 | an answer that cannot be merged stays in the transcript and an error result for the same call follows it |
| `AgentKernel.AgentKernel.FinishReply` | src/kernel/agent-kernel.ts:397-411 | the rest is dispatched as one batch, leftovers are flushed, and the run ends iff all of that batch ask for it or a result cannot be merged |
| `AgentKernel.AgentKernel.DispatchExternalBatch` | src/kernel/agent-kernel.ts:1223-1403 | one result per buffered call, in order, up to and including the first that cannot be merged, and what that throws; whether all asked to terminate |
| `AgentKernel.AgentKernel.ParseToolUseRequests` | src/kernel/agent-kernel.ts:1059-1103 | requests in order with empty parameters where the arguments do not parse, and the parse error by id |
| `AgentKernel.AgentKernel.FlushPairingGuard` | src/kernel/agent-kernel.ts:1486-1508 | one synthetic result for every call still waited for, in order, recorded, and merged as an item that shows it under the name the call was recorded with |
| `AgentKernel.AgentKernel.NameOfMeans` | src/kernel/agent-kernel.ts:1497-1502 | a missing result is named after the first recorded call with its id, and "unknown" if there is none |
| `AgentKernel.AgentKernel.MergeToolResult` | src/kernel/agent-kernel.ts:1468-1484 | one item that shows the result is appended and the item history stays faithful |
| `AgentKernel.AgentKernel.ExecuteCompact` | src/kernel/agent-kernel.ts:1529-1579 | a compaction is applied iff it names no protected id; then the named items go, the summary comes last, and their calls are hidden |
| `AgentKernel.AgentKernel.MaybeCompact` | src/kernel/agent-kernel.ts:413-433 | a compact entry exactly when the trigger fires, saying whether the answer was applied; an applied one hides, besides what was hidden, exactly the calls of the items it names; otherwise nothing changes |
| `AgentKernel.AgentKernel.RecordRequest` | src/kernel/agent-kernel.ts:121-125 | the recorded request holds the rebuilt message list, and recording it keeps the laws: the list is block-structured exactly when it shows no superseded result, and under a steady serialiser it shows none |
| `AgentKernel.AgentKernel.RunToTheEnd` | src/kernel/agent-kernel.ts:104-518 | the loop and the ways out after it follow the course of the turns as they came out, which are the given turns unless an answer failed and the serialiser is steady |
| `KernelSpec.OutcomeInOrder` | src/kernel/agent-kernel.ts:255-401 | for every reply, what is handled or dispatched is a prefix of the admitted calls in request order, and all of them if the run goes on |
| `KernelSpec.LoopInOrder` | src/kernel/agent-kernel.ts:285-395 | after any number of calls, what was done and what is buffered together are what those calls may cause |
| `KernelSpec.AdmittedPrefix` | src/kernel/agent-kernel.ts:289-395 | what the first calls may cause is a prefix of what the whole reply may cause |
| `KernelSpec.RemoteCourse` | src/kernel/agent-kernel.ts:1405-1417 | in the whole run of a remote agent nothing is dispatched |
| `KernelSpec.RemoteNeverDispatches` | src/kernel/agent-kernel.ts:1405-1417 | nothing a remote agent's reply may cause is a dispatch |
| `KernelSpec.GoingOnIsUncut` | src/kernel/agent-kernel.ts:105-488 | an iteration that goes on took up every call of its reply |
| `KernelSpec.CourseReplaced` | src/kernel/agent-kernel.ts:104-518 | the iteration that ends a run decides its course, whatever the turns after it are |
| `KernelSpec.BatchResults` | src/kernel/agent-kernel.ts:1275-1403 | the results of a batch carry exactly the ids of its calls, in order |
| `KernelSpec.FirstFault` | src/kernel/agent-kernel.ts:1356-1397 | the first result of a batch that cannot be merged |
| `KernelSpec.ItemsAtTheEnd` | src/kernel/agent-kernel.ts:1529-1579 | the surviving items are those never named later, and include every protected one |
| `KernelLaws.EffectsAreCaused` | src/kernel/agent-kernel.ts:255-411 | for every reply, each effect is caused by its own readable call, in request order, handled with a handler, dispatched without one if projected and not remote; none for a truncated reply; all such calls if the run goes on |
| `KernelLaws.RunEffects` | src/kernel/agent-kernel.ts:104-488 | the same over the whole run: every effect is caused by a call of a reply that one of its iterations took up |
| `KernelLaws.LoopVariablesMean` | src/kernel/agent-kernel.ts:285-350 | the loop is stopping iff a handler so far asked for it, and what is buffered is everything since the last handled call |
| `KernelLaws.CallEnds` | src/kernel/agent-kernel.ts:316-372 | a call ends the loop exactly if it is handled and the buffered results throw, or its answer is recorded and a stop was asked for, or the run was aborted |
| `KernelLaws.LastBatchEnds` | src/kernel/agent-kernel.ts:397-411 | the last batch ends the run with the first exception, as completed iff all its results ask for it, and not otherwise |
| `KernelLaws.ResultOfCall` | src/kernel/agent-kernel.ts:1283-1375 | a dispatched call gets the dispatch error, the last raw result that reports its id or stands in its place, or the payload or error of the whole dispatch |
| `KernelLaws.BatchThrowsFirst` | src/kernel/agent-kernel.ts:1356-1397 | a batch throws what its first result throws that cannot be serialised, and commits up to that one |
| `KernelLaws.TurnWithoutCall` | src/kernel/agent-kernel.ts:105-136 | how a turn ends that never calls the model |
| `KernelLaws.AnswerWithoutReply` | src/kernel/agent-kernel.ts:137-233 | how a turn ends whose model gives no reply to take up, streamed, after the fallback, or plainly |
| `KernelLaws.ReplyTakenUp` | src/kernel/agent-kernel.ts:249-487 | a reply taken up ends the turn by its calls, or else by its content, its reasoning, or not at all |
| `KernelLaws.TurnGoesOnIff` | src/kernel/agent-kernel.ts:105-487 | a turn lets the run go on iff it takes up a reply whose calls do, or one that says nothing at all |
| `KernelLaws.RunEnds` | src/kernel/agent-kernel.ts:83-518 | the status of a run by its time, its iterations and the first turn that does not let it go on |
| `KernelLaws.SyntheticResults` | src/kernel/agent-kernel.ts:260-395 | the results the kernel makes up are errors with the code and recoverability of their case, end nothing and are never serialised |
| `KernelLaws.ItemOfResult` | src/kernel/agent-kernel.ts:1468-1484 | the item of a result: its text, its tokens, its call, and that compaction may remove it |
| `KernelLaws.AppliesIff` | src/kernel/agent-kernel.ts:1541-1552 | a compaction answer is applied iff no id it names is must-keep, pinned or marked not compressible |
| `KernelLaws.HiddenCalls` | src/kernel/agent-kernel.ts:1554-1558 | a compaction hides exactly the calls of the items it removes |
| `KernelExamples.StoppedInMidReply` | src/kernel/agent-kernel.ts:338-350 | a run that a handler stops before the last call: the validation reports a warning |
| `KernelExamples.DroppedReply` | src/kernel/agent-kernel.ts:249-253 | a run aborted between a reply and its calls: the transcript is not paired |
| `KernelExamples.UnrecordableAnswer` | src/kernel/agent-kernel.ts:326-365 | a run with an answer that cannot be serialised: results and calls do not agree |
| `KernelExamples.RebuildAfterUnrecordableAnswer` | src/kernel/agent-kernel.ts:717-727 | the answer that could not be serialised throws again, so no message list is rebuilt |
| `KernelExamples.RequestFromUnsteadySerialiser` | src/kernel/agent-kernel.ts:717-727 | if serialising that answer succeeds the second time, the next request shows the call answered twice |
| `Ledger.AnswerCovers` | src/kernel/agent-kernel.ts:309-313 | whatever is answered under whatever id, every recorded call has a result or is still waited for |
| `Ledger.AnswerSound` | src/kernel/agent-kernel.ts:309-313 | answering waiting calls under their own ids keeps conservation and pairing |
| `Ledger.RedoSound` | src/kernel/agent-kernel.ts:333-365 | a superseded answer and the error result after it keep conservation up to the doubled result, and pairing with it left out |
| `Ledger.FlushSound` | src/kernel/agent-kernel.ts:1486-1508 | flushing keeps conservation and pairing |
| `Ledger.RequestSound` | src/kernel/agent-kernel.ts:121-125 | a request rebuilt while nothing is waited for is recorded with its exact block structure |
| `Ledger.ReplySound` | src/kernel/agent-kernel.ts:235-258 | a reply recorded and tracked leaves exactly its own calls open |
| `Ledger.TrackReply` | src/kernel/agent-kernel.ts:256-258 | after tracking, every call of the reply is waited for and still silent |
| `Ledger.DroppedReplyUnpaired` | src/kernel/agent-kernel.ts:249-253 | a reply whose calls are never tracked leaves the transcript unpaired |
| `Ledger.ClosedCovered` | src/kernel/agent-kernel.ts:104-518 | with nothing waited for, every recorded and every announced call has a result |
| `Ledger.ClosedConserved` | src/kernel/agent-kernel.ts:104-518 | with nothing waited for, results are the recorded calls and the superseded results, so they agree iff there is none |
| `Ledger.ClosedPairedIff` | src/kernel/agent-kernel.ts:104-518 | the transcript as it stands is paired iff no result was superseded and the rest is paired |
| `Ledger.ClosedValidIff` | src/kernel/tool-result-pairing-guard.ts:14-56 | with nothing waited for, called and answered ids agree if every recorded call was announced, and only then if ids are distinct |
| `Ledger.ExactlyOneResult` | src/kernel/agent-kernel.ts:104-518 | when ids are distinct over the run, every call has one result and one more for each superseded answer |
| `Transcript.BuildTranscriptMessages` | src/kernel/agent-kernel.ts:670-731 | the rebuilt message list, block-structured whenever every call in the transcript got its result and superseded ones are hidden; every visible result stands in it, a failure as "Error: " and its message, anything else as its payload; under a steady serialiser either the superseded ones are hidden or the first visible one throws |
| `Transcript.ReplyShown` | src/kernel/agent-kernel.ts:685-716 | a reply stands in the list with its content and its visible calls in order if one is answered or the flag keeps it, else with its content alone, if any |
| `Transcript.RebuildThrowsIff` | src/kernel/agent-kernel.ts:717-727 | serialising the results again throws unless every result that failed before belongs to a compacted call |
| `Transcript.ReplayIsBlockStructured` | src/kernel/agent-kernel.ts:670-731 | for any set of compacted ids and either flag setting, a paired transcript replays to a block-structured list |
| `Transcript.ReplayScan` | src/kernel/agent-kernel.ts:670-731 | hiding compacted ids hides the same calls among announcements and results |
| `Transcript.AcceptedIffBlockStructured` | src/kernel/agent-kernel.ts:670-731 | the pairing automaton accepts exactly the lists in which each assistant's calls are answered, each once, before the next assistant |
| `Transcript.AnnouncedIsAnsweredOrOpen` | src/kernel/agent-kernel.ts:670-690 | every announced call has a recorded result or is open |
| `Transcript.ValidateToolResultPairing` | src/kernel/tool-result-pairing-guard.ts:14-56 | valid iff called and answered ids agree; one warning per missing and per orphaned id, no others |
| `Doubles.RawIff` | src/kernel/agent-kernel.ts:326-365 | the transcript as it stands pairs like the one without superseded results, unless there is one: then it strays |
| `Doubles.RebuiltExactly` | src/kernel/agent-kernel.ts:670-731 | a list rebuilt from a transcript with every call answered is block-structured iff it shows no superseded result, that is iff those are compacted |
| `Doubles.HiddenIsNotShown` | src/kernel/agent-kernel.ts:717-722 | where every superseded result belongs to a compacted call, the rebuilt list shows none |
| `Doubles.ShownIsStructured` | src/kernel/agent-kernel.ts:121-125 | of a run that shows no superseded result, every recorded list is block-structured |
| `Doubles.VisibleDoubleStrays` | src/kernel/agent-kernel.ts:717-727 | a visible superseded result shows its call answered twice |
| `Compaction.SurvivorsAreNeverNamed` | src/kernel/agent-kernel.ts:1529-1579 | the list is everything ever added, in order, minus what later compactions named |
| `Compaction.ProtectedSurvives` | src/kernel/agent-kernel.ts:1529-1579 | a pinned, incompressible or must-keep item stays from when it enters |
| `Compaction.CompactKeepsProtection` | src/kernel/agent-kernel.ts:1542-1552 | an answer that passes the kernel's check names no protected item |
| `Compaction.TracksCompact` | src/kernel/agent-kernel.ts:1554-1566 | an applied compaction keeps list and history in step |
| `Compaction.SplitItems` | src/kernel/agent-kernel.ts:1554-1562 | the kept items in order and the tool calls whose items go |
| `Compaction.TriggeredIff` | src/kernel/agent-kernel.ts:1510-1527 | compaction is due iff the tokens exceed the threshold's share of the budget and the bundle asks for it |
| `PairingGuard.ToolResultPairingGuard.TrackAssistantToolCalls` | src/kernel/tool-result-pairing-guard.ts:62-66 | the pending map after setting every request in order |
| `PairingGuard.ToolResultPairingGuard.AcceptToolResult` | src/kernel/tool-result-pairing-guard.ts:68-71 | the result is kept and its call is no longer pending |
| `PairingGuard.ToolResultPairingGuard.FlushMissingResults` | src/kernel/tool-result-pairing-guard.ts:73-88 | one placeholder per pending call, in order, and nothing pending afterwards |
| `PairingGuard.PutAllFresh` | src/kernel/tool-result-pairing-guard.ts:62-66 | calls with distinct ids are appended in request order |
| `PairingGuard.PutAllCovers` | src/kernel/tool-result-pairing-guard.ts:62-66 | tracking never forgets a call, whatever ids the model chose |
| `PairingGuard.PutKnown` | src/kernel/tool-result-pairing-guard.ts:62-66 | a call whose id is waited for already takes the place of the earlier one |
| `PairingGuard.DropOne` | src/kernel/tool-result-pairing-guard.ts:68-71 | accepting a result removes its call and nothing else |
| `Dispatcher.Run` | src/dispatcher/runtime-dispatcher.ts:148-370 | every reachable state of every interleaving is consistent for every dispatch |
| `Dispatcher.StepKeeps` | src/dispatcher/runtime-dispatcher.ts:148-370 | each step of each dispatch keeps the invariant |
| `Dispatcher.StepTouches` | src/dispatcher/runtime-dispatcher.ts:148-370 | a step changes nothing that belongs to another dispatch |
| `Dispatcher.OneExecutionPerKey` | src/dispatcher/runtime-dispatcher.ts:188-214 | in every run no adapter is called twice for a dispatch or for an idempotency key |
| `Dispatcher.DuplicateNamesTheFirst` | src/dispatcher/runtime-dispatcher.ts:188-214 | a finished dispatch under a key is the earliest saved one with it, or names that one, never executed, and ended as its duplicate behaviour and its target action demand |
| `Dispatcher.DuplicateKeeps` | src/dispatcher/runtime-dispatcher.ts:372-476 | returning the previous result, dropping and failing each end the duplicate consistently |
| `Dispatcher.Lifecycle` | src/dispatcher/runtime-dispatcher.ts:148-370 | legal stored statuses, an event word of the grammar, one settlement, and a final event that agrees with the result; a success is stored and returned as completed, a "Timeout" as timed out, any other rejection as failed |
| `Dispatcher.RunExtends` | src/dispatcher/runtime-dispatcher.ts:148-370 | statuses only grow, and results, settlements and the first holder of a key never change |
| `Dispatcher.TerminalIsForever` | src/dispatcher/runtime-dispatcher.ts:148-370 | a terminal status set by the dispatcher is never left |
| `Dispatcher.ExecutedIsAdmitted` | src/dispatcher/runtime-dispatcher.ts:188-262 | only a dispatch past validation and the idempotency check reaches its adapter |
| `Dispatcher.RaceKeeps` | src/dispatcher/runtime-dispatcher.ts:323-370 | whatever happens inside a race is local to its dispatch and keeps it consistent |
| `Dispatcher.RaceAfterMoves` | src/dispatcher/runtime-dispatcher.ts:323-370 | in whatever order timer, adapter and abort fire, the race settles at most once and keeps its settlement, which is the adapter's or the timer's "Timeout"; timer and abort raise the signal |
| `Dispatcher.EverythingIsCaused` | src/dispatcher/runtime-dispatcher.ts:148-370 | in every run, what a dispatch has come to was caused by its own steps: execution by permission and lookup, denial by the hook, settlement by adapter or timer |
| `Dispatcher.BeginDecides` | src/dispatcher/runtime-dispatcher.ts:148-262 | incomplete actions end at once, so do those whose key is held; the others wait for the hook if there is one, and are looked up otherwise |
| `Dispatcher.PermissionDecides` | src/dispatcher/runtime-dispatcher.ts:216-262 | the hook denies or lets the dispatch go on to the lookup, which starts the race or ends it as unavailable |
| `Dispatcher.PreviousIsReported` | src/dispatcher/runtime-dispatcher.ts:372-476 | a duplicate that neither writes nor asks for anything else names the first action and says whether that is still under way |
| `ContextSelection.PipelineContext.Assemble` | src/context/context-manager.ts:16-28 | the whole pipeline: the scored items are the current ones, one per dedupe key, best first, and the selection laws hold |
| `ContextSelection.PipelineContext.NormalizeStage` | src/context/context-manager.ts:120-141 | every item normalized in order, with its defaults, all of them distinct, and pair groups built from all of them |
| `ContextSelection.PipelineContext.IdentifyPairGroups` | src/context/context-manager.ts:306-318 | one group per pair id that occurs, with its members in order |
| `ContextSelection.GroupsAreFilters` | src/context/context-manager.ts:306-318 | pair groups, pinned items and partners stand in the order of their list |
| `ContextSelection.PipelineContext.FilterStage` | src/context/context-manager.ts:143-155 | expired and superseded items are gone, nothing is added |
| `ContextSelection.CurrentIs` | src/context/context-manager.ts:143-155 | what stays, in order, are exactly the items not expired whose id no unexpired item replaces |
| `ContextSelection.SupersededIff` | src/context/context-manager.ts:320-347 | an id is superseded iff an item with it shares its supersedes key with a newer one, or with one as new that came earlier |
| `ContextSelection.PipelineContext.DedupStage` | src/context/context-manager.ts:157-174 | the first item per dedupe key and every item without one |
| `ContextSelection.FirstPerKeyIs` | src/context/context-manager.ts:157-174 | an item stays iff it has no dedupe key or no earlier item has the same |
| `ContextSelection.PipelineContext.ScoreStage` | src/context/context-manager.ts:176-200 | a permutation in descending score, ties in their earlier order |
| `ContextSelection.ScoreIs` | src/context/context-manager.ts:176-183 | the weights of priority, recency, relevance and authority, and what stands in for an absent one |
| `ContextSelection.PipelineContext.SelectStage` | src/context/context-manager.ts:202-271 | the estimate is the exact sum, within budget when the pinned items are; `budgetExceeded` iff they are not; source charges, pair integrity, and a reason for every unpinned item left out; the selection is the greedy one in scored order |
| `ContextSelection.GreedyIsRun` | src/context/context-manager.ts:225-263 | best item first, each is admitted exactly if it fits the budgets against the pinned items and what the better ones left, with the group it must bring along; its source is charged if the item alone fits |
| `ContextSelection.AdmittedInOrder` | src/context/context-manager.ts:225-263 | what is admitted on its own stands in the selection in scored order |
| `ContextSelection.GreedyUsed` | src/context/context-manager.ts:225-263 | what the better items left is measured by the pinned tokens and everything selected so far |
| `ContextSelection.GreedyGrows` | src/context/context-manager.ts:225-263 | what was selected stays selected |
| `ContextSelection.PipelineContext.Decide` | src/context/context-manager.ts:225-263 | each skip or admission is justified by the budget, the source budget or the pair group |
| `ContextSelection.PipelineContext.PullGroup` | src/context/context-manager.ts:243-256 | a group fits or not, and the partners it brings along with the item stay within the budget |
| `ContextSelection.OthersLeaveRoom` | src/context/context-manager.ts:243-262 | partners plus the item itself cost at most the whole group |
| `ContextSelection.SelectionKeepsPairs` | src/context/context-manager.ts:243-263 | no pair without a pinned member is selected by halves |
| `ContextSelection.SourceBudgetKept` | src/context/context-manager.ts:235-241 | items admitted on their own never exceed their source's budget |
| `ContextSelection.FollowOk` | src/context/context-manager.ts:225-263 | a justified decision keeps token, source, pair and skip accounting sound |
| `Sorting.StableSortCorrect` | src/context/context-manager.ts:198-198 | sorted, a permutation, and ties in their original order |
| `CircuitBreaker.Breaker.CanExecuteNow` | src/llm/circuit-breaker.ts:124-143 | granted while closed and while probing, and when open exactly if the reset time has passed, which begins probing; the counters count it |
| `CircuitBreaker.Breaker.Success` | src/llm/circuit-breaker.ts:145-156 | the state stays the one the history dictates |
| `CircuitBreaker.Breaker.Failure` | src/llm/circuit-breaker.ts:158-169 | the same, including failures recorded while open |
| `CircuitBreaker.Breaker.ResetAll` | src/llm/circuit-breaker.ts:171-175 | closed with cleared counters |
| `CircuitBreaker.Breaker.ForceOpenNow` | src/llm/circuit-breaker.ts:177-180 | open since now |
| `CircuitBreaker.Breaker.ForceCloseNow` | src/llm/circuit-breaker.ts:182-184 | closed with no failures |
| `CircuitBreaker.PhaseMeans` | src/llm/circuit-breaker.ts:110-184 | closed with n failures since closing below the threshold, probing with k successes and no failure, or open with every request since too early |
| `CircuitBreaker.PhaseBegan` | src/llm/circuit-breaker.ts:110-184 | which call began the current phase |
| `CircuitBreaker.MeaningLeads` | src/llm/circuit-breaker.ts:110-184 | conversely, calls that mean a phase lead to it |
| `CircuitBreaker.OpenSinceLatestFailure` | src/llm/circuit-breaker.ts:158-180 | an open breaker counts from the latest failure, whenever it was recorded |
| `CircuitBreaker.RefusedUntilReset` | src/llm/circuit-breaker.ts:124-169 | once open, every request before the reset time has passed since the latest failure is refused |
| `CircuitBreaker.RequestsAreCounted` | src/llm/circuit-breaker.ts:124-143 | the counters are the requests since the latest reset and those of them made while open and too early |
| `LlmAdapter.RetryWaitMs` | src/llm/adapter.ts:51-55 | at least the provider's hint, never above the ceiling |
| `LlmAdapter.DelayRange` | src/llm/adapter.ts:24-29 | a delay lies between its bound and a tenth above it, under the ceiling |
| `LlmAdapter.DelaySchedule` | src/llm/adapter.ts:24-29 | half a second, doubled per retry up to ten seconds, with the share of a tenth that the jitter says |
| `LlmAdapter.WaitIs` | src/llm/adapter.ts:51-55 | the wait is the delay, raised to the provider's hint and cut at ten seconds |
| `LlmAdapter.DelaysNonDecreasing` | src/llm/adapter.ts:24-29 | for every choice of jitter a later retry never waits less |
| `LlmAdapter.WaitsWithinBudget` | src/llm/adapter.ts:240-277 | waits admitted under the deadline add up to less than the budget |
| `LlmAdapter.CompleteProviderWithRetries` | src/llm/adapter.ts:240-277 | at most retries plus one calls, each wait as computed and bounded, the last attempt's result; an attempt is followed by another exactly if it threw or failed with a retryable error other than an open breaker, a retry is left and the wait ends before the deadline |
| `LlmAdapter.OutcomeIs` | src/llm/adapter.ts:240-277 | a provider's answer is the result of its first attempt that is not followed by another |
| `LlmAdapter.Complete` | src/llm/adapter.ts:167-238 | the first provider in order that succeeds decides and none after it is called; on total failure one entry per provider in order |
| `LlmAdapter.StreamProvider` | src/llm/adapter.ts:286-318 | what a provider emits are the chunks of its last attempt, in order; it tries again exactly if it threw before emitting, not with an error that rules it out, a retry is left and the wait ends before the deadline |
| `LlmAdapter.Stream` | src/llm/adapter.ts:279-356 | contributions up to the first provider that finishes; otherwise all of them and one plain completion |
| `LlmAdapter.StreamedIs` | src/llm/adapter.ts:279-318 | every streamed chunk is one of the final attempt of a provider that can stream |
| `LlmAdapter.FallbackIs` | src/llm/adapter.ts:320-356 | the chunks of a plain completion: its text, a piece per tool call in order, and the finish |
| `LlmAdapter.OneAttemptPerProvider` | src/llm/adapter.ts:279-356 | all chunks a provider contributes come from one attempt |
| `LlmAdapter.Registry.AddProvider` | src/llm/adapter.ts:358-362 | the list gains the provider, stays in ascending priority, and providers of one priority keep their order |
| `LlmAdapter.Registry.RemoveProvider` | src/llm/adapter.ts:364-369 | the first provider with the id goes, the rest stays in order |
| `LlmAdapter.Registry.UpdateProviderPriority` | src/llm/adapter.ts:375-381 | the first listed provider with the id gets the priority, wherever it is listed, and the list is sorted again, stably |
| `LlmAdapter.Registry.GetHealthyProviders` | src/llm/adapter.ts:163-165 | exactly the listed providers that are healthy, in ascending priority |
| `Timeline.MapTurnToTimelineEvents` | src/api/console-timeline.ts:166-485 | the events of a turn in emission order |
| `Timeline.EmitMessages` | src/api/console-timeline.ts:277-440 | the events of the messages, and the call ids they emitted |
| `Timeline.EmitOrphans` | src/api/console-timeline.ts:234-275 | one pair for each summary id not emitted before |
| `Timeline.ExactCounts` | src/api/console-timeline.ts:217-445 | for every turn and id: as many call and result events as messages resolve to it, else one pair per summary id, else none |
| `Timeline.ExactlyOnceIff` | src/api/console-timeline.ts:217-445 | a summary id appears exactly once iff at most one message resolves to it |
| `Timeline.CarriedIdsExactlyOnce` | src/api/console-timeline.ts:346-445 | with distinct carried ids every summary id appears exactly once |
| `Timeline.LackingIdsExactlyOnceIff` | src/api/console-timeline.ts:346-445 | without carried ids a summary id appears exactly once iff it is not matched by position or not repeated |
| `Timeline.RepeatedSummaryIdShowsTwice` | src/api/console-timeline.ts:346-385 | a turn in which a repeated summary id is shown twice |
| `Timeline.CallsStandBeforeResults` | src/api/console-timeline.ts:234-445 | every call event stands immediately before its result event |
| `Timeline.MessagesAreShownOnce` | src/api/console-timeline.ts:277-345 | assistant, thinking, status, approval and error messages each yield exactly one event of their kind with their content and time, in order |
| `Timeline.ListsAreShownOnce` | src/api/console-timeline.ts:166-485 | so do the user message unless it is empty, the approvals and the artifacts |
| `Timeline.ToolMessageTells` | src/api/console-timeline.ts:346-425 | content, time, status and call of a tool message's events |
| `Timeline.OrphanTells` | src/api/console-timeline.ts:234-270 | time, status and sequence of the pair of a summary without a message |
| `Timeline.MessageSequence` | src/api/console-timeline.ts:277-286 | a message's events carry its sequence or else its index, and come after all summaries if there are no tool messages |
| `Timeline.ByIdIs` | src/api/console-timeline.ts:346-352 | a tool message is associated by id with the last summary that has it |
| `Timeline.ComparatorOrdersIff` | src/api/console-timeline.ts:601-622 | a list is strictly weakly ordered iff no two numbered events of one moment have an unnumbered one between their ranks and ids the other way round |
| `Timeline.UniformEventsAreOrdered` | src/api/console-timeline.ts:601-622 | events that all carry or all lack a turn sequence are always ordered |
| `Timeline.ComparatorCycles` | src/api/console-timeline.ts:601-622 | the events of a concrete turn on which the comparator runs in a circle |
| `Timeline.OrderReads` | src/api/console-timeline.ts:601-622 | a list in order reads newest first, then by turn sequence where both have one, then user, call, result, assistant, the rest |
| `Broadcaster.TimelineBroadcaster.Subscribe` | src/api/timeline-broadcaster.ts:110-135 | a new active connection in both indexes, all others untouched; caught up when a cursor is given, so that with the cursor on the page what was seen and what was written make up the page while nothing is refused; nothing older than the cursor is written and everything newer if nothing is refused; without the cursor on the page, all of it in time order |
| `Broadcaster.TimelineBroadcaster.SendCatchUpEvents` | src/api/timeline-broadcaster.ts:137-166 | the events after the cursor in order, all of them or up to and including the first refused write |
| `Broadcaster.TimelineBroadcaster.Broadcast` | src/api/timeline-broadcaster.ts:168-188 | written to exactly the active connections of the session; a refusal silences |
| `Broadcaster.TimelineBroadcaster.BroadcastTransient` | src/api/timeline-broadcaster.ts:190-224 | the same for status and token messages, refusals ignored |
| `Broadcaster.TimelineBroadcaster.HandleWrite` | src/api/timeline-broadcaster.ts:71-87 | a write through a handle reaches its connection only while it is active |
| `Broadcaster.TimelineBroadcaster.HandleClose` | src/api/timeline-broadcaster.ts:89-94 | closing a handle silences that connection |
| `Broadcaster.TimelineBroadcaster.GetConnectionCount` | src/api/timeline-broadcaster.ts:226-238 | the number of listed active connections of the session |
| `Broadcaster.TimelineBroadcaster.CloseSession` | src/api/timeline-broadcaster.ts:240-254 | the session's connections go silent and are forgotten, the others stay |
| `Broadcaster.TimelineBroadcaster.Cleanup` | src/api/timeline-broadcaster.ts:264-277 | exactly the active connections stay listed and the indexes agree |
| `Broadcaster.TimelineBroadcaster.Perform` | src/api/timeline-broadcaster.ts:110-277 | after any sequence of operations both indexes describe one relation, and an inactive connection is never active or written to again |
| `Broadcaster.AscendingIsThePage` | src/api/timeline-broadcaster.ts:142-144 | the ascending page is the page, once each, by ascending timestamp, and the events of one moment keep the page's order |
| `Broadcaster.CatchUpCompletesThePage` | src/api/timeline-broadcaster.ts:144-150 | with the cursor on the page, the seen part ends in the cursor and together with what was written is a prefix of the page, all of it if nothing was refused |
| `Broadcaster.CatchUpIsRecent` | src/api/timeline-broadcaster.ts:142-150 | what is written after a cursor on the page is no older than the cursor, and all that is newer unless refused |
| `Broadcaster.WithoutCursor` | src/api/timeline-broadcaster.ts:144-150 | a cursor that is not on the page leaves the whole page to be sent |
| `DeadLetter.DeadLetterQueue.EnqueueEvent` | src/dead-letter/dead-letter-queue.ts:25-41 | a pending record with what the call gave, stored unless the id is taken; no existing record changes |
| `DeadLetter.DeadLetterQueue.Begin` | src/dead-letter/dead-letter-queue.ts:47-60 | refused exactly for a missing or discarded record, otherwise retrying, counted and in flight |
| `DeadLetter.DeadLetterQueue.Finish` | src/dead-letter/dead-letter-queue.ts:59-74 | resolved or pending as the handler answered, whatever happened meanwhile |
| `DeadLetter.DeadLetterQueue.DiscardEvent` | src/dead-letter/dead-letter-queue.ts:76-83 | the discard is final iff no retry of the record is in flight |
| `DeadLetter.DeadLetterQueue.UpdateStatus` | src/dead-letter/dead-letter-store.ts:121-152 | the row after the UPDATE, with its counter, error and stamps |
| `DeadLetter.EveryRowIsItsLife` | src/dead-letter/dead-letter-queue.ts:25-83 | over every interleaving each row is determined by what happened to its own id |
| `DeadLetter.FailureCountIsAdmissions` | src/dead-letter/dead-letter-store.ts:129-131 | the failure count is the number of admitted retries, ended or in flight |
| `DeadLetter.RetryingMeansInFlight` | src/dead-letter/dead-letter-queue.ts:47-74 | no record is left retrying without a retry in flight |
| `DeadLetter.DiscardIsFinalIff` | src/dead-letter/dead-letter-queue.ts:47-83 | a discarded record stays discarded under all continuations iff no retry of it is in flight |
| `DeadLetter.OverlappingRetryRevives` | src/dead-letter/dead-letter-queue.ts:47-83 | a run in which a retry in flight brings a discarded record back |
| `CommandParser.ParseArgs` | src/command-core/parser.ts:14-70 | the loop computes the scanner's argument list for every input |
| `CommandParser.ParseCommand` | src/command-core/parser.ts:72-110 | escaped text, no command, or a command with its name and arguments |
| `CommandParser.UnescapeFacts` | src/command-core/parser.ts:10-12 | unescaping keeps double quotes, never empties a text, and shortens it whenever a backslash stands before a character other than a line end |
| `CommandParser.ScanYieldsNoEmpty` | src/command-core/parser.ts:54-67 | no parsed argument is empty |
| `CommandParser.ScanQuoted` | src/command-core/parser.ts:29-52 | what the scanner collects of a text between double quotes |
| `CommandParser.ArgumentsReturnIff` | src/command-core/parser.ts:14-70 | written arguments come back iff each is non-empty with backslashes only before line ends |
| `CommandParser.WordsReturn` | src/command-core/parser.ts:54-67 | unquoted words come back, whatever white space separates them |
| `CommandParser.SingleQuotedReturns` | src/command-core/parser.ts:36-52 | text between single quotes comes back, with double quotes and white space, if it holds no single quote and no backslash |
| `CommandParser.BackslashedText` | src/command-core/parser.ts:24-46 | with every character behind a backslash, a text comes back iff its own backslashes stand before line ends or last |
| `CommandParser.RoundTripIff` | src/command-core/parser.ts:14-110 | a written command comes back iff its name is lower case, without white space and leading slash, and its arguments come back |
| `CommandParser.PlainCommandsReturn` | src/command-core/parser.ts:14-110 | every list of non-empty backslash-free arguments comes back |
| `CommandParser.SlashNameIsEscaped` | src/command-core/parser.ts:75-82 | a name with a leading slash turns the input into escaped text |
| `CommandParser.InputKinds` | src/command-core/parser.ts:72-110 | which inputs are no command, an escaped text, or a command, whose name ends at the first white space |
| `CommandParser.TrimMeans` | src/command-core/parser.ts:72-98 | trimming cuts all white space at both ends and nothing else |

## Left out

- HTTP server and routes, command line and terminal interfaces, SQL, fetch calls, provider wire formats, tracing, audit and metrics.
- Building the model input around the transcript messages, prompt templates, the tool executor and `isRetryable`.
- Compact hints, tool and skill projection, configuration readers, mock registries: single filters that would only add easy members.
- The serialiser: an input says whether serialising the same value again has the same outcome; other exceptions of building a request are arbitrary inputs.
- Wording of error results and of tool event contents, which is shortened to what varies; codes and recoverability are kept.
- Early stop when all external tools of a reply terminate: the code uses the last batch alone, and so does the model.
- AgentKernel.AgentKernel.Run: distinct ids within a reply, and handlers answering under the id they were asked about, are hypotheses of its accounts; coverage, items, exit and effects need neither.
- Dispatcher: modelled on values as a state machine, so update in place and object identity are not captured; `findByIdempotencyKey` returns the first action saved under the key; action ids are distinct; the status an action arrives with is arbitrary.
- Uniqueness of selected context items: a partner pulled in with its group can be selected again on its own, and a filtered-out partner can return; sequences keep the repetition.
- Token estimates, generated ids, recency and the collation of strings are parameters of the selection; scores are exact reals; superseded items are found by a function rather than by the source's in-place sort.
- LlmAdapter.WaitsWithinBudget: assumes a clock that does not run backwards and sleeps that last at least as long as asked.
- Stream output of a single provider: chunks of a provider that fails after emitting are followed by the next provider's, in the model as in the code.
- What `updateConfig` of a provider does besides taking the new priority.
- The configuration merge of the adapter and the breaker's statistics accessors.
- Merging with stored events, sorting and paging in `getTimeline`, beyond the comparator's laws; the page is an input of catch-up.
- Rebinding a connection's callbacks, the calls to `closeFn` and their re-entrancy; connection ids are assumed new at `subscribe`.
- Listing and counting dead letters: filters over the record table that would only add easy members.
- CommandParser: characters are Unicode scalar values rather than UTF-16 code units; lower-casing is a parameter that adds no white space.
