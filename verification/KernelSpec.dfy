/**
 What a run of the kernel waits for, and what it then does: the inputs of every
 iteration, which calls are admitted, and how replies, iterations and runs end.

 Everything here is a function of the environment's answers alone; the class in
 AgentKernel.dfy keeps the records.
 */
module KernelSpec {
  import opened Common
  import opened PairingGuard
  import opened Transcript
  import opened Compaction
  import opened Ledger

  // ------------------------------------------------------------------- inputs

  /** `steadySerialiser`: serialising the same value again has the same outcome. */
  datatype RunInput = RunInput(
    remote: bool,
    projectedTools: Option<seq<string>>,
    internalHandlers: set<string>,
    toolLoopV2: bool,
    maxIterations: int,
    timeoutMs: int,
    orderedItems: seq<ContextItem>,
    pinnedItems: seq<ContextItem>,
    compactBudget: int,
    compactThreshold: real,
    compactHints: Option<CompactHints>,
    hasCompactExecutor: bool,
    steadySerialiser: bool,
    newItemId: nat -> string
  ) {
    function MustKeep(): set<string> {
      if compactHints.Some? then compactHints.value.mustKeepItemIds else {}
    }

    /** `isCallableProjectedTool`: projected, and the agent is not remote. */
    predicate Callable(toolName: string) {
      projectedTools.Some? && toolName in projectedTools.value && !remote
    }

    function Limit(): nat {
      if maxIterations < 0 then 0 else maxIterations
    }

    function InitialItems(): seq<ContextItem> {
      orderedItems + pinnedItems
    }
  }

  datatype StreamOutcome = StreamReply(reply: Reply) | StreamEmpty | StreamTimeout | StreamAborted(message: string)
      | StreamError

  datatype CompleteOutcome =
    | CompleteReply(reply: Reply)
    | CompleteFailed(message: string)
    | CompleteThrew(aborted: bool, message: string)

  /** `recording` is what serialising the answer for its context item throws, if it does. */
  datatype HandlerOutcome = Answered(result: ToolResult, stop: bool, recording: Option<Thrown>)
      | HandlerThrew(message: string)

  datatype ExecResult =
      ExecResult(success: bool, data: Json, reportedId: Option<string>, error: Option<ToolError>, terminate: bool)

  /**
   `results[i]` is absent when the i-th raw result is not a tool execution
   result; `recording(i)` is what serialising the i-th call's result throws.
   */
  datatype DispatchOutcome =
    | DispatchThrew(message: string)
    | DispatchReturned(completed: bool, error: Option<ToolError>, payload: Json, results: seq<Option<ExecResult>>,
                       recording: nat -> Option<Thrown>)

  datatype CompactOutcome = Applied(compactedItemIds: seq<string>, summary: ContextItem) | Skipped | ExecutorThrew

  datatype Turn = Turn(
    abortedAtStart: bool,
    timedOut: bool,
    buildThrows: Option<Thrown>,
    abortedBeforeCall: bool,
    streaming: bool,
    stream: StreamOutcome,
    complete: CompleteOutcome,
    abortedAfterReply: bool,
    handlers: nat -> HandlerOutcome,
    abortedAfterHandler: nat -> bool,
    dispatches: nat -> DispatchOutcome,
    compaction: CompactOutcome,
    contentValid: bool
  )

  /** How the model call of a turn ended, after the fallback from streaming to a plain completion. */
  datatype ModelAnswer =
    | Got(reply: Reply)
    | Errored(message: string)
    | StreamTimedOut
    | EmptyCompletion
    | Threw(thrown: Thrown)

  function Completion(t: Turn): ModelAnswer {
    match t.complete
    case CompleteReply(reply) => Got(reply)
    case CompleteFailed(message) => Errored(message)
    case CompleteThrew(aborted, message) => Threw(Thrown(aborted, message))
  }

  function CallModel(t: Turn): ModelAnswer {
    if !t.streaming then Completion(t)
    else
      match t.stream
      case StreamReply(reply) => Got(reply)
      case StreamTimeout => StreamTimedOut
      case StreamAborted(message) => Threw(Thrown(true, message))
      case _ =>
        var fallback := Completion(t);
        if fallback.Got? && fallback.reply.content == "" && fallback.reply.toolCalls == [] then EmptyCompletion
        else fallback
  }

  /** Ids within the reply are distinct, and handlers answer under the id they were asked about. */
  ghost predicate HonestReply(t: Turn, reply: Reply) {
    Distinct(CallIds(reply.toolCalls)) && HonestHandlers(t, Requests(reply))
  }

  ghost predicate HonestHandlers(t: Turn, requests: seq<ToolRequest>) {
    forall i :: 0 <= i < |requests| ==> HonestAnswer(t.handlers(i), requests[i])
  }

  ghost predicate HonestAnswer(outcome: HandlerOutcome, request: ToolRequest) {
    outcome.Answered? ==> outcome.result.toolCallId == request.toolCallId
  }

  ghost predicate HonestTurn(t: Turn) {
    CallModel(t).Got? ==> HonestReply(t, CallModel(t).reply)
  }

  /** The environment kept its promises during the first `n` iterations. */
  ghost predicate HonestUpTo(turns: nat -> Turn, n: nat) {
    forall i :: 0 <= i < n ==> HonestTurn(turns(i))
  }

  datatype FinalStatus = Completed | Failed | Cancelled | TimedOut | MaxIterationsReached

  datatype Exit = Continue | Return(status: FinalStatus) | Throw(thrown: Thrown)

  // -------------------------------------------------------- what a reply may cause

  datatype Effect = Handled(request: ToolRequest) | Dispatched(request: ToolRequest)

  function InvalidArgs(calls: seq<ToolCall>): map<string, string> {
    if calls == [] then map[]
    else
      var before, last := InvalidArgs(calls[..|calls| - 1]), calls[|calls| - 1];
      if last.args.Unparseable? then before[last.id := last.args.error] else before
  }

  /** What the kernel may do with one call: hand it to an internal handler, dispatch it, or neither. */
  function Admit(input: RunInput, request: ToolRequest, invalid: map<string, string>): seq<Effect> {
    if request.toolCallId in invalid then []
    else if request.toolName in input.internalHandlers then [Handled(request)]
    else if input.Callable(request.toolName) then [Dispatched(request)]
    else []
  }

  /** The synthetic error results of the kernel; their wording is shortened to what varies. */
  function Refusal(request: ToolRequest, code: ErrorCode, message: string, recoverable: bool): (result: ToolResult)
    ensures result.toolCallId == request.toolCallId
  {
    ToolResult(request.toolCallId, "null", Some(ToolError(code, message, recoverable)), false)
  }

  function TruncationError(request: ToolRequest): ToolResult {
    Refusal(request, TRUNCATED_TOOL_CALL, request.toolName, true)
  }

  /** The error result of a call that is not admitted. */
  function AdmissionError(request: ToolRequest, invalid: map<string, string>): ToolResult {
    if request.toolCallId in invalid then
      Refusal(request, INVALID_TOOL_ARGUMENTS, invalid[request.toolCallId], true)
    else Refusal(request, UNPROJECTED_TOOL_CALL, request.toolName, false)
  }

  function HandlerError(request: ToolRequest, message: string): ToolResult {
    Refusal(request, INTERNAL_HANDLER_ERROR, message, true)
  }

  /** What the calls may cause, in request order. */
  function Admitted(input: RunInput, requests: seq<ToolRequest>, invalid: map<string, string>, n: nat): seq<Effect>
    requires n <= |requests|
  {
    if n == 0 then [] else Admitted(input, requests, invalid, n - 1) + Admit(input, requests[n - 1], invalid)
  }

  /** Everything a reply may cause, in request order; nothing at all for a truncated reply. */
  function Expected(input: RunInput, reply: Reply): seq<Effect> {
    if reply.truncated then [] else Admitted(input, Requests(reply), InvalidArgs(reply.toolCalls), |reply.toolCalls|)
  }

  function DispatchEffects(batch: seq<ToolRequest>): (effects: seq<Effect>)
    ensures |effects| == |batch|
  {
    seq(|batch|, i requires 0 <= i < |batch| => Dispatched(batch[i]))
  }

  lemma {:induction false} AdmittedPrefix(input: RunInput, requests: seq<ToolRequest>, invalid: map<string, string>,
                                          i: nat, n: nat)
    requires i <= n <= |requests|
    ensures Admitted(input, requests, invalid, i) <= Admitted(input, requests, invalid, n)
  {
    if i < n {
      AdmittedPrefix(input, requests, invalid, i, n - 1);
    }
  }

  /** A remote agent never dispatches; its replies can only reach internal handlers. */
  lemma {:induction false} RemoteNeverDispatches(input: RunInput, requests: seq<ToolRequest>,
                                                 invalid: map<string, string>, n: nat)
    requires input.remote && n <= |requests|
    ensures forall e :: e in Admitted(input, requests, invalid, n) ==> e.Handled?
  {
    if n > 0 {
      RemoteNeverDispatches(input, requests, invalid, n - 1);
    }
  }

  // ------------------------------------------------------------- batch results

  /** Raw results by call id: the id a result reports, else the id at its position; later ones win. */
  function ExecMap(results: seq<Option<ExecResult>>, batch: seq<ToolRequest>, n: nat): map<string, ExecResult>
    requires n <= |batch|
  {
    if n == 0 then map[]
    else
      var before := ExecMap(results, batch, n - 1);
      if n - 1 < |results| && results[n - 1].Some? then
        var raw := results[n - 1].value;
        before[raw.reportedId.GetOr(batch[n - 1].toolCallId) := raw]
      else before
  }

  function BatchResult(outcome: DispatchOutcome, exec: map<string, ExecResult>,
                       request: ToolRequest): (result: ToolResult)
    ensures result.toolCallId == request.toolCallId
  {
    var id := request.toolCallId;
    match outcome
    case DispatchThrew(message) => ToolResult(id, "null", Some(ToolError(DISPATCH_ERROR, message, true)), false)
    case DispatchReturned(completed, error, payload, _, _) =>
      if id in exec then
        var r := exec[id];
        ToolResult(id, if r.success then r.data else "null", r.error, r.terminate)
      else if completed && error.None? then ToolResult(id, payload, None, false)
      else ToolResult(id, "null", Some(error.GetOr(ToolError(DISPATCH_FAILED, "Tool dispatch failed", false))), false)
  }

  function BatchExec(outcome: DispatchOutcome, batch: seq<ToolRequest>): map<string, ExecResult> {
    if outcome.DispatchReturned? then ExecMap(outcome.results, batch, |batch|) else map[]
  }

  function BatchResults(outcome: DispatchOutcome, batch: seq<ToolRequest>): (results: seq<ToolResult>)
    ensures ResultKeys(results) == Ids(batch)
  {
    seq(|batch|, i requires 0 <= i < |batch| => BatchResult(outcome, BatchExec(outcome, batch), batch[i]))
  }

  /** What recording a result throws: only a result without an error is serialised. */
  function Fault(result: ToolResult, recording: Option<Thrown>): Option<Thrown> {
    if result.error.None? then recording else None
  }

  function FaultAt(outcome: DispatchOutcome, result: ToolResult, i: nat): Option<Thrown> {
    if outcome.DispatchThrew? then None else Fault(result, outcome.recording(i))
  }

  /** What recording each result of a batch throws. */
  function Faults(outcome: DispatchOutcome, batch: seq<ToolRequest>): (faults: seq<Option<Thrown>>)
    ensures |faults| == |batch|
  {
    seq(|batch|, i requires 0 <= i < |batch| =>
      FaultAt(outcome, BatchResults(outcome, batch)[i], i))
  }

  /** The first result that cannot be merged, or the length. */
  function FirstFault(faults: seq<Option<Thrown>>): (n: nat)
    ensures n <= |faults| && (n < |faults| ==> faults[n].Some?)
    ensures forall k :: 0 <= k < n ==> faults[k].None?
  {
    if faults == [] || faults[0].Some? then 0 else 1 + FirstFault(faults[1..])
  }

  /** How many results of a batch are committed: all, or those up to the first that cannot be merged. */
  function Committed(outcome: DispatchOutcome, batch: seq<ToolRequest>): (n: nat)
    ensures n <= |batch|
  {
    var first := FirstFault(Faults(outcome, batch));
    if first < |batch| then first + 1 else first
  }

  /** What dispatching a batch throws after its results came back. */
  function BatchThrows(outcome: DispatchOutcome, batch: seq<ToolRequest>): (thrown: Option<Thrown>)
    ensures thrown.None? ==> Committed(outcome, batch) == |batch|
  {
    var first := FirstFault(Faults(outcome, batch));
    if first < |batch| then Faults(outcome, batch)[first] else None
  }

  /** All results of a batch ask to end the run. */
  predicate AllTerminate(outcome: DispatchOutcome, batch: seq<ToolRequest>) {
    batch != [] && forall i :: 0 <= i < |batch| ==> BatchResults(outcome, batch)[i].terminate
  }

  // ------------------------------------------------------------------ the tool loop

  /**
   The tool loop's variables, and its outcome: the buffered calls, whether a
   handler asked to stop, how the loop ended, whose answers could not be
   recorded, and what was handled or dispatched.
   */
  datatype Loop = Loop(buffer: seq<ToolRequest>, stopping: bool, exit: Exit, spoiled: seq<string>, done: seq<Effect>)

  const LoopStart := Loop([], false, Continue, [], [])

  predicate AsksToStop(outcome: HandlerOutcome) {
    outcome.Answered? && outcome.stop
  }

  /** What recording a handler's answer throws. */
  function HandlerFault(outcome: HandlerOutcome): Option<Thrown> {
    if outcome.Answered? then Fault(outcome.result, outcome.recording) else None
  }

  /** A handler's recorded answer ends the run once a stop was asked for; an abort is seen after any handler. */
  function HandledExit(stopping: bool, outcome: HandlerOutcome, aborted: bool): Exit {
    if stopping && outcome.Answered? && HandlerFault(outcome).None? then Return(Completed)
    else if aborted then Return(Cancelled)
    else Continue
  }

  /** One call: what it adds to the outcome, and the variables after it. */
  function StepCall(input: RunInput, request: ToolRequest, invalid: map<string, string>, buffer: seq<ToolRequest>,
                    stopping: bool, dispatch: DispatchOutcome, handler: HandlerOutcome, aborted: bool): Loop
  {
    var admitted := Admit(input, request, invalid);
    if admitted == [] then Loop(buffer, stopping, Continue, [], [])
    else if admitted[0].Dispatched? then Loop(buffer + [request], stopping, Continue, [], [])
    else HandlerStep(request, buffer, stopping, dispatch, handler, aborted)
  }

  /** A handled call: the buffer is dispatched first, which may throw. */
  function HandlerStep(request: ToolRequest, buffer: seq<ToolRequest>, stopping: bool,
                       dispatch: DispatchOutcome, handler: HandlerOutcome, aborted: bool): Loop
  {
    if BatchThrows(dispatch, buffer).Some? then
      Loop([], stopping, Throw(BatchThrows(dispatch, buffer).value), [], DispatchEffects(buffer))
    else
      HandledCall(request, buffer, stopping || AsksToStop(handler), handler, aborted)
  }

  function HandledCall(request: ToolRequest, buffer: seq<ToolRequest>, stopping: bool, handler: HandlerOutcome,
                       aborted: bool): Loop {
    Loop([], stopping, HandledExit(stopping, handler, aborted),
         if HandlerFault(handler).Some? then [handler.result.toolCallId] else [],
         DispatchEffects(buffer) + [Handled(request)])
  }

  function LoopNext(s: Loop, c: Loop): Loop {
    Loop(c.buffer, c.stopping, c.exit, s.spoiled + c.spoiled, s.done + c.done)
  }

  /** The loop after the first `n` calls, or where it ended before. */
  function LoopAfter(input: RunInput, requests: seq<ToolRequest>, invalid: map<string, string>, turn: Turn,
                     n: nat): Loop
    requires n <= |requests|
  {
    if n == 0 then LoopStart
    else
      var s := LoopAfter(input, requests, invalid, turn, n - 1);
      if s.exit != Continue then s
      else
        LoopNext(s, StepCall(input, requests[n - 1], invalid, s.buffer, s.stopping,
                             turn.dispatches(n - 1), turn.handlers(n - 1), turn.abortedAfterHandler(n - 1)))
  }

  /** The run ends when every call of the last batch asks for it, or when its results cannot be merged. */
  function BatchExit(outcome: DispatchOutcome, batch: seq<ToolRequest>): Exit {
    if BatchThrows(outcome, batch).Some? then Throw(BatchThrows(outcome, batch).value)
    else if AllTerminate(outcome, batch) then Return(Completed)
    else Continue
  }

  /** After the last call, what is still buffered is dispatched. */
  function LoopEnd(s: Loop, outcome: DispatchOutcome): Loop {
    if s.exit != Continue then s
    else s.(exit := BatchExit(outcome, s.buffer), done := s.done + DispatchEffects(s.buffer))
  }

  /** What happens to the calls of a reply; a truncated reply only gets error results. */
  function CallsOutcome(input: RunInput, reply: Reply, turn: Turn): Loop {
    if reply.truncated then LoopStart
    else LoopEnd(LoopAfter(input, Requests(reply), InvalidArgs(reply.toolCalls), turn, |reply.toolCalls|),
                 turn.dispatches(|reply.toolCalls|))
  }

  /** The loop ended before the last call of the reply was taken up. */
  predicate CutShort(input: RunInput, reply: Reply, turn: Turn) {
    !reply.truncated && LoopCut(input, Requests(reply), InvalidArgs(reply.toolCalls), turn)
  }

  lemma {:induction false} LoopStays(input: RunInput, requests: seq<ToolRequest>, invalid: map<string, string>,
                                     turn: Turn, m: nat, n: nat)
    requires m <= n <= |requests| && LoopAfter(input, requests, invalid, turn, m).exit != Continue
    ensures LoopAfter(input, requests, invalid, turn, n) == LoopAfter(input, requests, invalid, turn, m)
  {
    if m < n {
      LoopStays(input, requests, invalid, turn, m, n - 1);
    }
  }

  /** The loop stands at `s` after `n` calls. */
  ghost predicate LoopAt(input: RunInput, requests: seq<ToolRequest>, invalid: map<string, string>, turn: Turn, n: nat,
                         s: Loop)
    requires n <= |requests|
  {
    forall k {:trigger Open(k)} :: Open(k) ==> s == LoopAfter(input, requests, invalid, turn, n)
  }

  /** The `n`-th call does `c` to a loop with these variables. */
  ghost predicate Steps(input: RunInput, requests: seq<ToolRequest>, invalid: map<string, string>, turn: Turn, n: nat,
                        buffer: seq<ToolRequest>, stopping: bool, c: Loop)
    requires n < |requests|
  {
    forall k {:trigger Open(k)} :: Open(k) ==>
      c == StepCall(input, requests[n], invalid, buffer, stopping, turn.dispatches(n), turn.handlers(n),
                    turn.abortedAfterHandler(n))
  }

  lemma LoopAtStart(input: RunInput, requests: seq<ToolRequest>, invalid: map<string, string>, turn: Turn)
    ensures LoopAt(input, requests, invalid, turn, 0, LoopStart)
  {
  }

  lemma LoopAtNext(input: RunInput, requests: seq<ToolRequest>, invalid: map<string, string>, turn: Turn, n: nat,
                   s: Loop, c: Loop)
    requires n < |requests| && LoopAt(input, requests, invalid, turn, n, s) && s.exit == Continue
    requires Steps(input, requests, invalid, turn, n, s.buffer, s.stopping, c)
    ensures LoopAt(input, requests, invalid, turn, n + 1, LoopNext(s, c))
  {
    assert Open(0);
  }

  /** The loop ran through all calls, or ended with the `n`-th. */
  ghost predicate EndedAt(input: RunInput, requests: seq<ToolRequest>, invalid: map<string, string>, turn: Turn, n: nat,
                          s: Loop) {
    && n <= |requests| && LoopAt(input, requests, invalid, turn, n, s)
    && if s.exit == Continue then n == |requests|
       else n > 0 && exists p :: LoopAt(input, requests, invalid, turn, n - 1, p) && p.exit == Continue
  }

  lemma LoopAtMeans(input: RunInput, requests: seq<ToolRequest>, invalid: map<string, string>, turn: Turn, n: nat,
                    s: Loop)
    requires n <= |requests| && LoopAt(input, requests, invalid, turn, n, s)
    ensures s == LoopAfter(input, requests, invalid, turn, n)
  {
    assert Open(0);
  }

  lemma LoopGoesOn(input: RunInput, requests: seq<ToolRequest>, invalid: map<string, string>, turn: Turn, m: nat,
                   n: nat)
    requires m <= n <= |requests| && LoopAfter(input, requests, invalid, turn, n).exit == Continue
    ensures LoopAfter(input, requests, invalid, turn, m).exit == Continue
  {
    if LoopAfter(input, requests, invalid, turn, m).exit != Continue {
      LoopStays(input, requests, invalid, turn, m, n);
    }
  }

  lemma EndedAtLast(input: RunInput, requests: seq<ToolRequest>, invalid: map<string, string>, turn: Turn, n: nat,
                    s: Loop)
    requires EndedAt(input, requests, invalid, turn, n, s)
    ensures s == LoopAfter(input, requests, invalid, turn, |requests|)
  {
    LoopAtMeans(input, requests, invalid, turn, n, s);
    if s.exit != Continue {
      LoopStays(input, requests, invalid, turn, n, |requests|);
    }
  }

  /** The loop ended before the last call was taken up. */
  predicate LoopCut(input: RunInput, requests: seq<ToolRequest>, invalid: map<string, string>, turn: Turn) {
    requests != [] && LoopAfter(input, requests, invalid, turn, |requests| - 1).exit != Continue
  }

  lemma ReachedIsUncut(input: RunInput, requests: seq<ToolRequest>, invalid: map<string, string>, turn: Turn, s: Loop)
    requires EndedAt(input, requests, invalid, turn, |requests|, s)
    ensures !LoopCut(input, requests, invalid, turn)
  {
    if s.exit == Continue {
      LoopAtMeans(input, requests, invalid, turn, |requests|, s);
      if requests != [] {
        LoopGoesOn(input, requests, invalid, turn, |requests| - 1, |requests|);
      }
    } else {
      var p :| LoopAt(input, requests, invalid, turn, |requests| - 1, p) && p.exit == Continue;
      LoopAtMeans(input, requests, invalid, turn, |requests| - 1, p);
    }
  }

  lemma EndedEarlyIsCut(input: RunInput, requests: seq<ToolRequest>, invalid: map<string, string>, turn: Turn, n: nat,
                        s: Loop)
    requires EndedAt(input, requests, invalid, turn, n, s) && n < |requests|
    ensures LoopCut(input, requests, invalid, turn)
  {
    LoopAtMeans(input, requests, invalid, turn, n, s);
    LoopStays(input, requests, invalid, turn, n, |requests| - 1);
  }

  /** What a call does is what it may cause, after what was buffered; or the loop ends before its handler runs. */
  ghost predicate StepOrderly(c: Loop, buffer: seq<ToolRequest>, admitted: seq<Effect>) {
    if c.exit.Throw? then c.done == DispatchEffects(buffer)
    else
      && c.done + DispatchEffects(c.buffer) == DispatchEffects(buffer) + admitted
      && (c.exit != Continue ==> c.buffer == [])
  }

  lemma StepInOrder(input: RunInput, request: ToolRequest, invalid: map<string, string>, buffer: seq<ToolRequest>,
                    stopping: bool, dispatch: DispatchOutcome, handler: HandlerOutcome, aborted: bool)
    ensures StepOrderly(StepCall(input, request, invalid, buffer, stopping, dispatch, handler, aborted), buffer,
                        Admit(input, request, invalid))
  {
    var buffered := DispatchEffects(buffer);
    assert DispatchEffects(buffer + [request]) == buffered + [Dispatched(request)];
    assert DispatchEffects([]) == [] && buffered + [] == buffered && [] + buffered == buffered;
    assert (buffered + [Handled(request)]) + [] == buffered + [Handled(request)];
    assert [] + (buffered + [Dispatched(request)]) == buffered + [Dispatched(request)];
  }

  /** What was done is, with what is buffered, what the calls so far may cause; or it stops short of that. */
  ghost predicate Orderly(s: Loop, admitted: seq<Effect>) {
    if s.exit == Continue then s.done + DispatchEffects(s.buffer) == admitted else s.done <= admitted
  }

  lemma OrderlyNext(s: Loop, c: Loop, sofar: seq<Effect>, admitted: seq<Effect>)
    requires s.exit == Continue && Orderly(s, sofar) && StepOrderly(c, s.buffer, admitted)
    ensures Orderly(LoopNext(s, c), sofar + admitted)
  {
    var buffered := DispatchEffects(s.buffer);
    if !c.exit.Throw? {
      assert (s.done + c.done) + DispatchEffects(c.buffer) == s.done + (c.done + DispatchEffects(c.buffer));
      assert (s.done + buffered) + admitted == s.done + (buffered + admitted);
      assert c.buffer == [] ==> (s.done + c.done) + DispatchEffects(c.buffer) == s.done + c.done;
    }
  }

  lemma {:induction false} LoopInOrder(input: RunInput, requests: seq<ToolRequest>, invalid: map<string, string>,
                                       turn: Turn, n: nat)
    requires n <= |requests|
    ensures Orderly(LoopAfter(input, requests, invalid, turn, n), Admitted(input, requests, invalid, n))
  {
    if n > 0 {
      var s, sofar := LoopAfter(input, requests, invalid, turn, n - 1), Admitted(input, requests, invalid, n - 1);
      LoopInOrder(input, requests, invalid, turn, n - 1);
      if s.exit == Continue {
        StepInOrder(input, requests[n - 1], invalid, s.buffer, s.stopping,
                    turn.dispatches(n - 1), turn.handlers(n - 1), turn.abortedAfterHandler(n - 1));
        OrderlyNext(s, StepCall(input, requests[n - 1], invalid, s.buffer, s.stopping,
                                turn.dispatches(n - 1), turn.handlers(n - 1), turn.abortedAfterHandler(n - 1)),
                    sofar, Admit(input, requests[n - 1], invalid));
      } else {
        assert s.done <= sofar <= sofar + Admit(input, requests[n - 1], invalid);
      }
    }
  }

  /**
   For every reply, what is handled or dispatched is a prefix of what it may cause, and
   all of it if the run goes on.
   */
  lemma OutcomeInOrder(input: RunInput, reply: Reply, turn: Turn)
    ensures var s := CallsOutcome(input, reply, turn);
            s.done <= Expected(input, reply) && (s.exit == Continue ==> s.done == Expected(input, reply))
  {
    if !reply.truncated {
      LoopInOrder(input, Requests(reply), InvalidArgs(reply.toolCalls), turn, |reply.toolCalls|);
    }
  }

  // ---------------------------------------------------------- iterations and runs

  /** How a reply ends the run, if it does. */
  function ReplyExit(input: RunInput, reply: Reply, turn: Turn): Exit {
    if turn.abortedAfterReply then Return(Cancelled)
    else if reply.toolCalls != [] then CallsOutcome(input, reply, turn).exit
    else if reply.content != "" then Return(if turn.contentValid then Completed else Failed)
    else if reply.reasoning != "" then Return(Completed)
    else Continue
  }

  /** How the model's answer ends the run, if it does. */
  function AnswerExit(input: RunInput, turn: Turn): Exit {
    match CallModel(turn)
    case Threw(thrown) => Throw(thrown)
    case StreamTimedOut => Return(Failed)
    case EmptyCompletion => Return(Completed)
    case Errored(_) => Return(Failed)
    case Got(reply) => ReplyExit(input, reply, turn)
  }

  /** How an iteration ends the run, if it does. */
  function IterationExit(input: RunInput, turn: Turn): Exit {
    if turn.abortedAtStart then Return(Cancelled)
    else if turn.timedOut then Return(TimedOut)
    else if turn.buildThrows.Some? then Throw(turn.buildThrows.value)
    else if turn.abortedBeforeCall then Return(Cancelled)
    else AnswerExit(input, turn)
  }

  /** The reply an iteration gets, if it gets that far. */
  function GotReply(turn: Turn): Option<Reply> {
    if turn.abortedAtStart || turn.timedOut || turn.buildThrows.Some? || turn.abortedBeforeCall || !CallModel(turn).Got?
        then None
    else Some(CallModel(turn).reply)
  }

  /** The reply with calls that an iteration takes up. */
  function TakenUp(turn: Turn): Option<Reply> {
    var reply := GotReply(turn);
    if reply.None? || turn.abortedAfterReply || reply.value.toolCalls == [] then None else reply
  }

  /** The iteration gets a reply with calls and is aborted before it takes them up. */
  predicate Drops(turn: Turn) {
    GotReply(turn).Some? && turn.abortedAfterReply && GotReply(turn).value.toolCalls != []
  }

  /** What an iteration does to the run. */
  datatype Iteration =
      Iteration(begins: bool, exit: Exit, calls: seq<ToolRequest>, done: seq<Effect>, spoiled: seq<string>, cut: bool,
                drops: bool)

  function PlanOf(input: RunInput, turn: Turn): Iteration {
    var reply := TakenUp(turn);
    if reply.None? then Iteration(!turn.abortedAtStart, IterationExit(input, turn), [], [], [], false, Drops(turn))
    else
      var s := CallsOutcome(input, reply.value, turn);
      Iteration(true, IterationExit(input, turn), Requests(reply.value), s.done, s.spoiled,
                CutShort(input, reply.value, turn), false)
  }

  /** An iteration that goes on took up every call of its reply. */
  lemma GoingOnIsUncut(input: RunInput, turn: Turn)
    requires PlanOf(input, turn).exit == Continue
    ensures !PlanOf(input, turn).cut
  {
    var reply := TakenUp(turn);
    if reply.Some? && !reply.value.truncated {
      var requests, invalid := Requests(reply.value), InvalidArgs(reply.value.toolCalls);
      LoopGoesOn(input, requests, invalid, turn, |requests| - 1, |requests|);
    }
  }

  /** What a run comes to: its exit, and what its iterations did in turn. */
  datatype Course = Course(iterations: nat, exit: Exit, calls: seq<ToolRequest>, done: seq<Effect>,
                           spoiled: seq<string>, cut: bool, drops: bool)

  const CourseStart := Course(0, Continue, [], [], [], false, false)

  function CourseNext(c: Course, i: Iteration): Course {
    Course(if i.begins then c.iterations + 1 else c.iterations, i.exit, c.calls + i.calls, c.done + i.done,
           c.spoiled + i.spoiled,
           c.cut || i.cut, c.drops || i.drops)
  }

  /** The run over `n` iterations; the first that ends it decides. */
  function CourseAfter(plans: nat -> Iteration, n: nat): Course {
    if n == 0 then CourseStart
    else
      var c := CourseAfter(plans, n - 1);
      if c.exit != Continue then c else CourseNext(c, plans(n - 1))
  }

  function Plans(input: RunInput, turns: nat -> Turn): nat -> Iteration {
    (i: nat) => PlanOf(input, turns(i))
  }

  /** The course of a run of the kernel. */
  function CourseOf(input: RunInput, turns: nat -> Turn): Course {
    if input.timeoutMs <= 0 then CourseStart.(exit := Return(TimedOut))
    else CourseAfter(Plans(input, turns), input.Limit())
  }

  lemma {:induction false} CourseStays(plans: nat -> Iteration, m: nat, n: nat)
    requires m <= n && CourseAfter(plans, m).exit != Continue
    ensures CourseAfter(plans, n) == CourseAfter(plans, m)
  {
    if m < n {
      CourseStays(plans, m, n - 1);
    }
  }

  /** A run that goes on stands at `c` after `n` iterations, or ended there before. */
  ghost predicate CourseAt(plans: nat -> Iteration, n: nat, c: Course) {
    forall k {:trigger Open(k)} :: Open(k) ==> c == CourseAfter(plans, n)
  }

  lemma CourseAtNext(plans: nat -> Iteration, n: nat, c: Course)
    requires CourseAt(plans, n, c) && c.exit == Continue
    ensures CourseAt(plans, n + 1, CourseNext(c, plans(n)))
  {
    assert Open(0);
  }

  /** The turns, with another one in the place of the `k`-th. */
  function Replaced(turns: nat -> Turn, k: nat, turn: Turn): nat -> Turn {
    (i: nat) => if i == k then turn else turns(i)
  }

  /** `c` is what a run that stands at `before` comes to by one more turn. */
  ghost predicate Follows(input: RunInput, before: Course, turn: Turn, c: Course) {
    forall k {:trigger Open(k)} :: Open(k) ==> c == CourseNext(before, PlanOf(input, turn))
  }

  lemma {:induction false} SameCourse(input: RunInput, turns: nat -> Turn, k: nat, turn: Turn, n: nat)
    requires n <= k
    ensures CourseAfter(Plans(input, Replaced(turns, k, turn)), n) == CourseAfter(Plans(input, turns), n)
  {
    if n > 0 {
      SameCourse(input, turns, k, turn, n - 1);
      assert Replaced(turns, k, turn)(n - 1) == turns(n - 1);
    }
  }

  /**
   The turn that ends the run may be another one: what comes before it stays, and what
   comes after does not matter.
   */
  lemma CourseReplaced(input: RunInput, turns: nat -> Turn, k: nat, turn: Turn, before: Course, c: Course, limit: nat)
    requires CourseAt(Plans(input, turns), k, before) && before.exit == Continue
    requires Follows(input, before, turn, c) && c.exit != Continue && k < limit
    ensures CourseAt(Plans(input, Replaced(turns, k, turn)), limit, c)
    ensures turn == turns(k) ==> CourseAt(Plans(input, turns), limit, c)
  {
    assert Open(0);
    var plans := Plans(input, Replaced(turns, k, turn));
    SameCourse(input, turns, k, turn, k);
    assert plans(k) == PlanOf(input, turn);
    CourseStays(plans, k + 1, limit);
    if turn == turns(k) {
      CourseStays(Plans(input, turns), k + 1, limit);
    }
  }

  lemma CourseAtMeans(plans: nat -> Iteration, n: nat, c: Course)
    requires CourseAt(plans, n, c)
    ensures c == CourseAfter(plans, n)
  {
    assert Open(0);
  }

  /** A turn as it was lived: rebuilding the message list may throw where the turn itself does not. */
  ghost predicate LivedAs(turn: Turn, lived: Turn) {
    lived == turn || (lived.buildThrows.Some? && lived == turn.(buildThrows := lived.buildThrows))
  }

  /**
   Every turn was lived as it is, but for the last of `iterations`: the message list of
   that one may have been impossible to rebuild because the serialiser is steady.
   */
  ghost predicate Lived(input: RunInput, turns: nat -> Turn, lived: nat -> Turn, iterations: nat) {
    forall i: nat ::
      lived(i) == turns(i) || (i + 1 == iterations && input.steadySerialiser && LivedAs(turns(i), lived(i)))
  }

  function Conclude(answer: Exit): FinalStatus {
    match answer
    case Return(status) => status
    case Throw(thrown) => if thrown.aborted then Cancelled else Failed
    case Continue => MaxIterationsReached
  }

  /** In the whole run of a remote agent nothing is dispatched. */
  lemma {:induction false} RemoteCourse(input: RunInput, turns: nat -> Turn, n: nat)
    requires input.remote
    ensures forall e :: e in CourseAfter(Plans(input, turns), n).done ==> e.Handled?
  {
    if n > 0 {
      RemoteCourse(input, turns, n - 1);
      RemotePlan(input, turns(n - 1));
    }
  }

  lemma RemotePlan(input: RunInput, turn: Turn)
    requires input.remote
    ensures forall e :: e in PlanOf(input, turn).done ==> e.Handled?
  {
    if TakenUp(turn).Some? {
      var reply := TakenUp(turn).value;
      OutcomeInOrder(input, reply, turn);
      RemoteNeverDispatches(input, Requests(reply), InvalidArgs(reply.toolCalls), |reply.toolCalls|);
      var done, expected := CallsOutcome(input, reply, turn).done, Expected(input, reply);
      forall e | e in done
        ensures e.Handled?
      {
        var i :| 0 <= i < |done| && done[i] == e;
        assert expected[i] == e && e in expected;
      }
    }
  }

  // ------------------------------------------------------------------------ items

  function ToolItem(id: string, request: ToolRequest, result: ToolResult): ContextItem {
    var content := ItemText(request, result);
    ContextItem(id, content, (|content| + 3) / 4, false, true, request.toolCallId)
  }

  function ItemText(request: ToolRequest, result: ToolResult): string {
    if result.error.Some? then "Tool " + request.toolName + " failed: " + result.error.value.message
    else "Tool " + request.toolName + " result: " + result.payload
  }

  function Additions(items: seq<ContextItem>): (events: seq<ItemEvent>)
    ensures |events| == |items|
  {
    seq(|items|, i requires 0 <= i < |items| => Added(items[i]))
  }

  lemma {:induction false} AdditionsSurvive(items: seq<ContextItem>, mustKeep: set<string>)
    ensures Tracks(items, Additions(items), mustKeep)
  {
    if items != [] {
      var init, last := items[..|items| - 1], items[|items| - 1];
      AdditionsSurvive(init, mustKeep);
      assert Additions(items) == Additions(init) + [Added(last)];
      assert items == init + [last];
      TracksAdd(init, Additions(init), mustKeep, last);
    }
  }

  lemma ItemsAtTheEnd(items: seq<ContextItem>, history: seq<ItemEvent>, mustKeep: set<string>)
    requires Tracks(items, history, mustKeep)
    ensures items == NeverNamed(history, |history|)
    ensures forall k :: 0 <= k < |history| && history[k].Added? && Protected(history[k].item, mustKeep)
              ==> history[k].item in items
  {
    assert Open(0);
    SurvivorsAreNeverNamed(history);
    forall k | 0 <= k < |history| && history[k].Added? && Protected(history[k].item, mustKeep)
      ensures history[k].item in items
    {
      ProtectedSurvives(history, mustKeep, k);
    }
  }

  /** An answer of the compaction executor that the kernel applies. */
  predicate Applies(outcome: CompactOutcome, items: seq<ContextItem>, mustKeep: set<string>) {
    outcome.Applied? && (set id | id in outcome.compactedItemIds) !! ProtectedIds(items, mustKeep)
  }
}
