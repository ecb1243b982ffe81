/**
 What the course of a run means in terms of the run's input and of the answers
 its environment gave, field by field: which calls are executed, how a reply's
 calls end the run, which result a dispatched call gets, how turns and runs end.
 */
module KernelLaws {
  import opened Common
  import opened PairingGuard
  import opened Transcript
  import opened Compaction
  import opened Ledger
  import opened KernelSpec

  // ------------------------------------------------------------- who is executed

  /** The arguments of every call with this call's id could be parsed. */
  ghost predicate Readable(calls: seq<ToolCall>, i: nat)
    requires i < |calls|
  {
    forall j :: 0 <= j < |calls| && calls[j].id == calls[i].id ==> calls[j].args.Parsed?
  }

  /** An internal handler is registered for the tool; it comes before any dispatch. */
  ghost predicate ForHandler(input: RunInput, call: ToolCall) {
    call.name in input.internalHandlers
  }

  /** The tool has no handler, is projected, and the agent is not remote. */
  ghost predicate ForDispatch(input: RunInput, call: ToolCall) {
    && call.name !in input.internalHandlers
    && input.projectedTools.Some? && call.name in input.projectedTools.value && !input.remote
  }

  /** `e` is what the `i`-th call of a reply causes. */
  ghost predicate CausedBy(input: RunInput, calls: seq<ToolCall>, i: nat, e: Effect)
    requires i < |calls|
  {
    var c := calls[i];
    && Readable(calls, i) && e.request == ToolRequest(c.id, c.name, c.args.params)
    && if e.Handled? then ForHandler(input, c) else ForDispatch(input, c)
  }

  /** The `k`-th effect is caused by the call at `places[k]`, and the calls come in request order. */
  ghost predicate InRequestOrder(input: RunInput, calls: seq<ToolCall>, places: seq<nat>, done: seq<Effect>) {
    && |places| == |done|
    && (forall k, m :: 0 <= k < m < |places| ==> places[k] < places[m])
    && forall k :: 0 <= k < |places| ==> places[k] < |calls| && CausedBy(input, calls, places[k], done[k])
  }

  lemma {:induction false} InvalidArgsMeans(calls: seq<ToolCall>, id: string)
    ensures id in InvalidArgs(calls) <==>
              exists j :: 0 <= j < |calls| && calls[j].id == id && calls[j].args.Unparseable?
  {
    if calls != [] {
      var init, last := calls[..|calls| - 1], calls[|calls| - 1];
      InvalidArgsMeans(init, id);
      assert calls == init + [last];
      assert forall j :: 0 <= j < |init| ==> init[j] == calls[j];
    }
  }

  lemma AdmitMeans(input: RunInput, reply: Reply, i: nat)
    requires i < |reply.toolCalls|
    ensures var admitted := Admit(input, Requests(reply)[i], InvalidArgs(reply.toolCalls));
            && |admitted| <= 1
            && (admitted != [] ==> CausedBy(input, reply.toolCalls, i, admitted[0]))
            && (admitted == [] ==> !Executable(input, reply.toolCalls, i))
  {
    InvalidArgsMeans(reply.toolCalls, reply.toolCalls[i].id);
  }

  /** The call may be executed. */
  ghost predicate Executable(input: RunInput, calls: seq<ToolCall>, i: nat)
    requires i < |calls|
  {
    Readable(calls, i) && (ForHandler(input, calls[i]) || ForDispatch(input, calls[i]))
  }

  /** Every executable call among the first `n` is at one of the places. */
  ghost predicate NoneMissing(input: RunInput, calls: seq<ToolCall>, places: seq<nat>, n: nat)
    requires n <= |calls|
  {
    forall i :: 0 <= i < n && Executable(input, calls, i) ==> i in places
  }

  /** One call more: it causes its one effect, or it may not be executed. */
  lemma NextPlace(input: RunInput, calls: seq<ToolCall>, places: seq<nat>, done: seq<Effect>, n: nat,
                  admitted: seq<Effect>)
    requires n < |calls| && InRequestOrder(input, calls, places, done) && NoneMissing(input, calls, places, n)
    requires forall k :: 0 <= k < |places| ==> places[k] < n
    requires |admitted| <= 1 && (admitted != [] ==> CausedBy(input, calls, n, admitted[0]))
    requires admitted == [] ==> !Executable(input, calls, n)
    ensures var more := places + (if admitted == [] then [] else [n]);
            && InRequestOrder(input, calls, more, done + admitted) && NoneMissing(input, calls, more, n + 1)
            && forall k :: 0 <= k < |more| ==> more[k] < n + 1
  {
    var more := places + (if admitted == [] then [] else [n]);
    forall i | 0 <= i < n + 1 && Executable(input, calls, i)
      ensures i in more
    {
      if i == n {
        assert more[|places|] == n;
      }
    }
  }

  /** `done` is what the first `n` calls of the reply may cause. */
  ghost predicate MayCause(input: RunInput, reply: Reply, n: nat, done: seq<Effect>) {
    && n <= |reply.toolCalls|
    && forall k {:trigger Open(k)} :: Open(k) ==>
         done == Admitted(input, Requests(reply), InvalidArgs(reply.toolCalls), n)
  }

  lemma NextAdmitted(input: RunInput, reply: Reply, n: nat, done: seq<Effect>) returns (admitted: seq<Effect>)
    requires MayCause(input, reply, n, done) && n < |reply.toolCalls|
    ensures MayCause(input, reply, n + 1, done + admitted) && |admitted| <= 1
    ensures admitted != [] ==> CausedBy(input, reply.toolCalls, n, admitted[0])
    ensures admitted == [] ==> !Executable(input, reply.toolCalls, n)
  {
    assert Open(0);
    admitted := Admit(input, Requests(reply)[n], InvalidArgs(reply.toolCalls));
    AdmitMeans(input, reply, n);
  }

  /** Where the calls stand that may cause something. */
  lemma {:induction false} PlacesOf(input: RunInput, reply: Reply, n: nat) returns (places: seq<nat>, done: seq<Effect>)
    requires n <= |reply.toolCalls|
    ensures MayCause(input, reply, n, done) && InRequestOrder(input, reply.toolCalls, places, done)
    ensures (forall k :: 0 <= k < |places| ==> places[k] < n) && NoneMissing(input, reply.toolCalls, places, n)
  {
    places, done := [], [];
    if n > 0 {
      places, done := PlacesOf(input, reply, n - 1);
      var admitted := NextAdmitted(input, reply, n - 1, done);
      NextPlace(input, reply.toolCalls, places, done, n - 1, admitted);
      places, done := places + (if admitted == [] then [] else [n - 1]), done + admitted;
    }
  }

  /**
   For every reply: each effect is caused by a call of its own, in request order; what is
   dispatched is projected, has no handler, and the agent is not remote; what is handled has a
   handler; all of them could be read. A truncated reply causes nothing. If the run goes
   on, every call that may be handled or dispatched was.
   */
  lemma EffectsAreCaused(input: RunInput, reply: Reply, turn: Turn)
    ensures var s := CallsOutcome(input, reply, turn);
            exists places: seq<nat> :: AreCauses(input, reply, places, s.done, s.exit)
  {
    var s := CallsOutcome(input, reply, turn);
    OutcomeInOrder(input, reply, turn);
    if reply.truncated {
      assert AreCauses(input, reply, [], s.done, s.exit);
    } else {
      var all, expected := PlacesOf(input, reply, |reply.toolCalls|);
      ExpectedIs(input, reply, expected);
      CausesOfPrefix(input, reply, all, expected, s.done, s.exit);
      assert AreCauses(input, reply, all[..|s.done|], s.done, s.exit);
    }
  }

  /** The effects are caused in request order: none for a truncated reply, and all there may be if the run goes on. */
  ghost predicate AreCauses(input: RunInput, reply: Reply, places: seq<nat>, done: seq<Effect>, exit: Exit) {
    && InRequestOrder(input, reply.toolCalls, places, done)
    && (reply.truncated ==> places == [])
    && (!reply.truncated && exit == Continue ==>
          NoneMissing(input, reply.toolCalls, places, |reply.toolCalls|))
  }

  lemma ExpectedIs(input: RunInput, reply: Reply, expected: seq<Effect>)
    requires !reply.truncated && MayCause(input, reply, |reply.toolCalls|, expected)
    ensures expected == Expected(input, reply)
  {
    assert Open(0);
  }

  lemma CausesOfPrefix(input: RunInput, reply: Reply, all: seq<nat>, expected: seq<Effect>, done: seq<Effect>,
                       exit: Exit)
    requires InRequestOrder(input, reply.toolCalls, all, expected) && done <= expected && !reply.truncated
    requires exit == Continue ==> done == expected
    requires NoneMissing(input, reply.toolCalls, all, |reply.toolCalls|)
    ensures AreCauses(input, reply, all[..|done|], done, exit)
  {
    assert exit == Continue ==> all[..|done|] == all;
  }

  /** One of the first `n` turns took up a reply with a call that causes `e`. */
  ghost predicate Caused(input: RunInput, turns: nat -> Turn, n: nat, e: Effect) {
    exists i, k :: 0 <= i < n && CausedIn(input, turns(i), k, e)
  }

  ghost predicate CausedIn(input: RunInput, turn: Turn, k: nat, e: Effect) {
    && TakenUp(turn).Some? && !TakenUp(turn).value.truncated
    && k < |TakenUp(turn).value.toolCalls| && CausedBy(input, TakenUp(turn).value.toolCalls, k, e)
  }

  lemma PlanEffects(input: RunInput, turn: Turn, e: Effect)
    requires e in PlanOf(input, turn).done
    ensures exists k :: CausedIn(input, turn, k, e)
  {
    var reply := TakenUp(turn).value;
    EffectsAreCaused(input, reply, turn);
    var done := CallsOutcome(input, reply, turn).done;
    var places: seq<nat> :| AreCauses(input, reply, places, done, CallsOutcome(input, reply, turn).exit);
    var m :| 0 <= m < |done| && done[m] == e;
    assert CausedIn(input, turn, places[m], e);
  }

  lemma CausedLater(input: RunInput, turns: nat -> Turn, m: nat, n: nat, e: Effect)
    requires Caused(input, turns, m, e) && m <= n
    ensures Caused(input, turns, n, e)
  {
    var i, k :| 0 <= i < m && CausedIn(input, turns(i), k, e);
    assert CausedIn(input, turns(i), k, e);
  }

  /** One turn more adds the effects that it causes. */
  lemma NextEffects(input: RunInput, turns: nat -> Turn, n: nat, e: Effect)
    requires e in PlanOf(input, turns(n)).done
    ensures Caused(input, turns, n + 1, e)
  {
    PlanEffects(input, turns(n), e);
    var k :| CausedIn(input, turns(n), k, e);
    assert CausedIn(input, turns(n), k, e);
  }

  /** The `i`-th plan begins if it does anything or goes on, and its turn causes what it does. */
  ghost predicate PlanCaused(input: RunInput, turns: nat -> Turn, plan: Iteration, i: nat) {
    && (plan.done != [] || plan.exit == Continue ==> plan.begins)
    && forall e :: e in plan.done ==> Caused(input, turns, i + 1, e)
  }

  lemma PlanBegins(input: RunInput, turn: Turn)
    ensures PlanOf(input, turn).done != [] || PlanOf(input, turn).exit == Continue ==> PlanOf(input, turn).begins
  {
  }

  lemma PlansCaused(input: RunInput, turns: nat -> Turn, plan: Iteration, i: nat)
    requires plan == PlanOf(input, turns(i))
    ensures PlanCaused(input, turns, plan, i)
  {
    PlanBegins(input, turns(i));
    forall e | e in plan.done
      ensures Caused(input, turns, i + 1, e)
    {
      NextEffects(input, turns, i, e);
    }
  }

  ghost predicate CourseCaused(input: RunInput, turns: nat -> Turn, c: Course, n: nat) {
    && c.iterations <= n && (c.exit == Continue ==> c.iterations == n)
    && forall e :: e in c.done ==> Caused(input, turns, c.iterations, e)
  }

  lemma NextCourseCaused(input: RunInput, turns: nat -> Turn, c: Course, plan: Iteration, n: nat)
    requires CourseCaused(input, turns, c, n) && c.exit == Continue && PlanCaused(input, turns, plan, n)
    ensures CourseCaused(input, turns, CourseNext(c, plan), n + 1)
  {
    var next := CourseNext(c, plan);
    forall e | e in next.done
      ensures Caused(input, turns, next.iterations, e)
    {
      if e in c.done {
        CausedLater(input, turns, n, next.iterations, e);
      }
    }
  }

  /** Whatever a run executes was caused by a call of one of the replies it took up. */
  lemma {:induction false} CourseEffects(input: RunInput, turns: nat -> Turn, plans: nat -> Iteration, n: nat)
    requires forall i: nat :: PlanCaused(input, turns, plans(i), i)
    ensures CourseCaused(input, turns, CourseAfter(plans, n), n)
  {
    if n > 0 {
      CourseEffects(input, turns, plans, n - 1);
      if CourseAfter(plans, n - 1).exit == Continue {
        NextCourseCaused(input, turns, CourseAfter(plans, n - 1), plans(n - 1), n - 1);
      }
    }
  }

  /** An effect that was caused respects the input's handlers and projection. */
  lemma CausedIsAllowed(input: RunInput, turns: nat -> Turn, n: nat, e: Effect)
    requires Caused(input, turns, n, e)
    ensures if e.Handled? then e.request.toolName in input.internalHandlers
            else && e.request.toolName !in input.internalHandlers && !input.remote
                 && input.projectedTools.Some? && e.request.toolName in input.projectedTools.value
  {
  }

  /** The same for the whole run. */
  lemma RunEffects(input: RunInput, turns: nat -> Turn)
    ensures var c := CourseOf(input, turns); forall e :: e in c.done ==> Caused(input, turns, c.iterations, e)
  {
    forall i: nat
      ensures PlanCaused(input, turns, Plans(input, turns)(i), i)
    {
      PlansCaused(input, turns, Plans(input, turns)(i), i);
    }
    CourseEffects(input, turns, Plans(input, turns), input.Limit());
  }

  // ------------------------------------------------------- how a reply's calls end

  /** The `k`-th call can be read and goes to an internal handler. */
  ghost predicate IsHandled(input: RunInput, requests: seq<ToolRequest>, invalid: map<string, string>, k: nat)
    requires k < |requests|
  {
    requests[k].toolCallId !in invalid && requests[k].toolName in input.internalHandlers
  }

  /** One of the first `n` calls was handled, and its handler's answer asks to stop. */
  ghost predicate StopAsked(input: RunInput, requests: seq<ToolRequest>, invalid: map<string, string>, turn: Turn,
                            n: nat)
    requires n <= |requests|
  {
    exists k :: 0 <= k < n && IsHandled(input, requests, invalid, k)
             && turn.handlers(k).Answered? && turn.handlers(k).stop
  }

  /** The answer was serialised for its context item; an answer with an error always is. */
  ghost predicate WasRecorded(h: HandlerOutcome) {
    h.Answered? && (h.result.error.Some? || h.recording.None?)
  }

  /** How a handled call ends the loop whose buffered results threw nothing. */
  function HandledEnd(h: HandlerOutcome, stopAsked: bool, aborted: bool): Exit {
    if h.Answered? && (h.result.error.Some? || h.recording.None?) && stopAsked then Return(Completed)
    else if aborted then Return(Cancelled) else Continue
  }

  /** One call, by where it goes: without a handler it ends nothing; a handler waits for the buffered calls. */
  ghost predicate StepMeans(c: Loop, handled: bool, request: ToolRequest, buffer: seq<ToolRequest>, stopping: bool,
                            fault: Option<Thrown>, h: HandlerOutcome, aborted: bool)
  {
    if !handled then c.exit == Continue && c.stopping == stopping && c.spoiled == [] && c.done == []
    else if fault.Some? then
      c.exit == Throw(fault.value) && c.stopping == stopping && c.spoiled == [] && c.done == DispatchEffects(buffer)
    else
      && c.stopping == (stopping || (h.Answered? && h.stop)) && c.exit == HandledEnd(h, c.stopping, aborted)
      && c.spoiled == (if h.Answered? && !WasRecorded(h) then [h.result.toolCallId] else [])
      && c.done == DispatchEffects(buffer) + [Handled(request)] && c.buffer == []
  }

  lemma StepCallMeans(input: RunInput, request: ToolRequest, invalid: map<string, string>, buffer: seq<ToolRequest>,
                      stopping: bool, dispatch: DispatchOutcome, h: HandlerOutcome, aborted: bool)
    ensures StepMeans(StepCall(input, request, invalid, buffer, stopping, dispatch, h, aborted),
                      request.toolCallId !in invalid && request.toolName in input.internalHandlers,
                      request, buffer, stopping, BatchThrows(dispatch, buffer), h, aborted)
  {
  }

  lemma StopAskedNext(input: RunInput, requests: seq<ToolRequest>, invalid: map<string, string>, turn: Turn, n: nat)
    requires n < |requests|
    ensures StopAsked(input, requests, invalid, turn, n + 1) <==>
              StopAsked(input, requests, invalid, turn, n)
              || (IsHandled(input, requests, invalid, n) && turn.handlers(n).Answered? && turn.handlers(n).stop)
  {
  }

  /** A loop that goes on went on before. */
  lemma EarlierLoop(input: RunInput, requests: seq<ToolRequest>, invalid: map<string, string>, turn: Turn, n: nat,
                    s: Loop) returns (p: Loop)
    requires 0 < n <= |requests| && LoopAt(input, requests, invalid, turn, n, s) && s.exit == Continue
    ensures LoopAt(input, requests, invalid, turn, n - 1, p) && p.exit == Continue
  {
    assert Open(0);
    LoopGoesOn(input, requests, invalid, turn, n - 1, n);
    p := LoopAfter(input, requests, invalid, turn, n - 1);
  }

  /** What dispatching the calls buffered before the `n`-th one throws. */
  ghost predicate FaultIs(turn: Turn, n: nat, buffer: seq<ToolRequest>, fault: Option<Thrown>) {
    forall k {:trigger Open(k)} :: Open(k) ==> fault == BatchThrows(turn.dispatches(n), buffer)
  }

  lemma LoopStepAt(input: RunInput, requests: seq<ToolRequest>, invalid: map<string, string>, turn: Turn, n: nat,
                   p: Loop) returns (c: Loop, fault: Option<Thrown>)
    requires n < |requests| && LoopAt(input, requests, invalid, turn, n, p) && p.exit == Continue
    ensures LoopAt(input, requests, invalid, turn, n + 1, LoopNext(p, c)) && FaultIs(turn, n, p.buffer, fault)
    ensures StepMeans(c, IsHandled(input, requests, invalid, n), requests[n], p.buffer, p.stopping, fault,
                      turn.handlers(n), turn.abortedAfterHandler(n))
  {
    c := StepCall(input, requests[n], invalid, p.buffer, p.stopping, turn.dispatches(n), turn.handlers(n),
                  turn.abortedAfterHandler(n));
    fault := BatchThrows(turn.dispatches(n), p.buffer);
    LoopAtNext(input, requests, invalid, turn, n, p, c);
    StepCallMeans(input, requests[n], invalid, p.buffer, p.stopping, turn.dispatches(n), turn.handlers(n),
                  turn.abortedAfterHandler(n));
  }

  lemma SameLoop(input: RunInput, requests: seq<ToolRequest>, invalid: map<string, string>, turn: Turn, n: nat,
                 a: Loop, b: Loop)
    requires n <= |requests| && LoopAt(input, requests, invalid, turn, n, a)
    requires LoopAt(input, requests, invalid, turn, n, b)
    ensures a == b
  {
    assert Open(0);
  }

  /**
   While the loop goes on: it is stopping if and only if one of the handlers so far
   asked for it, and what is buffered is everything since the last handled call.
   */
  lemma {:induction false} LoopVariablesMean(input: RunInput, requests: seq<ToolRequest>, invalid: map<string, string>,
                                             turn: Turn, n: nat, s: Loop)
    requires n <= |requests| && LoopAt(input, requests, invalid, turn, n, s) && s.exit == Continue
    ensures s.stopping <==> StopAsked(input, requests, invalid, turn, n)
    ensures s.done == [] || s.done[|s.done| - 1].Handled?
  {
    if n > 0 {
      var p := EarlierLoop(input, requests, invalid, turn, n, s);
      var c, fault := LoopStepAt(input, requests, invalid, turn, n - 1, p);
      SameLoop(input, requests, invalid, turn, n, s, LoopNext(p, c));
      LoopVariablesMean(input, requests, invalid, turn, n - 1, p);
      StopAskedNext(input, requests, invalid, turn, n - 1);
      NextVariables(p, c, IsHandled(input, requests, invalid, n - 1), requests[n - 1], fault, turn.handlers(n - 1),
                    turn.abortedAfterHandler(n - 1));
    } else {
      assert Open(0);
    }
  }

  /** A step that goes on adds its own stop, and leaves a handled call as the last thing done, if anything. */
  lemma NextVariables(s: Loop, c: Loop, handled: bool, request: ToolRequest, fault: Option<Thrown>, h: HandlerOutcome,
                      aborted: bool)
    requires StepMeans(c, handled, request, s.buffer, s.stopping, fault, h, aborted) && c.exit == Continue
    ensures LoopNext(s, c).stopping == (s.stopping || (handled && h.Answered? && h.stop))
    ensures LoopNext(s, c).done == s.done
            || (c.done != [] && LoopNext(s, c).done[|LoopNext(s, c).done| - 1] == Handled(request))
  {
    assert s.done + [] == s.done;
  }

  /**
   What the `n`-th call does to a loop that goes on. A call without a handler never ends it. A
   handled call waits for the buffered ones, whose results may throw; then the run
   ends as completed if its answer was recorded and a stop was asked for by it or before
   it, as cancelled if the run was aborted meanwhile, and goes on otherwise.
   */
  lemma CallEnds(input: RunInput, requests: seq<ToolRequest>, invalid: map<string, string>, turn: Turn, n: nat,
                 s: Loop, next: Loop, fault: Option<Thrown>)
    requires n < |requests| && LoopAt(input, requests, invalid, turn, n, s) && s.exit == Continue
    requires LoopAt(input, requests, invalid, turn, n + 1, next) && FaultIs(turn, n, s.buffer, fault)
    ensures var h := turn.handlers(n);
            if !IsHandled(input, requests, invalid, n) then
              next.exit == Continue && next.spoiled == s.spoiled && next.done == s.done
            else if fault.Some? then
              && next.exit == Throw(fault.value) && next.spoiled == s.spoiled
              && next.done == s.done + DispatchEffects(s.buffer)
            else
              && next.exit == (if WasRecorded(h) && StopAsked(input, requests, invalid, turn, n + 1)
                               then Return(Completed)
                               else if turn.abortedAfterHandler(n) then Return(Cancelled) else Continue)
              && next.spoiled == s.spoiled + (if h.Answered? && !WasRecorded(h) then [h.result.toolCallId] else [])
              && next.done == s.done + (DispatchEffects(s.buffer) + [Handled(requests[n])])
  {
    LoopVariablesMean(input, requests, invalid, turn, n, s);
    StopAskedNext(input, requests, invalid, turn, n);
    var c, thrown := LoopStepAt(input, requests, invalid, turn, n, s);
    SameLoop(input, requests, invalid, turn, n + 1, next, LoopNext(s, c));
    SameFault(turn, n, s.buffer, fault, thrown);
    assert s.spoiled + [] == s.spoiled && s.done + [] == s.done;
  }

  lemma SameFault(turn: Turn, n: nat, buffer: seq<ToolRequest>, a: Option<Thrown>, b: Option<Thrown>)
    requires FaultIs(turn, n, buffer, a) && FaultIs(turn, n, buffer, b)
    ensures a == b
  {
    assert Open(0);
  }

  /** After the last call: a result that throws ends the run, and so does a batch all of whose results ask for it. */
  lemma LastBatchEnds(input: RunInput, reply: Reply, turn: Turn)
    requires !reply.truncated
    ensures var n, s := |reply.toolCalls|, CallsOutcome(input, reply, turn);
            var before := LoopAfter(input, Requests(reply), InvalidArgs(reply.toolCalls), turn, n);
            before.exit == Continue ==>
              var fault, results := BatchThrows(turn.dispatches(n), before.buffer),
                  BatchResults(turn.dispatches(n), before.buffer);
              s.exit == if fault.Some? then Throw(fault.value)
                        else if results != [] && forall i :: 0 <= i < |results| ==> results[i].terminate
                        then Return(Completed) else Continue
  {
  }

  // ------------------------------------------------------------ the results of a batch

  /** The `k`-th raw result is meant for this id: it reports it, or stands in its place and reports none. */
  ghost predicate Names(results: seq<Option<ExecResult>>, batch: seq<ToolRequest>, k: nat, id: string)
    requires k < |batch|
  {
    && k < |results| && results[k].Some?
    && match results[k].value.reportedId
       case Some(reported) => reported == id
       case None => batch[k].toolCallId == id
  }

  /** The last raw result among the first `n` that is meant for an id. */
  ghost predicate LastNamed(results: seq<Option<ExecResult>>, batch: seq<ToolRequest>, n: nat, k: nat, id: string)
    requires n <= |batch|
  {
    k < n && Names(results, batch, k, id) && forall m :: k < m < n ==> !Names(results, batch, m, id)
  }

  lemma {:induction false} ExecMapMeans(results: seq<Option<ExecResult>>, batch: seq<ToolRequest>, n: nat, id: string)
    requires n <= |batch|
    ensures var exec := ExecMap(results, batch, n);
            && (id in exec ==> exists k: nat :: LastNamed(results, batch, n, k, id) && exec[id] == results[k].value)
            && (id !in exec ==> forall k :: 0 <= k < n ==> !Names(results, batch, k, id))
  {
    if n > 0 {
      ExecMapMeans(results, batch, n - 1, id);
      var exec, before := ExecMap(results, batch, n), ExecMap(results, batch, n - 1);
      if Names(results, batch, n - 1, id) {
        assert LastNamed(results, batch, n, n - 1, id) && exec[id] == results[n - 1].value;
      } else if id in before {
        var k: nat :| LastNamed(results, batch, n - 1, k, id) && before[id] == results[k].value;
        assert LastNamed(results, batch, n, k, id) && exec[id] == before[id];
      }
    }
  }

  /**
   The result of each dispatched call: the error if dispatching threw; else the last raw
   result meant for the call, with its data if it succeeded; else the whole payload
   of a dispatch that completed, or its error.
   */
  lemma ResultOfCall(outcome: DispatchOutcome, batch: seq<ToolRequest>, i: nat)
    requires i < |batch|
    ensures var id, r := batch[i].toolCallId, BatchResults(outcome, batch)[i];
            && r.toolCallId == id
            && match outcome
               case DispatchThrew(message) =>
                 r.payload == "null" && r.error == Some(ToolError(DISPATCH_ERROR, message, true)) && !r.terminate
               case DispatchReturned(completed, error, payload, results, _) =>
                 || (exists k: nat :: LastNamed(results, batch, |batch|, k, id)
                       && r.error == results[k].value.error && r.terminate == results[k].value.terminate
                       && r.payload == if results[k].value.success then results[k].value.data else "null")
                 || ((forall k :: 0 <= k < |batch| ==> !Names(results, batch, k, id)) && !r.terminate
                     && if completed && error.None? then r.error.None? && r.payload == payload
                        else r.payload == "null" && r.error == Some(if error.Some? then error.value
                               else ToolError(DISPATCH_FAILED, "Tool dispatch failed", false)))
  {
    if outcome.DispatchReturned? {
      ExecMapMeans(outcome.results, batch, |batch|, batch[i].toolCallId);
    }
  }

  /** Serialising the `i`-th result of a batch throws this; a result with an error is not serialised. */
  ghost predicate ThrowsAt(outcome: DispatchOutcome, batch: seq<ToolRequest>, i: nat, thrown: Thrown)
    requires i < |batch|
  {
    && outcome.DispatchReturned? && BatchResults(outcome, batch)[i].error.None?
    && outcome.recording(i) == Some(thrown)
  }

  /** A batch throws what the first of its results throws that cannot be serialised, and commits up to that one. */
  lemma BatchThrowsFirst(outcome: DispatchOutcome, batch: seq<ToolRequest>)
    ensures var thrown, n := BatchThrows(outcome, batch), Committed(outcome, batch);
            if thrown.Some? then
              && 0 < n <= |batch| && ThrowsAt(outcome, batch, n - 1, thrown.value)
              && forall i, t :: 0 <= i < n - 1 ==> !ThrowsAt(outcome, batch, i, t)
            else n == |batch| && forall i, t :: 0 <= i < |batch| ==> !ThrowsAt(outcome, batch, i, t)
  {
    var faults := Faults(outcome, batch);
    assert forall i :: 0 <= i < |batch| ==> faults[i] == FaultAt(outcome, BatchResults(outcome, batch)[i], i);
  }

  // ------------------------------------------------------------ how turns and runs end

  /** The turn reaches its model call. */
  ghost predicate CallsModel(turn: Turn) {
    !turn.abortedAtStart && !turn.timedOut && turn.buildThrows.None? && !turn.abortedBeforeCall
  }

  /** The model is asked for a plain completion, at once or because streaming yielded nothing usable. */
  ghost predicate Completes(turn: Turn) {
    !turn.streaming || turn.stream.StreamEmpty? || turn.stream.StreamError?
  }

  /** The reply the model gives, streamed or as a plain completion. */
  ghost predicate Replies(turn: Turn, reply: Reply) {
    || (turn.streaming && turn.stream == StreamReply(reply))
    || (Completes(turn) && turn.complete == CompleteReply(reply))
  }

  /** Streaming failed and the completion asked for instead has neither content nor calls. */
  ghost predicate FellBackToNothing(turn: Turn) {
    && turn.streaming && Completes(turn) && turn.complete.CompleteReply?
    && turn.complete.reply.content == "" && turn.complete.reply.toolCalls == []
  }

  /** A reply's calls end the run as completed, as cancelled, or with an exception. */
  lemma {:induction false} CallsExitKinds(input: RunInput, requests: seq<ToolRequest>, invalid: map<string, string>,
                                          turn: Turn, n: nat)
    requires n <= |requests|
    ensures var exit := LoopAfter(input, requests, invalid, turn, n).exit;
            exit.Return? ==> exit.status == Completed || exit.status == Cancelled
  {
    if n > 0 {
      CallsExitKinds(input, requests, invalid, turn, n - 1);
      if LoopAfter(input, requests, invalid, turn, n - 1).exit == Continue {
        StepExitKinds(input, requests, invalid, turn, n - 1);
      }
    }
  }

  lemma StepExitKinds(input: RunInput, requests: seq<ToolRequest>, invalid: map<string, string>, turn: Turn, n: nat)
    requires n < |requests| && LoopAfter(input, requests, invalid, turn, n).exit == Continue
    ensures var exit := LoopAfter(input, requests, invalid, turn, n + 1).exit;
            exit.Return? ==> exit.status == Completed || exit.status == Cancelled
  {
    var s := LoopAfter(input, requests, invalid, turn, n);
    var c, fault := LoopStepAt(input, requests, invalid, turn, n, s);
    LoopAtMeans(input, requests, invalid, turn, n + 1, LoopNext(s, c));
  }

  /** How the calls of a reply end the run; a truncated reply's calls never do. */
  function CallsExit(input: RunInput, reply: Reply, turn: Turn): (exit: Exit)
    ensures reply.truncated ==> exit == Continue
    ensures exit.Return? ==> exit.status == Completed || exit.status == Cancelled
  {
    CallsExitKinds(input, Requests(reply), InvalidArgs(reply.toolCalls), turn, |reply.toolCalls|);
    CallsOutcome(input, reply, turn).exit
  }

  /** A turn that gets a reply and is not aborted before taking it up. */
  ghost predicate TakesUp(turn: Turn, reply: Reply) {
    CallsModel(turn) && Replies(turn, reply) && !FellBackToNothing(turn) && !turn.abortedAfterReply
  }

  /** The model's answer is no reply, or an empty one after streaming failed. */
  lemma AnswerWithoutReply(input: RunInput, turn: Turn)
    requires CallsModel(turn) && forall reply :: !TakesUp(turn, reply)
    ensures IterationExit(input, turn) ==
              if turn.streaming && turn.stream.StreamTimeout? then Return(Failed)
              else if turn.streaming && turn.stream.StreamAborted? then Throw(Thrown(true, turn.stream.message))
              else if Completes(turn) && turn.complete.CompleteFailed? then Return(Failed)
              else if Completes(turn) && turn.complete.CompleteThrew? then
                Throw(Thrown(turn.complete.aborted, turn.complete.message))
              else if FellBackToNothing(turn) then Return(Completed) else Return(Cancelled)
  {
    if CallModel(turn).Got? {
      assert !TakesUp(turn, CallModel(turn).reply);
    }
  }

  /** A reply taken up: its calls decide, or else its content, its reasoning, or nothing. */
  lemma ReplyTakenUp(input: RunInput, turn: Turn, reply: Reply)
    requires TakesUp(turn, reply)
    ensures IterationExit(input, turn) ==
              if reply.toolCalls != [] then CallsExit(input, reply, turn)
              else if reply.content != "" then Return(if turn.contentValid then Completed else Failed)
              else if reply.reasoning != "" then Return(Completed) else Continue
  {
  }

  /** A turn that never calls the model. */
  lemma TurnWithoutCall(input: RunInput, turn: Turn)
    requires !CallsModel(turn)
    ensures IterationExit(input, turn) ==
              if turn.abortedAtStart then Return(Cancelled)
              else if turn.timedOut then Return(TimedOut)
              else if turn.buildThrows.Some? then Throw(turn.buildThrows.value) else Return(Cancelled)
  {
  }

  /** A turn lets the run go on exactly if it takes up a reply whose calls do, or one that says nothing at all. */
  lemma TurnGoesOnIff(input: RunInput, turn: Turn)
    ensures IterationExit(input, turn) == Continue <==>
              exists reply :: TakesUp(turn, reply)
                && (if reply.toolCalls != [] then CallsExit(input, reply, turn) == Continue
                    else reply.content == "" && reply.reasoning == "")
  {
    if reply :| TakesUp(turn, reply) {
      ReplyTakenUp(input, turn, reply);
      assert forall other :: TakesUp(turn, other) ==> other == reply;
    } else if CallsModel(turn) {
      AnswerWithoutReply(input, turn);
    } else {
      TurnWithoutCall(input, turn);
    }
  }

  lemma PlanEnds(input: RunInput, turn: Turn)
    ensures PlanOf(input, turn).exit == IterationExit(input, turn)
    ensures PlanOf(input, turn).begins <==> !turn.abortedAtStart
  {
  }

  /** The first plan that does not go on is the `k`-th, and the course ended with it. */
  ghost predicate EndsAt(plans: nat -> Iteration, k: nat, c: Course) {
    && c.exit == plans(k).exit != Continue && c.iterations == (if plans(k).begins then k + 1 else k)
    && forall i :: 0 <= i < k ==> plans(i).exit == Continue
  }

  /** All of the first `n` plans go on. */
  ghost predicate AllGoOn(plans: nat -> Iteration, n: nat, c: Course) {
    c.exit == Continue && c.iterations == n && forall i :: 0 <= i < n ==> plans(i).exit == Continue
  }

  /** How the iterations of a run end: all of them let it go on, or the run ends as the first that does not. */
  lemma {:induction false} IterationsEnd(plans: nat -> Iteration, n: nat)
    requires forall i: nat :: plans(i).exit == Continue ==> plans(i).begins
    ensures var c := CourseAfter(plans, n); AllGoOn(plans, n, c) || exists k :: 0 <= k < n && EndsAt(plans, k, c)
  {
    if n > 0 {
      IterationsEnd(plans, n - 1);
      var c, next := CourseAfter(plans, n - 1), CourseAfter(plans, n);
      if AllGoOn(plans, n - 1, c) {
        assert next.exit != Continue ==> EndsAt(plans, n - 1, next);
      } else {
        var k :| 0 <= k < n - 1 && EndsAt(plans, k, c);
        assert EndsAt(plans, k, next);
      }
    }
  }

  /** The run ended with its `k`-th turn, the first that does not let it go on. */
  ghost predicate EndsWith(input: RunInput, turns: nat -> Turn, k: nat, c: Course) {
    && c.exit == IterationExit(input, turns(k)) && c.exit != Continue
    && c.iterations == (if turns(k).abortedAtStart then k else k + 1)
    && forall i :: 0 <= i < k ==> IterationExit(input, turns(i)) == Continue
  }

  lemma PlansEnd(input: RunInput, turns: nat -> Turn, k: nat, c: Course)
    ensures EndsAt(Plans(input, turns), k, c) ==> EndsWith(input, turns, k, c)
  {
    forall i: nat
      ensures Plans(input, turns)(i).exit == IterationExit(input, turns(i))
      ensures Plans(input, turns)(i).begins <==> !turns(i).abortedAtStart
    {
      PlanEnds(input, turns(i));
    }
  }

  /** Each of the first `n` turns lets the run go on. */
  ghost predicate AllLetGoOn(input: RunInput, turns: nat -> Turn, n: nat) {
    forall i :: 0 <= i < n ==> IterationExit(input, turns(i)) == Continue
  }

  lemma PlansGoOn(input: RunInput, turns: nat -> Turn, n: nat, c: Course)
    requires AllGoOn(Plans(input, turns), n, c)
    ensures AllLetGoOn(input, turns, n)
  {
    forall i: nat | i < n
      ensures IterationExit(input, turns(i)) == Continue
    {
      PlanEnds(input, turns(i));
      assert Plans(input, turns)(i) == PlanOf(input, turns(i));
    }
  }

  lemma PlansBegin(input: RunInput, turns: nat -> Turn)
    ensures forall i: nat :: Plans(input, turns)(i).exit == Continue ==> Plans(input, turns)(i).begins
  {
    forall i: nat
      ensures Plans(input, turns)(i).exit == Continue ==> Plans(input, turns)(i).begins
    {
      PlanEnds(input, turns(i));
    }
  }

  /**
   The status of a run: timed out at once if it has no time; else it reaches the maximum of
   iterations if each of them goes on, or ends as its first turn that does not, where
   an exception counts as cancelled if it says so and as failed otherwise.
   */
  lemma RunEnds(input: RunInput, turns: nat -> Turn)
    ensures var c, limit := CourseOf(input, turns), if input.maxIterations < 0 then 0 else input.maxIterations;
            var status := Conclude(c.exit);
            if input.timeoutMs <= 0 then status == TimedOut && c.iterations == 0 && c.calls == [] && c.done == []
            else if c.exit == Continue then
              status == MaxIterationsReached && c.iterations == limit && AllLetGoOn(input, turns, limit)
            else
              && (exists k :: 0 <= k < limit && EndsWith(input, turns, k, c))
              && status == match c.exit
                           case Return(s) => s
                           case Throw(thrown) => if thrown.aborted then Cancelled else Failed
                           case Continue => MaxIterationsReached
  {
    if input.timeoutMs > 0 {
      var plans, c := Plans(input, turns), CourseOf(input, turns);
      PlansBegin(input, turns);
      IterationsEnd(plans, input.Limit());
      if k :| 0 <= k < input.Limit() && EndsAt(plans, k, c) {
        PlansEnd(input, turns, k, c);
      } else {
        PlansGoOn(input, turns, input.Limit(), c);
      }
    }
  }

  // -------------------------------------------------- results, items and compaction

  /** The results the kernel makes up: errors with their own codes that end nothing and are never serialised. */
  lemma SyntheticResults(request: ToolRequest, invalid: map<string, string>, message: string, reason: string,
                         recording: Option<Thrown>)
    ensures var id := request.toolCallId;
            && TruncationError(request)
               == ToolResult(id, "null", Some(ToolError(TRUNCATED_TOOL_CALL, request.toolName, true)), false)
            && AdmissionError(request, invalid)
               == ToolResult(id, "null",
                             Some(if id in invalid then ToolError(INVALID_TOOL_ARGUMENTS, invalid[id], true)
                                  else ToolError(UNPROJECTED_TOOL_CALL, request.toolName, false)),
                             false)
            && HandlerError(request, message)
               == ToolResult(id, "null", Some(ToolError(INTERNAL_HANDLER_ERROR, message, true)), false)
            && Missing(request, reason).error.Some? && Missing(request, reason).error.value.code == MISSING_TOOL_RESULT
            && Missing(request, reason).error.value.recoverable && !Missing(request, reason).terminate
            && Fault(TruncationError(request), recording).None?
            && Fault(AdmissionError(request, invalid), recording).None?
            && Fault(HandlerError(request, message), recording).None?
            && Fault(Missing(request, reason), recording).None?
  {
  }

  /**
   The item that shows a result: its text, a token for every four characters begun, the call it
   belongs to; and a compaction may remove it unless its id is listed must-keep.
   */
  lemma ItemOfResult(id: string, request: ToolRequest, result: ToolResult, mustKeep: set<string>)
    ensures var item := ToolItem(id, request, result);
            && item.itemId == id && item.toolCallId == request.toolCallId
            && item.content == (if result.error.Some? then
                                  "Tool " + request.toolName + " failed: " + result.error.value.message
                                else "Tool " + request.toolName + " result: " + result.payload)
            && |item.content| <= 4 * item.estimatedTokens < |item.content| + 4
            && (Protected(item, mustKeep) <==> id in mustKeep)
  {
  }

  /** An answer is applied exactly if none of the ids it names is must-keep, pinned or marked not compressible. */
  lemma AppliesIff(input: RunInput, outcome: CompactOutcome, items: seq<ContextItem>)
    ensures Applies(outcome, items, input.MustKeep()) <==>
              && outcome.Applied?
              && forall id :: id in outcome.compactedItemIds ==>
                   && !(input.compactHints.Some? && id in input.compactHints.value.mustKeepItemIds)
                   && forall item :: item in items && item.itemId == id ==> !item.isPinned && item.isCompressible
  {
    if outcome.Applied? {
      var named := set id | id in outcome.compactedItemIds;
      var kept := ProtectedIds(items, input.MustKeep());
      assert forall id :: id in named <==> id in outcome.compactedItemIds;
      assert named !! kept <==> forall id :: id in named ==> id !in kept;
    }
  }

  /** The calls a compaction hides are those of the items it removes. */
  lemma HiddenCalls(items: seq<ContextItem>, ids: set<string>, call: string)
    ensures call in CompactedCalls(items, ids) <==>
              call != "" && exists item :: item in items && item.itemId in ids && item.toolCallId == call
  {
  }
}
