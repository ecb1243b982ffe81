/**
 The runtime dispatcher (src/dispatcher/runtime-dispatcher.ts) as a protocol:
 many dispatches interleaved over one action store and one event store.

 A dispatch runs without interruption between two awaits, so its code is cut at
 the permission hook and inside the timeout race; each piece is one step. The
 answers of the hook, the adapter registry, the adapter, the timer and the
 caller's abort signal arrive as step labels in any order.
 */
module Dispatcher {
  import opened Common

  datatype ActionState =
    | Created | Validated | DuplicateState | DeniedState | Accepted | Queued | Dispatching
    | WaitingForApproval | WaitingForTarget | CompletedState | FailedState | TimeoutState | CancelledState

  predicate InFlight(s: ActionState) {
    s == Dispatching || s == Queued || s == WaitingForApproval
  }

  datatype DuplicateBehavior = ReturnPrevious | DropDuplicate | FailDuplicate

  /** An empty string stands for a missing field; the source treats both alike. */
  datatype Action = Action(
    actionId: string, actionType: string, targetRuntime: string, sourceModule: string, targetAction: string,
    idempotencyKey: string, duplicateBehavior: Option<DuplicateBehavior>, status: ActionState)

  const ValidTargetRuntimes: set<string> := {
    "agent_kernel", "subagent_runtime", "tool_plane", "workflow_runtime", "event_trigger_runtime",
    "permission_engine", "gateway", "notification_center", "connector_runtime", "memory_system",
    "summary_manager", "replay_service", "foreground_conversation_agent", "planner_runtime"
  }

  predicate ValidAction(a: Action) {
    && a.actionType != "" && a.targetRuntime in ValidTargetRuntimes && a.actionId != ""
    && a.sourceModule != "" && a.targetAction != ""
  }

  predicate IsWriteActionClass(targetAction: string) {
    targetAction in {"write", "delete", "send", "execute"}
  }

  datatype Status = Completed | Failed | TimedOut | Denied | Duplicate

  datatype Result = Result(status: Status, code: string, duplicateOf: Option<string>, waiting: bool)

  datatype EventKind =
    | Requested | AcceptedEvent | Started | CompletedEvent | FailedEvent
    | ValidationFailed | DeniedEvent | DuplicateEvent

  /** `payload` is the status of the result an event carries. */
  datatype Event = Event(dispatch: nat, kind: EventKind, payload: Option<Status>)

  datatype Settlement = Resolved | Rejected(message: string)

  /** The state inside `executeWithTimeout`. */
  datatype Race = Race(aborted: bool, started: bool, ended: bool, timerFired: bool, settlement: Option<Settlement>,
                       settledTimes: nat)

  const FreshRace := Race(false, false, false, false, None, 0)

  datatype Phase = Idle | AwaitingPermission | Racing | Done

  datatype Proc = Proc(phase: Phase, race: Race, result: Option<Result>)

  /**
   `saved` lists the dispatches whose action was saved, in order; `histories[d]`
   is every status the store ever held for the action of dispatch `d`;
   `executions` lists the dispatches whose adapter was called.
   */
  datatype State = State(saved: seq<nat>, histories: seq<seq<ActionState>>, events: seq<Event>, procs: seq<Proc>,
                         executions: seq<nat>)

  datatype Label =
    | Begin(d: nat, adapterPresent: bool)
    | PermissionAnswered(d: nat, allowed: bool, adapterPresent: bool)
    | AdapterStarts(d: nat)
    | AdapterEnds(d: nat, outcome: Settlement)
    | TimerFires(d: nat)
    | ExternalAbort(d: nat)
    | Resume(d: nat)

  datatype Config = Config(requests: seq<Action>, hasPermissionHook: bool)

  /** The dispatches have distinct action ids. */
  ghost predicate DistinctActions(c: Config) {
    forall i, j :: 0 <= i < j < |c.requests| ==> c.requests[i].actionId != c.requests[j].actionId
  }

  ghost predicate Bounded(c: Config, saved: seq<nat>) {
    forall i :: 0 <= i < |saved| ==> saved[i] < |c.requests|
  }

  ghost predicate Shaped(c: Config, s: State) {
    && |s.histories| == |s.procs| == |c.requests|
    && Bounded(c, s.saved) && Bounded(c, s.executions)
  }

  // -------------------------------------------------------------- store and events

  /** `findByIdempotencyKey`: the first action saved under the key. */
  function FirstUnder(c: Config, saved: seq<nat>, key: string): Option<nat>
    requires Bounded(c, saved)
    ensures FirstUnder(c, saved, key).Some? ==> FirstUnder(c, saved, key).value < |c.requests|
  {
    if saved == [] then None
    else
      var before := FirstUnder(c, saved[..|saved| - 1], key);
      var last := saved[|saved| - 1];
      if before.Some? then before
      else if c.requests[last].idempotencyKey == key then Some(last)
      else None
  }

  /** `updateStatus` on the row with the given action id. */
  function UpdateStatus(c: Config, s: State, actionId: string, status: ActionState): State
    requires Shaped(c, s)
  {
    s.(histories := seq(|s.histories|, d requires 0 <= d < |s.histories| =>
         if d in s.saved && c.requests[d].actionId == actionId then s.histories[d] + [status] else s.histories[d]))
  }

  function Save(c: Config, s: State, d: nat): State
    requires Shaped(c, s) && d < |c.requests|
  {
    s.(saved := s.saved + [d], histories := s.histories[d := s.histories[d] + [c.requests[d].status]])
  }

  function Emit(s: State, d: nat, kind: EventKind, payload: Option<Status>): State {
    s.(events := s.events + [Event(d, kind, payload)])
  }

  function Finish(s: State, d: nat, kind: EventKind, result: Result): State
    requires d < |s.procs|
  {
    Emit(s, d, kind, Some(result.status)).(procs := s.procs[d := s.procs[d].(phase := Done, result := Some(result))])
  }

  function Goto(s: State, d: nat, phase: Phase): State
    requires d < |s.procs|
  {
    s.(procs := s.procs[d := s.procs[d].(phase := phase)])
  }

  // ------------------------------------------------------------------------ steps

  function CurrentStatus(s: State, d: nat): ActionState
    requires d < |s.histories|
  {
    if s.histories[d] == [] then Created else s.histories[d][|s.histories[d]| - 1]
  }

  /** `resolveIdempotencyDuplicate` for dispatch `d` whose key `first` holds already. */
  function ResolveDuplicate(c: Config, s: State, d: nat, first: nat): State
    requires Shaped(c, s) && d < |c.requests| && first < |c.requests|
  {
    var a := c.requests[d];
    var asked := a.duplicateBehavior.GetOr(ReturnPrevious);
    var behavior := if IsWriteActionClass(a.targetAction) && asked == ReturnPrevious then FailDuplicate else asked;
    var original := Some(c.requests[first].actionId);
    match behavior
    case ReturnPrevious =>
      Finish(s, d, DuplicateEvent, Result(Duplicate, "", original, InFlight(CurrentStatus(s, first))))
    case DropDuplicate =>
      Finish(UpdateStatus(c, s, a.actionId, DuplicateState), d, DuplicateEvent, Result(Duplicate, "", original, false))
    case FailDuplicate =>
      Finish(UpdateStatus(c, s, a.actionId, FailedState), d, DuplicateEvent,
             Result(Failed, "duplicate_rejected", original, false))
  }

  /** From the adapter lookup to the start of the race. */
  function LookUpAndStart(c: Config, s: State, d: nat, adapterPresent: bool): State
    requires Shaped(c, s) && d < |c.requests|
  {
    var id := c.requests[d].actionId;
    if !adapterPresent then
      Finish(UpdateStatus(c, s, id, FailedState), d, FailedEvent,
             Result(Failed, "target_runtime_unavailable", None, false))
    else
      Goto(Emit(UpdateStatus(c, s, id, Dispatching), d, Started, None), d, Racing)
  }

  /** From the call of `dispatch` to its first await, or to its end. */
  function BeginStep(c: Config, s: State, d: nat, adapterPresent: bool): State
    requires Shaped(c, s) && d < |c.requests|
  {
    var a := c.requests[d];
    var s0 := Emit(s, d, Requested, None);
    if !ValidAction(a) then Finish(s0, d, ValidationFailed, Result(Failed, "invalid_action", None, false))
    else
      var s1 := Emit(Save(c, s0, d), d, AcceptedEvent, None);
      var existing := FirstUnder(c, s1.saved, a.idempotencyKey);
      if a.idempotencyKey != "" && existing.Some? && c.requests[existing.value].actionId != a.actionId then
        ResolveDuplicate(c, s1, d, existing.value)
      else if c.hasPermissionHook then Goto(s1, d, AwaitingPermission)
      else LookUpAndStart(c, s1, d, adapterPresent)
  }

  function PermissionStep(c: Config, s: State, d: nat, allowed: bool, adapterPresent: bool): State
    requires Shaped(c, s) && d < |c.requests|
  {
    if !allowed then
      Finish(UpdateStatus(c, s, c.requests[d].actionId, DeniedState), d, DeniedEvent,
             Result(Denied, "permission_denied", None, false))
    else LookUpAndStart(c, s, d, adapterPresent)
  }

  /** `settle`: the first caller wins, later ones do nothing. */
  function Settle(r: Race, outcome: Settlement): Race {
    if r.settlement.Some? then r else r.(settlement := Some(outcome), settledTimes := r.settledTimes + 1)
  }

  function WithRace(s: State, d: nat, race: Race): State
    requires d < |s.procs|
  {
    s.(procs := s.procs[d := s.procs[d].(race := race)])
  }

  function StatusOf(outcome: Settlement): Status {
    match outcome
    case Resolved => Completed
    case Rejected(message) => if message == "Timeout" then TimedOut else Failed
  }

  function ResultOf(outcome: Settlement): Result {
    Result(StatusOf(outcome),
           if outcome.Resolved? then "" else if outcome.message == "Timeout" then "timeout" else "target_runtime_error",
           None, false)
  }

  function StateOf(outcome: Settlement): ActionState {
    match StatusOf(outcome)
    case Completed => CompletedState
    case TimedOut => TimeoutState
    case _ => FailedState
  }

  function EventOf(outcome: Settlement): EventKind {
    if outcome.Resolved? then CompletedEvent else FailedEvent
  }

  /** The code after the race's await. */
  function ResumeStep(c: Config, s: State, d: nat, outcome: Settlement): State
    requires Shaped(c, s) && d < |c.requests|
  {
    Finish(UpdateStatus(c, s, c.requests[d].actionId, StateOf(outcome)), d, EventOf(outcome), ResultOf(outcome))
  }

  /** One step; a label that is not enabled changes nothing. */
  function Step(c: Config, s: State, l: Label): State
    requires Shaped(c, s)
  {
    if l.d >= |c.requests| then s
    else
      var p := s.procs[l.d];
      var racing := p.phase == Racing || (p.phase == Done && p.race.settlement.Some?);
      match l
      case Begin(d, adapterPresent) => if p.phase == Idle then BeginStep(c, s, d, adapterPresent) else s
      case PermissionAnswered(d, allowed, adapterPresent) =>
        if p.phase == AwaitingPermission then PermissionStep(c, s, d, allowed, adapterPresent) else s
      case Resume(d) =>
        if p.phase == Racing && p.race.settlement.Some? then ResumeStep(c, s, d, p.race.settlement.value) else s
      case _ => if racing then RaceStep(s, l.d, RaceAfter(p.race, l)) else s
  }

  /** The race after the adapter starts or ends, the timer fires, or the caller aborts. */
  function RaceAfter(r: Race, l: Label): Race {
    match l
    case AdapterStarts(_) => r.(started := true)
    case AdapterEnds(_, outcome) => if r.started && !r.ended then Settle(r.(ended := true), outcome) else r
    case TimerFires(_) => if !r.timerFired then Settle(r.(timerFired := true, aborted := true), Rejected("Timeout"))
        else r
    case ExternalAbort(_) => r.(aborted := true)
    case _ => r
  }

  /** The race moves on; starting the adapter is an execution. */
  function RaceStep(s: State, d: nat, race: Race): State
    requires d < |s.procs|
  {
    WithRace(s, d, race).(executions := s.executions + if race.started && !s.procs[d].race.started then [d] else [])
  }

  function Init(c: Config): State {
    State([], seq(|c.requests|, _ => []), [], seq(|c.requests|, _ => Proc(Idle, FreshRace, None)), [])
  }

  // ------------------------------------------------------------- what every run keeps

  /** The events of one dispatch, with the status each carries. */
  function Word(events: seq<Event>, d: nat): seq<(EventKind, Option<Status>)> {
    if events == [] then []
    else
      var last := events[|events| - 1];
      Word(events[..|events| - 1], d) + (if last.dispatch == d then [(last.kind, last.payload)] else [])
  }

  function Count(executions: seq<nat>, d: nat): nat {
    if executions == [] then 0
    else Count(executions[..|executions| - 1], d) + (if executions[|executions| - 1] == d then 1 else 0)
  }

  lemma WordAppend(events: seq<Event>, e: Event, d: nat)
    ensures Word(events + [e], d) == Word(events, d) + (if e.dispatch == d then [(e.kind, e.payload)] else [])
  {
    assert (events + [e])[..|events|] == events;
  }

  lemma CountAppend(executions: seq<nat>, x: nat, d: nat)
    ensures Count(executions + [x], d) == Count(executions, d) + (if x == d then 1 else 0)
  {
    assert (executions + [x])[..|executions|] == executions;
  }

  lemma FirstUnderAppend(c: Config, saved: seq<nat>, d: nat, key: string)
    requires Bounded(c, saved) && d < |c.requests|
    ensures FirstUnder(c, saved + [d], key)
         == if FirstUnder(c, saved, key).Some? then FirstUnder(c, saved, key)
            else if c.requests[d].idempotencyKey == key then Some(d) else None
  {
    assert (saved + [d])[..|saved|] == saved;
  }

  /** The key's first holder is saved and has that key; without one, nobody saved has it. */
  lemma {:induction false} FirstUnderHolds(c: Config, saved: seq<nat>, key: string)
    requires Bounded(c, saved)
    ensures FirstUnder(c, saved, key).Some? ==>
              FirstUnder(c, saved, key).value in saved
                  && c.requests[FirstUnder(c, saved, key).value].idempotencyKey == key
    ensures FirstUnder(c, saved, key).None? ==> forall e :: e in saved ==> c.requests[e].idempotencyKey != key
  {
    if saved != [] {
      FirstUnderHolds(c, saved[..|saved| - 1], key);
    }
  }

  /** Saved, valid, and the first under its key if it has one: only such a dispatch gets further. */
  ghost predicate Admitted(c: Config, s: State, d: nat)
    requires Shaped(c, s) && d < |c.requests|
  {
    var a := c.requests[d];
    d in s.saved && ValidAction(a) && (a.idempotencyKey != "" ==> FirstUnder(c, s.saved, a.idempotencyKey) == Some(d))
  }

  /** The race settles at most once, and exactly when the adapter ended or the timer fired. */
  ghost predicate RaceOk(r: Race) {
    && r.settledTimes == (if r.settlement.Some? then 1 else 0)
    && (r.settlement.Some? <==> r.ended || r.timerFired)
    && (r.ended ==> r.started) && (r.timerFired ==> r.aborted)
  }

  /**
   How a duplicate ends: dropped or failed if it asks for that; failed too if it writes, unless it
   asks to be dropped; otherwise it returns the previous result and leaves its own row alone.
   */
  ghost predicate DuplicateEnd(a: Action, r: Result, h: seq<ActionState>) {
    var writes := a.targetAction == "write" || a.targetAction == "delete" || a.targetAction == "send"
        || a.targetAction == "execute";
    if a.duplicateBehavior == Some(DropDuplicate) then
      r.status == Duplicate && r.code == "" && !r.waiting && h == [a.status, DuplicateState]
    else if a.duplicateBehavior == Some(FailDuplicate) || writes then
      r.status == Failed && r.code == "duplicate_rejected" && !r.waiting && h == [a.status, FailedState]
    else r.status == Duplicate && r.code == "" && h == [a.status]
  }

  /** How a dispatch can have ended: its events, its stored statuses and its result together. */
  ghost predicate Ended(c: Config, s: State, d: nat, r: Result)
    requires Shaped(c, s) && d < |c.requests|
  {
    var a, race, w, h := c.requests[d], s.procs[d].race, Word(s.events, d), s.histories[d];
    var accepted := [(Requested, None), (AcceptedEvent, None)];
    || (race == FreshRace && !ValidAction(a) && d !in s.saved && h == []
        && w == [(Requested, None), (ValidationFailed, Some(Failed))]
            && r == Result(Failed, "invalid_action", None, false))
    || (race == FreshRace && ValidAction(a) && d in s.saved && a.idempotencyKey != ""
        && FirstUnder(c, s.saved, a.idempotencyKey).Some?
        && FirstUnder(c, s.saved, a.idempotencyKey).value != d
        && r.duplicateOf == Some(c.requests[FirstUnder(c, s.saved, a.idempotencyKey).value].actionId)
        && w == accepted + [(DuplicateEvent, Some(r.status))] && DuplicateEnd(a, r, h))
    || (race == FreshRace && Admitted(c, s, d) && r == Result(Denied, "permission_denied", None, false)
        && w == accepted + [(DeniedEvent, Some(Denied))] && h == [a.status, DeniedState])
    || (race == FreshRace && Admitted(c, s, d) && r == Result(Failed, "target_runtime_unavailable", None, false)
        && w == accepted + [(FailedEvent, Some(Failed))] && h == [a.status, FailedState])
    || (RaceOk(race) && race.settlement.Some? && Admitted(c, s, d) && r == ResultOf(race.settlement.value)
        && w == accepted + [(Started, None), (EventOf(race.settlement.value), Some(r.status))]
        && h == [a.status, Dispatching, StateOf(race.settlement.value)])
  }

  /** Everything that holds of one dispatch at any moment. */
  ghost predicate Consistent(c: Config, s: State, d: nat)
    requires Shaped(c, s) && d < |c.requests|
  {
    var a, p, w, h := c.requests[d], s.procs[d], Word(s.events, d), s.histories[d];
    && Count(s.executions, d) == (if p.race.started then 1 else 0)
    && match p.phase
       case Idle => w == [] && h == [] && d !in s.saved && p.race == FreshRace && p.result == None
       case AwaitingPermission =>
         && Admitted(c, s, d) && p.race == FreshRace && p.result == None
         && w == [(Requested, None), (AcceptedEvent, None)] && h == [a.status]
       case Racing =>
         && Admitted(c, s, d) && RaceOk(p.race) && p.result == None
         && w == [(Requested, None), (AcceptedEvent, None), (Started, None)] && h == [a.status, Dispatching]
       case Done => p.result.Some? && Ended(c, s, d, p.result.value)
  }

  ghost predicate Inv(c: Config, s: State) {
    Shaped(c, s) && forall d :: 0 <= d < |c.requests| ==> Consistent(c, s, d)
  }

  // ---------------------------------------------------------------- one step at a time

  /** `s'` differs from `s` only in what belongs to dispatch `d`. */
  ghost predicate OnlyTouches(c: Config, s: State, s': State, d: nat)
    requires Shaped(c, s)
  {
    && Shaped(c, s') && d < |c.requests|
    && (s'.saved == s.saved || s'.saved == s.saved + [d])
    && forall e :: 0 <= e < |c.requests| && e != d ==>
         && s'.procs[e] == s.procs[e] && s'.histories[e] == s.histories[e]
         && Word(s'.events, e) == Word(s.events, e) && Count(s'.executions, e) == Count(s.executions, e)
  }

  lemma OthersStay(c: Config, s: State, s': State, d: nat, e: nat)
    requires Shaped(c, s) && OnlyTouches(c, s, s', d) && e < |c.requests| && e != d
    requires Consistent(c, s, e)
    ensures Consistent(c, s', e)
  {
    var key := c.requests[e].idempotencyKey;
    FirstUnderAppend(c, s.saved, d, key);
    FirstUnderHolds(c, s.saved, key);
    assert s'.saved == s.saved + [d] ==> (e in s'.saved <==> e in s.saved);
  }

  lemma EmitTouches(c: Config, s: State, d: nat, kind: EventKind, payload: Option<Status>)
    requires Shaped(c, s) && d < |c.requests|
    ensures OnlyTouches(c, s, Emit(s, d, kind, payload), d)
    ensures Word(Emit(s, d, kind, payload).events, d) == Word(s.events, d) + [(kind, payload)]
  {
    forall e ensures Word(Emit(s, d, kind, payload).events, e)
                  == Word(s.events, e) + (if e == d then [(kind, payload)] else [])
    {
      WordAppend(s.events, Event(d, kind, payload), e);
    }
  }

  /** With distinct action ids, a status update reaches one row. */
  lemma UpdateTouches(c: Config, s: State, d: nat, status: ActionState)
    requires Shaped(c, s) && DistinctActions(c) && d < |c.requests| && d in s.saved
    ensures UpdateStatus(c, s, c.requests[d].actionId, status)
              == s.(histories := s.histories[d := s.histories[d] + [status]])
    ensures OnlyTouches(c, s, UpdateStatus(c, s, c.requests[d].actionId, status), d)
  {
    var id := c.requests[d].actionId;
    assert forall e :: 0 <= e < |c.requests| && e != d ==> c.requests[e].actionId != id;
    assert UpdateStatus(c, s, id, status).histories == s.histories[d := s.histories[d] + [status]];
  }

  lemma FinishTouches(c: Config, s: State, d: nat, kind: EventKind, result: Result)
    requires Shaped(c, s) && d < |c.requests|
    ensures OnlyTouches(c, s, Finish(s, d, kind, result), d)
    ensures Word(Finish(s, d, kind, result).events, d) == Word(s.events, d) + [(kind, Some(result.status))]
  {
    EmitTouches(c, s, d, kind, Some(result.status));
  }

  lemma TouchesTwice(c: Config, s: State, s': State, s'': State, d: nat)
    requires Shaped(c, s) && OnlyTouches(c, s, s', d) && OnlyTouches(c, s', s'', d)
    requires s'.saved == s.saved || s''.saved == s'.saved
    ensures OnlyTouches(c, s, s'', d)
  {
  }

  /** A status update and the end of the dispatch, together. */
  lemma UpdateAndFinishTouches(c: Config, s: State, d: nat, status: ActionState, kind: EventKind, result: Result)
    requires Shaped(c, s) && DistinctActions(c) && d < |c.requests| && d in s.saved
    ensures var s' := Finish(UpdateStatus(c, s, c.requests[d].actionId, status), d, kind, result);
            && OnlyTouches(c, s, s', d) && s'.saved == s.saved && s'.executions == s.executions
            && s'.procs[d] == s.procs[d].(phase := Done, result := Some(result))
            && Word(s'.events, d) == Word(s.events, d) + [(kind, Some(result.status))]
            && s'.histories[d] == s.histories[d] + [status]
  {
    var s1 := UpdateStatus(c, s, c.requests[d].actionId, status);
    UpdateTouches(c, s, d, status);
    FinishTouches(c, s1, d, kind, result);
    TouchesTwice(c, s, s1, Finish(s1, d, kind, result), d);
  }

  /** Past the idempotency check, before the adapter lookup. */
  ghost predicate ReadyToStart(c: Config, s: State, d: nat) {
    && Shaped(c, s) && d < |c.requests| && Admitted(c, s, d)
    && s.procs[d].race == FreshRace && s.procs[d].result == None && Count(s.executions, d) == 0
    && Word(s.events, d) == [(Requested, None), (AcceptedEvent, None)] && s.histories[d] == [c.requests[d].status]
  }

  lemma LookUpKeeps(c: Config, s: State, d: nat, adapterPresent: bool)
    requires DistinctActions(c) && ReadyToStart(c, s, d)
    ensures var s' := LookUpAndStart(c, s, d, adapterPresent); OnlyTouches(c, s, s', d) && Consistent(c, s', d)
  {
    if adapterPresent {
      var s1 := UpdateStatus(c, s, c.requests[d].actionId, Dispatching);
      UpdateTouches(c, s, d, Dispatching);
      EmitTouches(c, s1, d, Started, None);
      TouchesTwice(c, s, s1, Emit(s1, d, Started, None), d);
    } else {
      UpdateAndFinishTouches(c, s, d, FailedState, FailedEvent,
                             Result(Failed, "target_runtime_unavailable", None, false));
    }
  }

  lemma PermissionKeeps(c: Config, s: State, d: nat, allowed: bool, adapterPresent: bool)
    requires DistinctActions(c) && ReadyToStart(c, s, d)
    ensures var s' := PermissionStep(c, s, d, allowed, adapterPresent); OnlyTouches(c, s, s', d) && Consistent(c, s', d)
  {
    if allowed {
      LookUpKeeps(c, s, d, adapterPresent);
    } else {
      UpdateAndFinishTouches(c, s, d, DeniedState, DeniedEvent, Result(Denied, "permission_denied", None, false));
    }
  }

  /** A duplicate that ended as it asks for is consistent. */
  lemma DuplicateEnds(c: Config, s': State, d: nat, first: nat, r: Result)
    requires Shaped(c, s') && d < |c.requests| && d in s'.saved && ValidAction(c.requests[d])
    requires c.requests[d].idempotencyKey != "" && FirstUnder(c, s'.saved, c.requests[d].idempotencyKey) == Some(first)
    requires first != d && first < |c.requests| && r.duplicateOf == Some(c.requests[first].actionId)
    requires s'.procs[d] == Proc(Done, FreshRace, Some(r)) && Count(s'.executions, d) == 0
    requires Word(s'.events, d) == [(Requested, None), (AcceptedEvent, None), (DuplicateEvent, Some(r.status))]
    requires DuplicateEnd(c.requests[d], r, s'.histories[d])
    ensures Consistent(c, s', d)
  {
  }

  /** An accepted action whose key another dispatch holds already. */
  ghost predicate IsDuplicate(c: Config, s: State, d: nat, first: nat) {
    && Shaped(c, s) && d < |c.requests| && d in s.saved && ValidAction(c.requests[d])
    && c.requests[d].idempotencyKey != "" && FirstUnder(c, s.saved, c.requests[d].idempotencyKey) == Some(first)
    && first != d && s.procs[d] == Proc(Idle, FreshRace, None) && Count(s.executions, d) == 0
    && Word(s.events, d) == [(Requested, None), (AcceptedEvent, None)] && s.histories[d] == [c.requests[d].status]
  }

  /** A duplicate whose own row stays as it is. */
  lemma ReturnKeeps(c: Config, s: State, d: nat, first: nat, r: Result)
    requires IsDuplicate(c, s, d, first) && r.duplicateOf == Some(c.requests[first].actionId)
    requires DuplicateEnd(c.requests[d], r, [c.requests[d].status])
    ensures var s' := Finish(s, d, DuplicateEvent, r); OnlyTouches(c, s, s', d) && Consistent(c, s', d)
  {
    FinishTouches(c, s, d, DuplicateEvent, r);
    DuplicateEnds(c, Finish(s, d, DuplicateEvent, r), d, first, r);
  }

  /** A duplicate that is marked as such, or as failed. */
  lemma MarkKeeps(c: Config, s: State, d: nat, first: nat, status: ActionState, r: Result)
    requires DistinctActions(c) && IsDuplicate(c, s, d, first) && r.duplicateOf == Some(c.requests[first].actionId)
    requires DuplicateEnd(c.requests[d], r, [c.requests[d].status, status])
    ensures var s' := Finish(UpdateStatus(c, s, c.requests[d].actionId, status), d, DuplicateEvent, r);
            OnlyTouches(c, s, s', d) && Consistent(c, s', d)
  {
    UpdateAndFinishTouches(c, s, d, status, DuplicateEvent, r);
    DuplicateEnds(c, Finish(UpdateStatus(c, s, c.requests[d].actionId, status), d, DuplicateEvent, r), d, first, r);
  }

  lemma DuplicateKeeps(c: Config, s: State, d: nat, first: nat)
    requires DistinctActions(c) && IsDuplicate(c, s, d, first)
    ensures var s' := ResolveDuplicate(c, s, d, first); OnlyTouches(c, s, s', d) && Consistent(c, s', d)
  {
    var a := c.requests[d];
    var asked := a.duplicateBehavior.GetOr(ReturnPrevious);
    var behavior := if IsWriteActionClass(a.targetAction) && asked == ReturnPrevious then FailDuplicate else asked;
    var original := Some(c.requests[first].actionId);
    match behavior {
      case ReturnPrevious =>
        ReturnKeeps(c, s, d, first, Result(Duplicate, "", original, InFlight(CurrentStatus(s, first))));
      case DropDuplicate =>
        MarkKeeps(c, s, d, first, DuplicateState, Result(Duplicate, "", original, false));
      case FailDuplicate =>
        MarkKeeps(c, s, d, first, FailedState, Result(Failed, "duplicate_rejected", original, false));
    }
  }

  /** The state right after the action was saved and accepted. */
  function Accept(c: Config, s: State, d: nat): State
    requires Shaped(c, s) && d < |c.requests|
  {
    Emit(Save(c, Emit(s, d, Requested, None), d), d, AcceptedEvent, None)
  }

  lemma AcceptKeeps(c: Config, s: State, d: nat)
    requires Shaped(c, s) && d < |c.requests| && Consistent(c, s, d) && s.procs[d].phase == Idle
    ensures var s1 := Accept(c, s, d);
            && OnlyTouches(c, s, s1, d) && s1.saved == s.saved + [d] && s1.procs == s.procs
                && s1.executions == s.executions
            && Word(s1.events, d) == [(Requested, None), (AcceptedEvent, None)]
                && s1.histories[d] == [c.requests[d].status]
            && FirstUnder(c, s1.saved, c.requests[d].idempotencyKey).Some?
  {
    var s0 := Emit(s, d, Requested, None);
    EmitTouches(c, s, d, Requested, None);
    var sv := Save(c, s0, d);
    assert Bounded(c, sv.saved);
    TouchesTwice(c, s, s0, sv, d);
    EmitTouches(c, sv, d, AcceptedEvent, None);
    TouchesTwice(c, s, sv, Accept(c, s, d), d);
    FirstUnderAppend(c, s.saved, d, c.requests[d].idempotencyKey);
  }

  lemma BeginKeeps(c: Config, s: State, d: nat, adapterPresent: bool)
    requires DistinctActions(c) && Shaped(c, s) && d < |c.requests| && Consistent(c, s, d) && s.procs[d].phase == Idle
    ensures var s' := BeginStep(c, s, d, adapterPresent); OnlyTouches(c, s, s', d) && Consistent(c, s', d)
  {
    var a, s' := c.requests[d], BeginStep(c, s, d, adapterPresent);
    if !ValidAction(a) {
      var s0 := Emit(s, d, Requested, None);
      EmitTouches(c, s, d, Requested, None);
      FinishTouches(c, s0, d, ValidationFailed, Result(Failed, "invalid_action", None, false));
      TouchesTwice(c, s, s0, s', d);
    } else {
      ValidBeginKeeps(c, s, d, adapterPresent);
    }
  }

  lemma ValidBeginKeeps(c: Config, s: State, d: nat, adapterPresent: bool)
    requires DistinctActions(c) && Shaped(c, s) && d < |c.requests| && Consistent(c, s, d) && s.procs[d].phase == Idle
    requires ValidAction(c.requests[d])
    ensures var s' := BeginStep(c, s, d, adapterPresent); OnlyTouches(c, s, s', d) && Consistent(c, s', d)
  {
    var a, s' := c.requests[d], BeginStep(c, s, d, adapterPresent);
    var s1 := Accept(c, s, d);
    AcceptKeeps(c, s, d);
    var first := FirstUnder(c, s1.saved, a.idempotencyKey).value;
    assert d in s1.saved;
    if a.idempotencyKey != "" && c.requests[first].actionId != a.actionId {
      DuplicateKeeps(c, s1, d, first);
    } else {
      assert a.idempotencyKey != "" ==> first == d;
      if !c.hasPermissionHook {
        LookUpKeeps(c, s1, d, adapterPresent);
      }
    }
    TouchesTwice(c, s, s1, s', d);
  }

  lemma ResumeKeeps(c: Config, s: State, d: nat)
    requires DistinctActions(c) && Shaped(c, s) && d < |c.requests| && Consistent(c, s, d)
    requires s.procs[d].phase == Racing && s.procs[d].race.settlement.Some?
    ensures var s' := ResumeStep(c, s, d, s.procs[d].race.settlement.value);
            OnlyTouches(c, s, s', d) && Consistent(c, s', d)
  {
    var outcome := s.procs[d].race.settlement.value;
    UpdateAndFinishTouches(c, s, d, StateOf(outcome), EventOf(outcome), ResultOf(outcome));
  }

  ghost predicate InRace(s: State, d: nat)
    requires d < |s.procs|
  {
    s.procs[d].phase == Racing || (s.procs[d].phase == Done && s.procs[d].race.settlement.Some?)
  }

  /** A race moves on: it stays sound and a settlement, once made, stays the same. */
  ghost predicate RaceMoves(r: Race, r': Race) {
    RaceOk(r') && (r.settlement.Some? ==> r'.settlement == r.settlement) && (r.started ==> r'.started)
  }

  lemma RaceAfterMoves(r: Race, l: Label)
    requires RaceOk(r)
    ensures RaceMoves(r, RaceAfter(r, l))
    ensures var r' := RaceAfter(r, l);
            match l
            case AdapterStarts(_) => r'.started && r'.settlement == r.settlement
            case AdapterEnds(_, outcome) => r.settlement.None? && r.started ==> r'.settlement == Some(outcome)
            case TimerFires(_) => r'.aborted && (r.settlement.None? ==> r'.settlement == Some(Rejected("Timeout")))
            case ExternalAbort(_) => r'.aborted && r'.settlement == r.settlement
            case _ => r' == r
  {
  }

  lemma RaceCounts(executions: seq<nat>, d: nat, starts: bool, e: nat)
    ensures Count(executions + (if starts then [d] else []), e)
              == Count(executions, e) + (if starts && e == d then 1 else 0)
  {
    if starts {
      CountAppend(executions, d, e);
    } else {
      assert executions + [] == executions;
    }
  }

  /** What happens inside a race concerns that race, and an execution if the adapter starts. */
  lemma RaceTouches(c: Config, s: State, d: nat, r': Race)
    requires Shaped(c, s) && d < |c.requests|
    ensures var s' := RaceStep(s, d, r');
            && OnlyTouches(c, s, s', d)
            && s'.saved == s.saved && s'.events == s.events && s'.histories == s.histories
            && s'.procs[d] == s.procs[d].(race := r')
            && Count(s'.executions, d)
               == Count(s.executions, d) + (if r'.started && !s.procs[d].race.started then 1 else 0)
  {
    forall e
      ensures Count(RaceStep(s, d, r').executions, e)
           == Count(s.executions, e) + (if r'.started && !s.procs[d].race.started && e == d then 1 else 0)
    {
      RaceCounts(s.executions, d, r'.started && !s.procs[d].race.started, e);
    }
  }

  /** A dispatch that ended with a settled race has ended so however the race moves on. */
  lemma EndedKeeps(c: Config, s: State, s': State, d: nat, r: Result)
    requires Shaped(c, s) && Shaped(c, s') && d < |c.requests| && Ended(c, s, d, r)
    requires s'.saved == s.saved && s'.events == s.events && s'.histories == s.histories
    requires s.procs[d].race.settlement.Some? && RaceMoves(s.procs[d].race, s'.procs[d].race)
    ensures Ended(c, s', d, r)
  {
  }

  /** Whatever happens inside the race leaves the rest of the dispatch, and all others, alone. */
  lemma RaceKeeps(c: Config, s: State, d: nat, r': Race)
    requires Shaped(c, s) && d < |c.requests| && Consistent(c, s, d) && InRace(s, d)
    requires RaceMoves(s.procs[d].race, r')
    ensures OnlyTouches(c, s, RaceStep(s, d, r'), d) && Consistent(c, RaceStep(s, d, r'), d)
  {
    RaceTouches(c, s, d, r');
    if s.procs[d].phase == Done {
      EndedKeeps(c, s, RaceStep(s, d, r'), d, s.procs[d].result.value);
    }
  }

  /** A step of one dispatch is local to it and keeps it consistent. */
  lemma StepTouches(c: Config, s: State, l: Label)
    requires DistinctActions(c) && Inv(c, s) && l.d < |c.requests|
    ensures OnlyTouches(c, s, Step(c, s, l), l.d) && Consistent(c, Step(c, s, l), l.d)
  {
    var d := l.d;
    assert Consistent(c, s, d);
    match l {
      case Begin(_, adapterPresent) =>
        if s.procs[d].phase == Idle { BeginKeeps(c, s, d, adapterPresent); }
      case PermissionAnswered(_, allowed, adapterPresent) =>
        if s.procs[d].phase == AwaitingPermission { PermissionKeeps(c, s, d, allowed, adapterPresent); }
      case Resume(_) =>
        if s.procs[d].phase == Racing && s.procs[d].race.settlement.Some? { ResumeKeeps(c, s, d); }
      case _ =>
        if InRace(s, d) {
          RaceAfterMoves(s.procs[d].race, l);
          RaceKeeps(c, s, d, RaceAfter(s.procs[d].race, l));
        }
    }
  }

  /** The invariant survives every step of every dispatch. */
  lemma StepKeeps(c: Config, s: State, l: Label)
    requires DistinctActions(c) && Inv(c, s)
    ensures Inv(c, Step(c, s, l))
  {
    if l.d < |c.requests| {
      StepTouches(c, s, l);
      forall e | 0 <= e < |c.requests| && e != l.d ensures Consistent(c, Step(c, s, l), e) {
        OthersStay(c, s, Step(c, s, l), l.d, e);
      }
    }
  }

  // -------------------------------------------------------------------- over whole runs

  lemma InitHolds(c: Config)
    ensures Inv(c, Init(c))
  {
  }

  /** The state after any sequence of labels, in any interleaving, from a consistent one. */
  ghost function RunFrom(c: Config, s: State, labels: seq<Label>): (s': State)
    requires DistinctActions(c) && Inv(c, s)
    ensures Inv(c, s')
    decreases |labels|
  {
    if labels == [] then s
    else
      var before := RunFrom(c, s, labels[..|labels| - 1]);
      StepKeeps(c, before, labels[|labels| - 1]);
      Step(c, before, labels[|labels| - 1])
  }

  /** The state after any sequence of labels from the start. */
  ghost function Run(c: Config, labels: seq<Label>): (s: State)
    requires DistinctActions(c)
    ensures Inv(c, s)
  {
    InitHolds(c);
    RunFrom(c, Init(c), labels)
  }

  lemma {:induction false} CountPositive(executions: seq<nat>, i: nat)
    requires i < |executions|
    ensures Count(executions, executions[i]) >= 1
    decreases |executions|
  {
    if i < |executions| - 1 {
      CountPositive(executions[..|executions| - 1], i);
    }
  }

  lemma CountTwice(executions: seq<nat>, i: nat, j: nat)
    requires i < j < |executions| && executions[i] == executions[j]
    ensures Count(executions, executions[i]) >= 2
    decreases |executions|
  {
    var init := executions[..|executions| - 1];
    if j < |init| {
      CountTwice(init, i, j);
    } else {
      CountPositive(init, i);
    }
  }

  /** Only an admitted dispatch ever reaches its adapter. */
  lemma ExecutedIsAdmitted(c: Config, s: State, i: nat)
    requires Inv(c, s) && i < |s.executions|
    ensures Admitted(c, s, s.executions[i])
  {
    CountPositive(s.executions, i);
    assert Consistent(c, s, s.executions[i]);
  }

  /** In every run: no dispatch calls its adapter twice, and no two calls share an idempotency key. */
  lemma OneExecutionPerKey(c: Config, labels: seq<Label>, i: nat, j: nat)
    requires DistinctActions(c) && i < j < |Run(c, labels).executions|
    ensures var ex := Run(c, labels).executions;
            ex[i] != ex[j] && (c.requests[ex[i]].idempotencyKey != "" ==>
                               c.requests[ex[i]].idempotencyKey != c.requests[ex[j]].idempotencyKey)
  {
    var s := Run(c, labels);
    ExecutedIsAdmitted(c, s, i);
    ExecutedIsAdmitted(c, s, j);
    assert Consistent(c, s, s.executions[i]);
    if s.executions[i] == s.executions[j] {
      CountTwice(s.executions, i, j);
    }
  }

  /** In every run: a finished valid dispatch under a key is the first saved one, or its result names the first. */
  lemma DuplicateNamesTheFirst(c: Config, labels: seq<Label>, d: nat)
    requires DistinctActions(c) && d < |c.requests| && ValidAction(c.requests[d]) && c.requests[d].idempotencyKey != ""
    requires Run(c, labels).procs[d].phase == Done
    ensures var s := Run(c, labels);
            var first := FirstUnder(c, s.saved, c.requests[d].idempotencyKey);
            && first.Some? && s.procs[d].result.Some?
            && (first.value != d ==>
                s.procs[d].result.value.duplicateOf == Some(c.requests[first.value].actionId) && d !in s.executions)
            && (first.value == d ==> s.procs[d].result.value.duplicateOf == None)
            && (first.value != d ==> DuplicateEnd(c.requests[d], s.procs[d].result.value, s.histories[d]))
            && exists i :: 0 <= i < |s.saved| && IsFirstUnder(c, s.saved, i, c.requests[d].idempotencyKey)
                 && s.saved[i] == first.value
  {
    var s := Run(c, labels);
    assert Consistent(c, s, d);
    FirstUnderIsFirst(c, s.saved, c.requests[d].idempotencyKey);
    if d in s.executions {
      var i :| 0 <= i < |s.executions| && s.executions[i] == d;
      ExecutedIsAdmitted(c, s, i);
    }
  }

  /** The `i`-th saved dispatch has the key, and none saved before it has. */
  ghost predicate IsFirstUnder(c: Config, saved: seq<nat>, i: nat, key: string)
    requires Bounded(c, saved) && i < |saved|
  {
    && c.requests[saved[i]].idempotencyKey == key
    && forall j :: 0 <= j < i ==> c.requests[saved[j]].idempotencyKey != key
  }

  lemma {:induction false} FirstUnderIsFirst(c: Config, saved: seq<nat>, key: string)
    requires Bounded(c, saved)
    ensures FirstUnder(c, saved, key).Some? ==>
              exists i :: 0 <= i < |saved| && IsFirstUnder(c, saved, i, key)
                && saved[i] == FirstUnder(c, saved, key).value
  {
    if saved != [] {
      var init := saved[..|saved| - 1];
      FirstUnderIsFirst(c, init, key);
      FirstUnderHolds(c, init, key);
      if FirstUnder(c, init, key).Some? {
        var i :| 0 <= i < |init| && IsFirstUnder(c, init, i, key) && init[i] == FirstUnder(c, init, key).value;
        assert IsFirstUnder(c, saved, i, key);
      } else if FirstUnder(c, saved, key).Some? {
        forall j | 0 <= j < |init|
          ensures c.requests[saved[j]].idempotencyKey != key
        {
          assert init[j] in init;
        }
        assert IsFirstUnder(c, saved, |init|, key);
      }
    }
  }

  // ----------------------------------------------------------- what causes an outcome

  /** The action names its type, id, module and target action, and one of the known runtimes. */
  ghost predicate IsComplete(a: Action) {
    && a.actionType != "" && a.actionId != "" && a.sourceModule != "" && a.targetAction != ""
    && (a.targetRuntime == "agent_kernel" || a.targetRuntime == "subagent_runtime" || a.targetRuntime == "tool_plane"
        || a.targetRuntime == "workflow_runtime" || a.targetRuntime == "event_trigger_runtime"
        || a.targetRuntime == "permission_engine" || a.targetRuntime == "gateway"
        || a.targetRuntime == "notification_center" || a.targetRuntime == "connector_runtime"
        || a.targetRuntime == "memory_system" || a.targetRuntime == "summary_manager"
        || a.targetRuntime == "replay_service" || a.targetRuntime == "foreground_conversation_agent"
        || a.targetRuntime == "planner_runtime")
  }

  /** Somebody answered the permission hook, if there is one, and the adapter lookup, in these ways. */
  ghost predicate LookedUp(c: Config, labels: seq<Label>, d: nat, adapterPresent: bool) {
    if c.hasPermissionHook then PermissionAnswered(d, true, adapterPresent) in labels
    else Begin(d, adapterPresent) in labels
  }

  /**
   Everything a dispatch has come to was caused by a step of its own: it executes only once
   allowed and found, it is denied only by the hook, and its race settles as its adapter
   or its timer said.
   */
  ghost predicate IsCaused(c: Config, labels: seq<Label>, d: nat, p: Proc) {
    && (p.phase == AwaitingPermission ==> c.hasPermissionHook)
    && (p.phase == Racing || p.race != FreshRace ==> LookedUp(c, labels, d, true))
    && (p.race.started ==> AdapterStarts(d) in labels)
    && (p.race.aborted ==> TimerFires(d) in labels || ExternalAbort(d) in labels)
    && (p.race.settlement.Some? ==>
          || AdapterEnds(d, p.race.settlement.value) in labels
          || (p.race.settlement.value == Rejected("Timeout") && TimerFires(d) in labels))
    && (p.result.Some? && p.race == FreshRace ==> IsCausedEarly(c, labels, d, p.result.value))
  }

  /** The same for a dispatch that ended before its race. */
  ghost predicate IsCausedEarly(c: Config, labels: seq<Label>, d: nat, r: Result)
  {
    && (exists adapterPresent :: Begin(d, adapterPresent) in labels)
    && (r.status == Denied ==>
          c.hasPermissionHook && exists adapterPresent :: PermissionAnswered(d, false, adapterPresent) in labels)
    && (r.code == "target_runtime_unavailable" ==> LookedUp(c, labels, d, false))
  }
  lemma ValidIsComplete(a: Action)
    ensures ValidAction(a) <==> IsComplete(a)
  {
  }

  /** Where the adapter lookup leads: to the race, or to the end. */
  ghost predicate AfterLookup(p: Proc, adapterPresent: bool) {
    p == if adapterPresent then Proc(Racing, FreshRace, None)
         else Proc(Done, FreshRace, Some(Result(Failed, "target_runtime_unavailable", None, false)))
  }

  lemma LookUpDecides(c: Config, s: State, d: nat, adapterPresent: bool)
    requires Shaped(c, s) && d < |c.requests| && s.procs[d].race == FreshRace && s.procs[d].result == None
    ensures AfterLookup(LookUpAndStart(c, s, d, adapterPresent).procs[d], adapterPresent)
  {
  }

  /** The answer of the permission hook decides: denied, or on to the lookup. */
  lemma PermissionDecides(c: Config, s: State, d: nat, allowed: bool, adapterPresent: bool)
    requires Inv(c, s) && d < |c.requests| && s.procs[d].phase == AwaitingPermission
    ensures var p := Step(c, s, PermissionAnswered(d, allowed, adapterPresent)).procs[d];
            if allowed then AfterLookup(p, adapterPresent)
            else p == Proc(Done, FreshRace, Some(Result(Denied, "permission_denied", None, false)))
  {
    assert Consistent(c, s, d);
    LookUpDecides(c, s, d, adapterPresent);
  }

  /** Another saved action has the key of this one. */
  ghost predicate KeyIsHeld(c: Config, s: State, d: nat)
    requires Shaped(c, s) && d < |c.requests|
  {
    && c.requests[d].idempotencyKey != ""
    && exists e :: e in s.saved && c.requests[e].idempotencyKey == c.requests[d].idempotencyKey
  }

  /** `e` is the saved dispatch whose action this one repeats. */
  ghost predicate Repeats(c: Config, s: State, d: nat, e: nat)
    requires Shaped(c, s) && d < |c.requests|
  {
    e in s.saved && e < |c.requests| && c.requests[e].idempotencyKey == c.requests[d].idempotencyKey
  }

  lemma FirstRepeated(c: Config, s: State, d: nat)
    requires DistinctActions(c) && Shaped(c, s) && d < |c.requests| && d !in s.saved
    ensures var key := c.requests[d].idempotencyKey;
            var first := FirstUnder(c, s.saved + [d], key);
            && first.Some? && (key != "" && KeyIsHeld(c, s, d) <==> key != "" && first.value != d)
            && (first.value != d ==> Repeats(c, s, d, first.value)
                                     && c.requests[first.value].actionId != c.requests[d].actionId)
  {
    FirstUnderAppend(c, s.saved, d, c.requests[d].idempotencyKey);
    FirstUnderHolds(c, s.saved, c.requests[d].idempotencyKey);
  }

  lemma ResolvedProc(c: Config, s: State, d: nat, first: nat)
    requires Shaped(c, s) && d < |c.requests| && first < |c.requests|
    ensures var p := ResolveDuplicate(c, s, d, first).procs[d];
            && p == s.procs[d].(phase := Done, result := p.result) && p.result.Some?
            && p.result.value.duplicateOf == Some(c.requests[first].actionId)
            && p.result.value.code in {"", "duplicate_rejected"} && p.result.value.status in {Duplicate, Failed}
  {
  }

  /** Where the code goes after saving and accepting an action. */
  function Onward(c: Config, s1: State, d: nat, adapterPresent: bool): State
    requires Shaped(c, s1) && d < |c.requests| && FirstUnder(c, s1.saved, c.requests[d].idempotencyKey).Some?
  {
    var a := c.requests[d];
    var first := FirstUnder(c, s1.saved, a.idempotencyKey).value;
    if a.idempotencyKey != "" && c.requests[first].actionId != a.actionId then ResolveDuplicate(c, s1, d, first)
    else if c.hasPermissionHook then Goto(s1, d, AwaitingPermission)
    else LookUpAndStart(c, s1, d, adapterPresent)
  }

  lemma BeginGoesOn(c: Config, s: State, d: nat, adapterPresent: bool)
    requires Shaped(c, s) && d < |c.requests| && Consistent(c, s, d) && s.procs[d].phase == Idle
    requires ValidAction(c.requests[d])
    ensures var s1 := Accept(c, s, d);
            && Shaped(c, s1) && s1.saved == s.saved + [d] && s1.procs == s.procs
            && (forall e :: 0 <= e < |c.requests| && e != d ==> s1.histories[e] == s.histories[e])
            && FirstUnder(c, s1.saved, c.requests[d].idempotencyKey).Some?
            && BeginStep(c, s, d, adapterPresent) == Onward(c, s1, d, adapterPresent)
  {
    AcceptKeeps(c, s, d);
  }

  /**
   How a dispatch begins: incomplete actions end at once, so do those whose key is held; the
   others wait for the hook if there is one, and are looked up otherwise.
   */
  lemma BeginDecides(c: Config, s: State, d: nat, adapterPresent: bool)
    requires DistinctActions(c) && Inv(c, s) && d < |c.requests| && s.procs[d].phase == Idle
    ensures var p := Step(c, s, Begin(d, adapterPresent)).procs[d];
            if !IsComplete(c.requests[d]) then
              p == Proc(Done, FreshRace, Some(Result(Failed, "invalid_action", None, false)))
            else if KeyIsHeld(c, s, d) then
              p.phase == Done && p.race == FreshRace && p.result.Some? && p.result.value.duplicateOf.Some?
                && p.result.value.code in {"", "duplicate_rejected"} && p.result.value.status in {Duplicate, Failed}
            else if c.hasPermissionHook then p == Proc(AwaitingPermission, FreshRace, None)
            else AfterLookup(p, adapterPresent)
  {
    assert Consistent(c, s, d);
    ValidIsComplete(c.requests[d]);
    if ValidAction(c.requests[d]) {
      var s1 := Accept(c, s, d);
      BeginGoesOn(c, s, d, adapterPresent);
      FirstRepeated(c, s, d);
      ResolvedProc(c, s1, d, FirstUnder(c, s1.saved, c.requests[d].idempotencyKey).value);
      LookUpDecides(c, s1, d, adapterPresent);
    }
  }

  /** A duplicate that neither writes nor asks for anything else names the first action and says if it is under way. */
  lemma PreviousIsReported(c: Config, s: State, d: nat, adapterPresent: bool)
    requires DistinctActions(c) && Inv(c, s) && d < |c.requests| && s.procs[d].phase == Idle
    requires IsComplete(c.requests[d]) && KeyIsHeld(c, s, d)
    requires c.requests[d].duplicateBehavior in {None, Some(ReturnPrevious)}
    requires c.requests[d].targetAction !in {"write", "delete", "send", "execute"}
    ensures exists e: nat :: Repeats(c, s, d, e) && s.histories[e] != []
              && Step(c, s, Begin(d, adapterPresent)).procs[d].result
                 == Some(Result(Duplicate, "", Some(c.requests[e].actionId),
                                s.histories[e][|s.histories[e]| - 1] in {Dispatching, Queued, WaitingForApproval}))
  {
    assert Consistent(c, s, d);
    ValidIsComplete(c.requests[d]);
    BeginGoesOn(c, s, d, adapterPresent);
    FirstRepeated(c, s, d);
    var e := FirstUnder(c, s.saved + [d], c.requests[d].idempotencyKey).value;
    assert Consistent(c, s, e);
    SavedHasHistory(c, s, e);
  }

  lemma SavedHasHistory(c: Config, s: State, e: nat)
    requires Inv(c, s) && e in s.saved && e < |c.requests|
    ensures s.histories[e] != []
  {
    assert Consistent(c, s, e);
  }

  /** What was caused stays caused as the run goes on. */
  lemma CausedStays(c: Config, labels: seq<Label>, l: Label, d: nat, p: Proc)
    requires IsCaused(c, labels, d, p)
    ensures IsCaused(c, labels + [l], d, p)
  {
    assert forall x :: x in labels ==> x in labels + [l];
    if p.result.Some? && p.race == FreshRace {
      EarlyStays(c, labels, l, d, p.result.value);
    }
  }

  lemma EarlyStays(c: Config, labels: seq<Label>, l: Label, d: nat, r: Result)
    requires IsCausedEarly(c, labels, d, r)
    ensures IsCausedEarly(c, labels + [l], d, r)
  {
    assert forall x :: x in labels ==> x in labels + [l];
    var present :| Begin(d, present) in labels;
    assert Begin(d, present) in labels + [l];
    if r.status == Denied {
      var present' :| PermissionAnswered(d, false, present') in labels;
      assert PermissionAnswered(d, false, present') in labels + [l];
    }
  }

  /** The dispatch was begun, if it is no longer idle. */
  ghost predicate WasBegun(labels: seq<Label>, d: nat, p: Proc) {
    p.phase != Idle ==> exists adapterPresent :: Begin(d, adapterPresent) in labels
  }

  lemma BeginCauses(c: Config, labels: seq<Label>, s: State, d: nat, adapterPresent: bool)
    requires DistinctActions(c) && Inv(c, s) && d < |c.requests| && s.procs[d].phase == Idle
    requires Begin(d, adapterPresent) in labels
    ensures IsCaused(c, labels, d, Step(c, s, Begin(d, adapterPresent)).procs[d])
  {
    BeginDecides(c, s, d, adapterPresent);
  }

  lemma PermissionCauses(c: Config, labels: seq<Label>, s: State, d: nat, allowed: bool, adapterPresent: bool)
    requires Inv(c, s) && d < |c.requests| && s.procs[d].phase == AwaitingPermission && c.hasPermissionHook
    requires PermissionAnswered(d, allowed, adapterPresent) in labels && WasBegun(labels, d, s.procs[d])
    ensures IsCaused(c, labels, d, Step(c, s, PermissionAnswered(d, allowed, adapterPresent)).procs[d])
  {
    PermissionDecides(c, s, d, allowed, adapterPresent);
  }

  /** A race moves by the label that moves it. */
  lemma RaceCauses(c: Config, labels: seq<Label>, d: nat, p: Proc, l: Label)
    requires IsCaused(c, labels, d, p) && l in labels && l.d == d && RaceOk(p.race) && LookedUp(c, labels, d, true)
    requires p.race == FreshRace ==> p.result.None?
    ensures IsCaused(c, labels, d, p.(race := RaceAfter(p.race, l)))
  {
  }

  lemma OwnStepCaused(c: Config, labels: seq<Label>, s: State, l: Label)
    requires DistinctActions(c) && Inv(c, s) && l.d < |c.requests| && l in labels
    requires IsCaused(c, labels, l.d, s.procs[l.d]) && WasBegun(labels, l.d, s.procs[l.d])
    ensures IsCaused(c, labels, l.d, Step(c, s, l).procs[l.d]) && WasBegun(labels, l.d, Step(c, s, l).procs[l.d])
  {
    var d := l.d;
    assert Consistent(c, s, d);
    match l {
      case Begin(_, adapterPresent) =>
        if s.procs[d].phase == Idle { BeginCauses(c, labels, s, d, adapterPresent); }
      case PermissionAnswered(_, allowed, adapterPresent) =>
        if s.procs[d].phase == AwaitingPermission { PermissionCauses(c, labels, s, d, allowed, adapterPresent); }
      case Resume(_) =>
      case _ =>
        if InRace(s, d) { RaceCauses(c, labels, d, s.procs[d], l); }
    }
  }

  /** In every run, for every dispatch: whatever it has come to was caused by labels of its own. */
  lemma {:induction false} EverythingIsCaused(c: Config, labels: seq<Label>, d: nat)
    requires DistinctActions(c) && d < |c.requests|
    ensures var p := Run(c, labels).procs[d]; IsCaused(c, labels, d, p) && WasBegun(labels, d, p)
    decreases |labels|
  {
    if labels != [] {
      var before, l := labels[..|labels| - 1], labels[|labels| - 1];
      var s := Run(c, before);
      EverythingIsCaused(c, before, d);
      CausedStays(c, before, l, d, s.procs[d]);
      assert labels == before + [l] && l in labels;
      assert WasBegun(labels, d, s.procs[d]) by {
        assert forall x :: x in before ==> x in labels;
      }
      assert Run(c, labels) == Step(c, s, l);
      if l.d == d {
        OwnStepCaused(c, labels, s, l);
      } else if l.d < |c.requests| {
        StepTouches(c, s, l);
      }
    }
  }

  predicate Terminal(st: ActionState) {
    st == CompletedState || st == FailedState || st == TimeoutState || st == DeniedState || st == DuplicateState
  }

  /** Saved as it came, optionally dispatching, then at most one terminal state. */
  ghost predicate LegalHistory(h: seq<ActionState>, saved: ActionState) {
    || h == []
    || (1 <= |h| <= 3 && h[0] == saved
        && (|h| == 2 ==> h[1] == Dispatching || Terminal(h[1]))
        && (|h| == 3 ==> h[1] == Dispatching && Terminal(h[2])))
  }

  predicate FinalEvent(k: EventKind) {
    k == CompletedEvent || k == FailedEvent || k == ValidationFailed || k == DeniedEvent || k == DuplicateEvent
  }

  /** requested, then validation_failed; or accepted, then denied, duplicate, or [started,] completed or failed. */
  ghost predicate LegalWord(w: seq<(EventKind, Option<Status>)>) {
    || w == []
    || (w[0].0 == Requested && |w| == 2 && w[1].0 == ValidationFailed)
    || (w[0].0 == Requested && |w| >= 2 && w[1].0 == AcceptedEvent
        && (|w| == 2
            || (|w| == 3 && w[2].0 in {DuplicateEvent, DeniedEvent, FailedEvent, Started})
            || (|w| == 4 && w[2].0 == Started && w[3].0 in {CompletedEvent, FailedEvent})))
  }

  /**
   What the first settlement of a race makes of its dispatch: a success is stored and returned as
   completed, a rejection that says "Timeout" as timed out, any other as failed.
   */
  ghost predicate RaceDecides(outcome: Settlement, r: Result, h: seq<ActionState>, w: seq<(EventKind, Option<Status>)>)
  {
    && h != [] && w != [] && r.duplicateOf.None? && !r.waiting
    && match outcome
       case Resolved =>
         && r.status == Completed && r.code == ""
         && h[|h| - 1] == CompletedState && w[|w| - 1] == (CompletedEvent, Some(Completed))
       case Rejected(message) =>
         if message == "Timeout" then
           && r.status == TimedOut && r.code == "timeout"
           && h[|h| - 1] == TimeoutState && w[|w| - 1] == (FailedEvent, Some(TimedOut))
         else
           && r.status == Failed && r.code == "target_runtime_error"
           && h[|h| - 1] == FailedState && w[|w| - 1] == (FailedEvent, Some(Failed))
  }

  /** Whatever ends a dispatch leaves a legal word with one final event that agrees with the result. */
  lemma EndedIsLegal(c: Config, s: State, d: nat, r: Result)
    requires Shaped(c, s) && d < |c.requests| && Ended(c, s, d, r)
    ensures var w := Word(s.events, d);
            && LegalWord(w) && w != [] && FinalEvent(w[|w| - 1].0) && w[|w| - 1].1 == Some(r.status)
            && LegalHistory(s.histories[d], c.requests[d].status) && RaceOk(s.procs[d].race)
            && (s.procs[d].race.settlement.Some? ==>
                  RaceDecides(s.procs[d].race.settlement.value, r, s.histories[d], w))
            && (s.procs[d].race.settlement.None? ==>
                  s.procs[d].race == FreshRace && w[|w| - 1].0 != CompletedEvent)
  {
  }

  /**
   In every run and for every dispatch: legal statuses, a legal event word, and a final
   event that agrees with the result.
   */
  lemma Lifecycle(c: Config, labels: seq<Label>, d: nat)
    requires DistinctActions(c) && d < |c.requests|
    ensures var s := Run(c, labels);
            var w, p := Word(s.events, d), s.procs[d];
            && LegalHistory(s.histories[d], c.requests[d].status)
            && LegalWord(w)
            && RaceOk(p.race)
            && (p.phase == Done <==> p.result.Some?)
            && (p.phase == Done <==> w != [] && FinalEvent(w[|w| - 1].0))
            && (p.phase == Done ==> w[|w| - 1].1 == Some(p.result.value.status))
            && (p.phase == Done && p.race.settlement.Some? ==>
                  RaceDecides(p.race.settlement.value, p.result.value, s.histories[d], w))
            && (p.phase == Done && p.race.settlement.None? ==> p.race == FreshRace && w[|w| - 1].0 != CompletedEvent)
  {
    var s := Run(c, labels);
    assert Consistent(c, s, d);
    if s.procs[d].phase == Done {
      EndedIsLegal(c, s, d, s.procs[d].result.value);
    }
  }

  // ------------------------------------------------------------------------- stability

  /** What one dispatch has achieved in `s` is still there in `s'`. */
  ghost predicate Keeps(c: Config, s: State, s': State, d: nat)
    requires Shaped(c, s) && Shaped(c, s') && d < |c.requests|
  {
    && s.histories[d] <= s'.histories[d]
    && (s.procs[d].result.Some? ==> s'.procs[d].result == s.procs[d].result && s'.histories[d] == s.histories[d])
    && (s.procs[d].race.settlement.Some? ==> s'.procs[d].race.settlement == s.procs[d].race.settlement)
    && (FirstUnder(c, s.saved, c.requests[d].idempotencyKey).Some? ==>
          FirstUnder(c, s'.saved, c.requests[d].idempotencyKey) == FirstUnder(c, s.saved, c.requests[d].idempotencyKey))
  }

  lemma LookUpExtends(c: Config, s: State, d: nat, adapterPresent: bool)
    requires DistinctActions(c) && ReadyToStart(c, s, d)
    ensures s.histories[d] <= LookUpAndStart(c, s, d, adapterPresent).histories[d]
  {
    UpdateTouches(c, s, d, Dispatching);
    UpdateTouches(c, s, d, FailedState);
  }

  lemma OwnStepExtends(c: Config, s: State, l: Label)
    requires DistinctActions(c) && Inv(c, s) && l.d < |c.requests|
    ensures var s' := Step(c, s, l);
            && s.histories[l.d] <= s'.histories[l.d]
            && (s.procs[l.d].result.Some? ==>
                s'.procs[l.d].result == s.procs[l.d].result && s'.histories[l.d] == s.histories[l.d])
            && (s.procs[l.d].race.settlement.Some? ==> s'.procs[l.d].race.settlement == s.procs[l.d].race.settlement)
  {
    var d := l.d;
    assert Consistent(c, s, d);
    match l {
      case PermissionAnswered(_, allowed, adapterPresent) =>
        if s.procs[d].phase == AwaitingPermission {
          LookUpExtends(c, s, d, adapterPresent);
          UpdateTouches(c, s, d, DeniedState);
        }
      case Resume(_) =>
        if s.procs[d].phase == Racing && s.procs[d].race.settlement.Some? {
          UpdateTouches(c, s, d, StateOf(s.procs[d].race.settlement.value));
        }
      case _ =>
    }
  }

  lemma StepExtends(c: Config, s: State, l: Label, e: nat)
    requires DistinctActions(c) && Inv(c, s) && e < |c.requests|
    ensures Inv(c, Step(c, s, l)) && Keeps(c, s, Step(c, s, l), e)
  {
    StepKeeps(c, s, l);
    if l.d < |c.requests| {
      StepTouches(c, s, l);
      OwnStepExtends(c, s, l);
      FirstUnderAppend(c, s.saved, l.d, c.requests[e].idempotencyKey);
    }
  }

  lemma KeepsTwice(c: Config, s: State, s': State, s'': State, d: nat)
    requires Shaped(c, s) && Shaped(c, s') && Shaped(c, s'') && d < |c.requests| && Keeps(c, s, s', d)
    requires Keeps(c, s', s'', d)
    ensures Keeps(c, s, s'', d)
  {
  }

  lemma {:induction false} RunFromKeeps(c: Config, s: State, labels: seq<Label>, d: nat)
    requires DistinctActions(c) && Inv(c, s) && d < |c.requests|
    ensures Keeps(c, s, RunFrom(c, s, labels), d)
    decreases |labels|
  {
    if labels != [] {
      var before, last := RunFrom(c, s, labels[..|labels| - 1]), labels[|labels| - 1];
      RunFromKeeps(c, s, labels[..|labels| - 1], d);
      StepExtends(c, before, last, d);
      KeepsTwice(c, s, before, Step(c, before, last), d);
    }
  }

  lemma {:induction false} RunSplits(c: Config, s: State, labels: seq<Label>, more: seq<Label>)
    requires DistinctActions(c) && Inv(c, s)
    ensures RunFrom(c, s, labels + more) == RunFrom(c, RunFrom(c, s, labels), more)
    decreases |more|
  {
    if more == [] {
      assert labels + more == labels;
    } else {
      assert (labels + more)[..|labels + more| - 1] == labels + more[..|more| - 1];
      RunSplits(c, s, labels, more[..|more| - 1]);
    }
  }

  /**
   Along every run: stored statuses only grow, and a result, a settlement and the first
   holder of a key never change.
   */
  lemma RunExtends(c: Config, labels: seq<Label>, more: seq<Label>, d: nat)
    requires DistinctActions(c) && d < |c.requests|
    ensures Keeps(c, Run(c, labels), Run(c, labels + more), d)
  {
    InitHolds(c);
    RunSplits(c, Init(c), labels, more);
    RunFromKeeps(c, Run(c, labels), more, d);
  }

  /** A terminal status was stored by the dispatcher. */
  ghost predicate Finished(h: seq<ActionState>) {
    |h| >= 2 && Terminal(h[|h| - 1])
  }

  lemma HistoryIsLegal(c: Config, labels: seq<Label>, d: nat)
    requires DistinctActions(c) && d < |c.requests|
    ensures LegalHistory(Run(c, labels).histories[d], c.requests[d].status)
  {
    Lifecycle(c, labels, d);
  }

  lemma HistoryGrows(c: Config, labels: seq<Label>, more: seq<Label>, d: nat)
    requires DistinctActions(c) && d < |c.requests|
    ensures var h, h' := Run(c, labels).histories[d], Run(c, labels + more).histories[d];
            LegalHistory(h, c.requests[d].status) && LegalHistory(h', c.requests[d].status) && h <= h'
                && (Finished(h) ==> h' == h)
  {
    HistoryIsLegal(c, labels, d);
    HistoryIsLegal(c, labels + more, d);
    RunExtends(c, labels, more, d);
    var h, h' := Run(c, labels).histories[d], Run(c, labels + more).histories[d];
    if Finished(h) {
      LegalHistoryEnds(h, h', c.requests[d].status);
    }
  }

  lemma LegalHistoryEnds(h: seq<ActionState>, h': seq<ActionState>, saved: ActionState)
    requires LegalHistory(h, saved) && LegalHistory(h', saved) && h <= h' && Finished(h)
    ensures h == h'
  {
    assert h == h'[..|h|];
    assert h[1] == h'[1];
  }

  /** A terminal status reached through the dispatcher is never left. */
  lemma TerminalIsForever(c: Config, labels: seq<Label>, more: seq<Label>, d: nat)
    requires DistinctActions(c) && d < |c.requests|
    requires Finished(Run(c, labels).histories[d])
    ensures Run(c, labels + more).histories[d] == Run(c, labels).histories[d]
  {
    HistoryGrows(c, labels, more, d);
  }
}
