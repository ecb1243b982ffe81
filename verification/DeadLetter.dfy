/**
 The dead letter queue (src/dead-letter/dead-letter-queue.ts) over its record
 table (src/dead-letter/dead-letter-store.ts).

 `retry` suspends at the retry handler, so it is two operations here: `BeginRetry`
 runs up to the await and `FinishRetry` is what happens once the handler answered.
 A run is any sequence of operations, with the halves of any number of retries
 interleaved with each other and with everything else. `inFlight` holds the
 event id of every suspended retry.
 */
module DeadLetter {
  import opened Common

  datatype Status = Pending | Retrying | Discarded | Resolved

  datatype Record = Record(
    sourceModule: string, sourceId: string, reason: string, payload: Option<string>,
    status: Status, failureCount: nat, lastError: Option<string>,
    enqueuedAt: int, updatedAt: int, discardedAt: Option<int>, resolvedAt: Option<int>)

  /** What the retry handler answered; throwing is failing with the exception's message. */
  datatype Outcome = Succeeded | Failed(error: Option<string>)

  /** The operations, each with the id it is about and the time of the clock. */
  datatype Op =
    | Enqueue(id: string, sourceModule: string, sourceId: string, reason: string, payload: Option<string>, now: int)
    | BeginRetry(id: string, now: int)
    | FinishRetry(id: string, outcome: Outcome, now: int)
    | Discard(id: string, now: int)

  datatype State = State(table: map<string, Record>, inFlight: multiset<string>)

  const Empty := State(map[], multiset{})

  function FreshRecord(op: Op): Record
    requires op.Enqueue?
  {
    Record(op.sourceModule, op.sourceId, op.reason, op.payload, Pending, 0, None, op.now, op.now, None, None)
  }

  /** A retry is admitted when the record exists and is not discarded. */
  predicate Admits(s: State, id: string) {
    id in s.table && s.table[id].status != Discarded
  }

  /** The row an UPDATE leaves. */
  function Updated(r: Record, status: Status, error: Option<string>, now: int): Record {
    r.(status := status,
       updatedAt := now,
       failureCount := if status == Retrying then r.failureCount + 1 else r.failureCount,
       lastError := if error.Some? then error else r.lastError,
       discardedAt := if status == Discarded then Some(now) else r.discardedAt,
       resolvedAt := if status == Resolved then Some(now) else r.resolvedAt)
  }

  function SetStatus(table: map<string, Record>, id: string, status: Status, error: Option<string>,
                     now: int): map<string, Record> {
    if id in table then table[id := Updated(table[id], status, error, now)] else table
  }

  /** One uninterrupted piece of the queue's work. */
  function Step(s: State, op: Op): State {
    match op
    case Enqueue(id, _, _, _, _, _) =>
      if id in s.table then s else s.(table := s.table[id := FreshRecord(op)])
    case BeginRetry(id, now) =>
      if Admits(s, id) then State(SetStatus(s.table, id, Retrying, None, now), s.inFlight + multiset{id}) else s
    case FinishRetry(id, outcome, now) =>
      if id !in s.inFlight then s
      else
        State(match outcome
              case Succeeded => SetStatus(s.table, id, Resolved, None, now)
              case Failed(error) => SetStatus(s.table, id, Pending, error, now),
              s.inFlight - multiset{id})
    case Discard(id, now) =>
      s.(table := SetStatus(s.table, id, Discarded, None, now))
  }

  ghost function Run(s: State, ops: seq<Op>): State
    decreases |ops|
  {
    if ops == [] then s else Step(Run(s, ops[..|ops| - 1]), ops[|ops| - 1])
  }

  // ---------------------------------------------------------------- the life of a record

  /** What has happened to one record. */
  datatype Happening = Admitted(at: int) | Ended(outcome: Outcome, at: int) | Dropped(at: int)

  function Admissions(life: seq<Happening>): nat {
    if life == [] then 0 else Admissions(life[..|life| - 1]) + if life[|life| - 1].Admitted? then 1 else 0
  }

  function Endings(life: seq<Happening>): nat {
    if life == [] then 0 else Endings(life[..|life| - 1]) + if life[|life| - 1].Ended? then 1 else 0
  }

  /** The latest happening decides. */
  function StatusOf(life: seq<Happening>): Status {
    if life == [] then Pending
    else match life[|life| - 1]
         case Admitted(_) => Retrying
         case Ended(Succeeded, _) => Resolved
         case Ended(Failed(_), _) => Pending
         case Dropped(_) => Discarded
  }

  /** What the latest happening of a kind carried. */
  ghost function Latest<T>(life: seq<Happening>, pick: Happening -> Option<T>): Option<T> {
    if life == [] then None
    else
      var p := pick(life[|life| - 1]);
      if p.Some? then p else Latest(life[..|life| - 1], pick)
  }

  function DropTime(h: Happening): Option<int> {
    if h.Dropped? then Some(h.at) else None
  }

  function SuccessTime(h: Happening): Option<int> {
    if h.Ended? && h.outcome == Succeeded then Some(h.at) else None
  }

  function Complaint(h: Happening): Option<string> {
    if h.Ended? && h.outcome.Failed? then h.outcome.error else None
  }

  function Time(h: Happening): Option<int> {
    Some(h.at)
  }

  /** The first record enqueued under an id. */
  ghost function Origin(ops: seq<Op>, id: string): Option<Record> {
    if ops == [] then None
    else
      OriginAfter(Origin(ops[..|ops| - 1], id), ops[|ops| - 1], id)
  }

  /** What one operation adds to the life of an id. */
  function LifeAfter(life: seq<Happening>, known: bool, op: Op, id: string): seq<Happening> {
    if op.id != id then life
    else match op
         case BeginRetry(_, now) => if known && StatusOf(life) != Discarded then life + [Admitted(now)] else life
         case FinishRetry(_, outcome, now) => if Admissions(life) > Endings(life) then life + [Ended(outcome, now)]
             else life
         case Discard(_, now) => if known then life + [Dropped(now)] else life
         case Enqueue(_, _, _, _, _, _) => life
  }

  function OriginAfter(origin: Option<Record>, op: Op, id: string): Option<Record> {
    if origin.None? && op.Enqueue? && op.id == id then Some(FreshRecord(op)) else origin
  }

  /** What the operations did to one id, told without any table. */
  ghost function Life(ops: seq<Op>, id: string): seq<Happening> {
    if ops == [] then []
    else
      LifeAfter(Life(ops[..|ops| - 1], id), Origin(ops[..|ops| - 1], id).Some?, ops[|ops| - 1], id)
  }

  /** The row is the record first enqueued, brought up to date by its own life. */
  ghost predicate Tells(r: Record, origin: Record, life: seq<Happening>) {
    && r.status == StatusOf(life)
    && r.failureCount == Admissions(life)
    && r.lastError == Latest(life, Complaint)
    && r.discardedAt == Latest(life, DropTime)
    && r.resolvedAt == Latest(life, SuccessTime)
    && r.updatedAt == Latest(life, Time).GetOr(origin.enqueuedAt)
    && r.sourceModule == origin.sourceModule && r.sourceId == origin.sourceId && r.reason == origin.reason
    && r.payload == origin.payload && r.enqueuedAt == origin.enqueuedAt
  }

  /** What the state says about one id is what happened to it. */
  ghost predicate Faithful(s: State, id: string, origin: Option<Record>, life: seq<Happening>) {
    && (id in s.table <==> origin.Some?)
    && (origin.Some? ==> Tells(s.table[id], origin.value, life))
    && (origin.None? ==> life == [])
    && s.inFlight[id] == Admissions(life) - Endings(life)
  }

  lemma OneMore(life: seq<Happening>, h: Happening)
    ensures Admissions(life + [h]) == Admissions(life) + if h.Admitted? then 1 else 0
    ensures Endings(life + [h]) == Endings(life) + if h.Ended? then 1 else 0
    ensures Latest(life + [h], Complaint) == if Complaint(h).Some? then Complaint(h) else Latest(life, Complaint)
    ensures Latest(life + [h], DropTime) == if DropTime(h).Some? then DropTime(h) else Latest(life, DropTime)
    ensures Latest(life + [h], SuccessTime) == if SuccessTime(h).Some? then SuccessTime(h)
              else Latest(life, SuccessTime)
    ensures Latest(life + [h], Time) == Some(h.at)
  {
    assert (life + [h])[..|life|] == life;
  }

  lemma StepIsFaithful(s: State, op: Op, id: string, origin: Option<Record>, life: seq<Happening>)
    requires Faithful(s, id, origin, life)
    ensures Faithful(Step(s, op), id, OriginAfter(origin, op, id), LifeAfter(life, origin.Some?, op, id))
  {
    if op.id == id {
      match op {
        case BeginRetry(_, now) => OneMore(life, Admitted(now));
        case FinishRetry(_, outcome, now) => OneMore(life, Ended(outcome, now));
        case Discard(_, now) => OneMore(life, Dropped(now));
        case Enqueue(_, _, _, _, _, _) =>
      }
    }
  }

  /**
   Over every interleaving, each row is told by its own life, and the retries in flight
   are those admitted and not ended.
   */
  lemma {:induction false} EveryRowIsItsLife(ops: seq<Op>, id: string)
    ensures Faithful(Run(Empty, ops), id, Origin(ops, id), Life(ops, id))
    decreases |ops|
  {
    if ops != [] {
      var before := ops[..|ops| - 1];
      EveryRowIsItsLife(before, id);
      StepIsFaithful(Run(Empty, before), ops[|ops| - 1], id, Origin(before, id), Life(before, id));
    }
  }

  /** In every life, the retries that ended were admitted before, and one that is the latest happening has not ended. */
  lemma {:induction false} LifeIsBalanced(ops: seq<Op>, id: string)
    ensures var life := Life(ops, id);
            && Endings(life) <= Admissions(life)
            && (StatusOf(life) == Retrying ==> Endings(life) < Admissions(life))
    decreases |ops|
  {
    if ops != [] {
      var before, op := ops[..|ops| - 1], ops[|ops| - 1];
      LifeIsBalanced(before, id);
      var life := Life(before, id);
      match op {
        case BeginRetry(_, now) => OneMore(life, Admitted(now));
        case FinishRetry(_, outcome, now) => OneMore(life, Ended(outcome, now));
        case Discard(_, now) => OneMore(life, Dropped(now));
        case Enqueue(_, _, _, _, _, _) =>
      }
    }
  }

  /** Every admitted retry is counted, whether it has ended or not. */
  lemma FailureCountIsAdmissions(ops: seq<Op>, id: string)
    requires id in Run(Empty, ops).table
    ensures Run(Empty, ops).table[id].failureCount == Admissions(Life(ops, id))
    ensures Run(Empty, ops).table[id].failureCount == Run(Empty, ops).inFlight[id] + Endings(Life(ops, id))
  {
    EveryRowIsItsLife(ops, id);
  }

  /** No record is left `retrying` without a retry at work on it. */
  lemma RetryingMeansInFlight(ops: seq<Op>, id: string)
    requires id in Run(Empty, ops).table && Run(Empty, ops).table[id].status == Retrying
    ensures Run(Empty, ops).inFlight[id] > 0
  {
    EveryRowIsItsLife(ops, id);
    LifeIsBalanced(ops, id);
  }

  lemma InFlightIsKnown(ops: seq<Op>, id: string)
    requires Run(Empty, ops).inFlight[id] > 0
    ensures id in Run(Empty, ops).table
  {
    EveryRowIsItsLife(ops, id);
  }

  // ------------------------------------------------------------------------ discarding

  ghost predicate IsDiscarded(s: State, id: string) {
    id in s.table && s.table[id].status == Discarded
  }

  /** Whatever the continuation, the record is discarded at its end. */
  ghost predicate StaysDiscarded(s: State, id: string) {
    forall ops: seq<Op> :: IsDiscarded(Run(s, ops), id)
  }

  lemma QuietStep(s: State, id: string, op: Op)
    requires IsDiscarded(s, id) && s.inFlight[id] == 0
    ensures IsDiscarded(Step(s, op), id) && Step(s, op).inFlight[id] == 0
  {
  }

  lemma {:induction false} QuietStaysDiscarded(s: State, id: string, ops: seq<Op>)
    requires IsDiscarded(s, id) && s.inFlight[id] == 0
    ensures IsDiscarded(Run(s, ops), id) && Run(s, ops).inFlight[id] == 0
    decreases |ops|
  {
    if ops != [] {
      QuietStaysDiscarded(s, id, ops[..|ops| - 1]);
      QuietStep(Run(s, ops[..|ops| - 1]), id, ops[|ops| - 1]);
    }
  }

  /** The end of a retry overwrites a discard made while it was in flight. */
  lemma EndUndoesDiscard(s: State, id: string, outcome: Outcome, now: int)
    requires id in s.table && s.inFlight[id] > 0
    ensures !IsDiscarded(Run(s, [FinishRetry(id, outcome, now)]), id)
  {
    var ops := [FinishRetry(id, outcome, now)];
    assert Run(s, ops[..0]) == s;
  }

  /** Discarding is final exactly when no retry of the record is in flight. */
  lemma DiscardIsFinalIff(s: State, id: string)
    requires IsDiscarded(s, id)
    ensures StaysDiscarded(s, id) <==> s.inFlight[id] == 0
  {
    if s.inFlight[id] == 0 {
      forall ops: seq<Op>
        ensures IsDiscarded(Run(s, ops), id)
      {
        QuietStaysDiscarded(s, id, ops);
      }
    } else {
      EndUndoesDiscard(s, id, Succeeded, 0);
      assert !IsDiscarded(Run(s, [FinishRetry(id, Succeeded, 0)]), id);
    }
  }

  lemma RunAppend(s: State, ops: seq<Op>, op: Op)
    ensures Run(s, ops + [op]) == Step(Run(s, ops), op)
  {
    assert (ops + [op])[..|ops|] == ops;
  }

  lemma RunTwo(s: State, a: Op, b: Op)
    ensures Run(s, [a, b]) == Step(Step(s, a), b)
  {
    assert [a, b][..1] == [a] && [a][..0] == [];
    assert Run(s, []) == s && Run(s, [a]) == Step(s, a);
  }

  lemma RunFour(a: Op, b: Op, c: Op, d: Op)
    ensures Run(Empty, [a, b, c, d]) == Step(Step(Step(Step(Empty, a), b), c), d)
  {
    RunTwo(Empty, a, b);
    RunAppend(Empty, [a, b], c);
    RunAppend(Empty, [a, b, c], d);
    assert [a, b, c] == [a, b] + [c] && [a, b, c, d] == [a, b, c] + [d];
  }

  /** A discard in one run: an overlapping retry brings the record back, stamped both discarded and resolved. */
  lemma OverlappingRetryRevives(e: Op)
    requires e.Enqueue?
    ensures var s := Run(Empty, [e, BeginRetry(e.id, 1), Discard(e.id, 2), FinishRetry(e.id, Succeeded, 3)]);
            && e.id in s.table && s.table[e.id].status == Resolved
            && s.table[e.id].discardedAt == Some(2) && s.table[e.id].resolvedAt == Some(3)
  {
    RunFour(e, BeginRetry(e.id, 1), Discard(e.id, 2), FinishRetry(e.id, Succeeded, 3));
    var r := FreshRecord(e);
    var s1 := State(map[e.id := r], multiset{});
    assert Step(Empty, e) == s1;
    var r2 := Updated(r, Retrying, None, 1);
    assert Step(s1, BeginRetry(e.id, 1)).table == map[e.id := r2];
    assert Step(s1, BeginRetry(e.id, 1)).inFlight[e.id] == 1;
  }

  // ------------------------------------------------------------------------- the queue

  datatype RetryResult = RetryResult(success: bool, error: Option<string>)

  /**
   What an UPDATE leaves: the new status and time; a retry counted when one begins; an error if there is
   one; the stamp of a discard or of a success; and nothing else changed.
   */
  ghost predicate IsUpdated(was: Record, row: Record, status: Status, error: Option<string>, now: int) {
    && row.status == status && row.updatedAt == now
    && row.failureCount == was.failureCount + (if status == Retrying then 1 else 0)
    && row.lastError == (if error == None then was.lastError else error)
    && row.discardedAt == (if status == Discarded then Some(now) else was.discardedAt)
    && row.resolvedAt == (if status == Resolved then Some(now) else was.resolvedAt)
    && row.sourceModule == was.sourceModule && row.sourceId == was.sourceId && row.reason == was.reason
    && row.payload == was.payload && row.enqueuedAt == was.enqueuedAt
  }

  /** A record as it enters: pending, never tried, with what the call gave. */
  ghost predicate IsFresh(r: Record, e: Op)
    requires e.Enqueue?
  {
    && r.sourceModule == e.sourceModule && r.sourceId == e.sourceId && r.reason == e.reason && r.payload == e.payload
    && r.status == Pending && r.failureCount == 0 && r.lastError == None && r.enqueuedAt == r.updatedAt == e.now
    && r.discardedAt == None && r.resolvedAt == None
  }

  lemma EnqueueSteps(s: State, e: Op)
    requires e.Enqueue?
    ensures IsFresh(FreshRecord(e), e)
    ensures Step(s, e) == State(if e.id in s.table then s.table else s.table[e.id := FreshRecord(e)], s.inFlight)
  {
  }

  class DeadLetterQueue {
    var table: map<string, Record>
    ghost var inFlight: multiset<string>
    ghost var history: seq<Op>

    /** The queue is where its history leads. */
    ghost predicate Valid()
      reads this
    {
      State(table, inFlight) == Run(Empty, history)
    }

    constructor ()
      ensures Valid() && history == []
    {
      table, inFlight, history := map[], multiset{}, [];
    }

    /** `updateStatus`: one UPDATE whose SET list depends on the status and on the error. */
    method UpdateStatus(id: string, status: Status, error: Option<string>, now: int)
      modifies this`table
      ensures table == SetStatus(old(table), id, status, error, now)
      ensures id !in old(table) ==> table == old(table)
      ensures id in old(table) ==>
                && table.Keys == old(table).Keys
                && (forall other :: other in table && other != id ==> table[other] == old(table)[other])
                && IsUpdated(old(table)[id], table[id], status, error, now)
    {
      if id in table {
        var row := table[id].(status := status, updatedAt := now);
        if status == Retrying {
          row := row.(failureCount := row.failureCount + 1);
        }
        if error.Some? {
          row := row.(lastError := error);
        }
        if status == Discarded {
          row := row.(discardedAt := Some(now));
        }
        if status == Resolved {
          row := row.(resolvedAt := Some(now));
        }
        table := table[id := row];
      }
    }

    /** `enqueue`; an id that is taken keeps its record. */
    method EnqueueEvent(e: Op) returns (r: Record)
      requires Valid() && e.Enqueue?
      modifies this
      ensures Valid() && history == old(history) + [e]
      ensures r == FreshRecord(e) && IsFresh(r, e) && e.id in table
      ensures e.id !in old(table) ==> table == old(table)[e.id := r]
      ensures e.id in old(table) ==> table == old(table)
    {
      RunAppend(Empty, history, e);
      history := history + [e];
      r := FreshRecord(e);
      EnqueueSteps(State(table, inFlight), e);
      if e.id !in table {
        table := table[e.id := r];
      }
    }

    /** `retry` up to its await: a refusal is the answer at once. */
    method Begin(id: string, now: int) returns (refused: Option<RetryResult>)
      requires Valid()
      modifies this
      ensures Valid() && history == old(history) + [BeginRetry(id, now)]
      ensures refused.None? <==> id in old(table) && old(table)[id].status != Discarded
      ensures refused.None? ==>
                && inFlight == old(inFlight) + multiset{id} && id in table
                && IsUpdated(old(table)[id], table[id], Retrying, None, now)
      ensures refused.Some? ==> table == old(table) && inFlight == old(inFlight)
      ensures refused.Some? ==>
                refused.value == RetryResult(false,
                                             Some(if id in old(table) then "Cannot retry discarded record"
                                                  else "Record not found"))
    {
      RunAppend(Empty, history, BeginRetry(id, now));
      history := history + [BeginRetry(id, now)];
      if id !in table {
        return Some(RetryResult(false, Some("Record not found")));
      }
      if table[id].status == Discarded {
        return Some(RetryResult(false, Some("Cannot retry discarded record")));
      }
      inFlight := inFlight + multiset{id};
      UpdateStatus(id, Retrying, None, now);
      refused := None;
    }

    /** `retry` after its await. */
    method Finish(id: string, outcome: Outcome, now: int) returns (result: RetryResult)
      requires Valid() && id in inFlight
      modifies this
      ensures Valid() && history == old(history) + [FinishRetry(id, outcome, now)]
      ensures inFlight == old(inFlight) - multiset{id} && id in table
      ensures result.success <==> outcome.Succeeded?
      ensures id in old(table)
      ensures IsUpdated(old(table)[id], table[id], if result.success then Resolved else Pending, result.error, now)
      ensures result.error == if outcome.Failed? then outcome.error else None
    {
      InFlightIsKnown(history, id);
      RunAppend(Empty, history, FinishRetry(id, outcome, now));
      history := history + [FinishRetry(id, outcome, now)];
      inFlight := inFlight - multiset{id};
      match outcome {
        case Succeeded =>
          UpdateStatus(id, Resolved, None, now);
          result := RetryResult(true, None);
        case Failed(error) =>
          UpdateStatus(id, Pending, error, now);
          result := RetryResult(false, error);
      }
    }

    /** `discard`: final at once unless a retry of the record is in flight. */
    method DiscardEvent(id: string, now: int)
      requires Valid()
      modifies this
      ensures Valid() && history == old(history) + [Discard(id, now)] && inFlight == old(inFlight)
      ensures id in old(table) ==> id in table && IsUpdated(old(table)[id], table[id], Discarded, None, now)
      ensures id in old(table) ==> (StaysDiscarded(State(table, inFlight), id) <==> inFlight[id] == 0)
      ensures id !in old(table) ==> table == old(table)
    {
      RunAppend(Empty, history, Discard(id, now));
      history := history + [Discard(id, now)];
      if id !in table {
        return;
      }
      UpdateStatus(id, Discarded, None, now);
      DiscardIsFinalIff(State(table, inFlight), id);
    }
  }
}
