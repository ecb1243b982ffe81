/**
 The circuit breaker (src/llm/circuit-breaker.ts) as a class over its closure
 variables, refined by a specification over the whole timed call history.
 */
module CircuitBreaker {
  import opened Common

  datatype Config = Config(failureThreshold: int, resetTimeoutMs: int, successThreshold: int)

  datatype Op = CanExecute | RecordSuccess | RecordFailure | Reset | ForceOpen | ForceClose

  /** An operation and the clock at that moment. */
  datatype Call = Call(op: Op, now: int)

  // ------------------------------------------------------------- specification

  /**
   Closed with the failures since it closed, open since a latest failure, or
   probing with the successes since probing began.
   */
  datatype Phase = Closed(failures: nat) | Open(latestFailure: int) | HalfOpen(successes: nat)

  function Next(c: Config, p: Phase, call: Call): Phase {
    match call.op
    case CanExecute =>
      if p.Open? && call.now - p.latestFailure >= c.resetTimeoutMs then HalfOpen(0) else p
    case RecordSuccess =>
      if p.HalfOpen? then (if p.successes + 1 >= c.successThreshold then Closed(0) else HalfOpen(p.successes + 1))
          else p
    case RecordFailure =>
      if p.Closed? && p.failures + 1 < c.failureThreshold then Closed(p.failures + 1) else Open(call.now)
    case Reset => Closed(0)
    case ForceOpen => Open(call.now)
    case ForceClose => Closed(0)
  }

  function PhaseAfter(c: Config, history: seq<Call>): Phase {
    if history == [] then Closed(0)
    else Next(c, PhaseAfter(c, history[..|history| - 1]), history[|history| - 1])
  }

  /** Whether a request at this moment is let through. */
  predicate Granted(c: Config, p: Phase, now: int) {
    !p.Open? || now - p.latestFailure >= c.resetTimeoutMs
  }

  lemma PhaseAfterAppend(c: Config, history: seq<Call>, call: Call)
    ensures PhaseAfter(c, history + [call]) == Next(c, PhaseAfter(c, history), call)
  {
    assert (history + [call])[..|history|] == history;
  }

  /** Requests since the last reset, and those of them that were refused. */
  function Requests(c: Config, history: seq<Call>): (nat, nat) {
    if history == [] || history[|history| - 1].op == Reset then (0, 0)
    else
      var init, last := history[..|history| - 1], history[|history| - 1];
      var before := Requests(c, init);
      if last.op != CanExecute then before
      else (before.0 + 1, before.1 + if Granted(c, PhaseAfter(c, init), last.now) then 0 else 1)
  }

  // --------------------------------------------------------------- the breaker

  datatype BreakerState = CLOSED | OPEN | HALF_OPEN

  class Breaker {
    const config: Config
    var state: BreakerState
    var failureCount: nat
    var successCount: nat
    var lastFailureTime: Option<int>
    var lastSuccessTime: Option<int>
    var totalRequests: nat
    var rejectedRequests: nat
    ghost var history: seq<Call>

    /** The variables hold what the history of calls says they should. */
    ghost predicate Valid()
      reads this
    {
      && (totalRequests, rejectedRequests) == Requests(config, history)
      && match PhaseAfter(config, history)
         case Closed(failures) => state == CLOSED && failureCount == failures && successCount == 0
         case Open(latest) => state == OPEN && lastFailureTime == Some(latest)
         case HalfOpen(successes) => state == HALF_OPEN && successCount == successes && failureCount == 0
    }

    constructor (config: Config)
      ensures this.config == config && history == [] && Valid()
    {
      this.config := config;
      state, failureCount, successCount := CLOSED, 0, 0;
      lastFailureTime, lastSuccessTime := None, None;
      totalRequests, rejectedRequests := 0, 0;
      history := [];
    }

    method TransitionTo(newState: BreakerState)
      modifies this`state, this`failureCount, this`successCount
      ensures state == newState && successCount == 0
      ensures failureCount == if newState == OPEN then old(failureCount) else 0
    {
      state := newState;
      if newState == CLOSED {
        failureCount, successCount := 0, 0;
      } else if newState == OPEN {
        successCount := 0;
      } else {
        successCount, failureCount := 0, 0;
      }
    }

    ghost method Log(op: Op, now: int)
      modifies this`history
      ensures history == old(history) + [Call(op, now)]
      ensures PhaseAfter(config, history) == Next(config, PhaseAfter(config, old(history)), Call(op, now))
      ensures history[..|history| - 1] == old(history)
    {
      PhaseAfterAppend(config, history, Call(op, now));
      history := history + [Call(op, now)];
    }

    method CanExecuteNow(now: int) returns (granted: bool)
      requires Valid()
      modifies this
      ensures Valid() && history == old(history) + [Call(CanExecute, now)]
      ensures match PhaseAfter(config, old(history))
              case Closed(_) => granted && state == CLOSED
              case HalfOpen(_) => granted && state == HALF_OPEN
              case Open(latest) =>
                && (granted <==> now - latest >= config.resetTimeoutMs)
                && state == (if granted then HALF_OPEN else OPEN)
      ensures totalRequests == old(totalRequests) + 1
      ensures rejectedRequests == old(rejectedRequests) + if granted then 0 else 1
    {
      Log(CanExecute, now);
      totalRequests := totalRequests + 1;
      if state == CLOSED {
        return true;
      }
      if state == OPEN {
        if now - lastFailureTime.GetOr(0) >= config.resetTimeoutMs {
          TransitionTo(HALF_OPEN);
          return true;
        }
        rejectedRequests := rejectedRequests + 1;
        return false;
      }
      return true;
    }

    method Success(now: int)
      requires Valid()
      modifies this
      ensures Valid() && history == old(history) + [Call(RecordSuccess, now)] && lastSuccessTime == Some(now)
    {
      Log(RecordSuccess, now);
      lastSuccessTime := Some(now);
      if state == HALF_OPEN {
        successCount := successCount + 1;
        if successCount >= config.successThreshold {
          TransitionTo(CLOSED);
        }
      }
    }

    method Failure(now: int)
      requires Valid()
      modifies this
      ensures Valid() && history == old(history) + [Call(RecordFailure, now)] && lastFailureTime == Some(now)
    {
      Log(RecordFailure, now);
      lastFailureTime := Some(now);
      if state == HALF_OPEN {
        TransitionTo(OPEN);
      } else if state == CLOSED {
        failureCount := failureCount + 1;
        if failureCount >= config.failureThreshold {
          TransitionTo(OPEN);
        }
      }
    }

    method ResetAll(now: int)
      requires Valid()
      modifies this
      ensures Valid() && history == old(history) + [Call(Reset, now)]
    {
      Log(Reset, now);
      TransitionTo(CLOSED);
      totalRequests, rejectedRequests := 0, 0;
    }

    method ForceOpenNow(now: int)
      requires Valid()
      modifies this
      ensures Valid() && history == old(history) + [Call(ForceOpen, now)]
    {
      Log(ForceOpen, now);
      TransitionTo(OPEN);
      lastFailureTime := Some(now);
    }

    method ForceCloseNow(now: int)
      requires Valid()
      modifies this
      ensures Valid() && history == old(history) + [Call(ForceClose, now)]
    {
      Log(ForceClose, now);
      TransitionTo(CLOSED);
    }
  }

  /** A request after these calls is refused: the breaker is open and the reset time has not passed. */
  ghost predicate IsRefused(c: Config, history: seq<Call>, now: int) {
    PhaseAfter(c, history).Open? && now - PhaseAfter(c, history).latestFailure < c.resetTimeoutMs
  }

  /** How many calls come after the latest reset of the counters. */
  function LastReset(history: seq<Call>): (n: nat)
    ensures n <= |history| && (n > 0 ==> history[n - 1].op == Reset)
    ensures forall i :: n <= i < |history| ==> history[i].op != Reset
  {
    if history == [] then 0
    else if history[|history| - 1].op == Reset then |history| else LastReset(history[..|history| - 1])
  }

  /** The `i`-th call is a request that was refused. */
  ghost predicate WasRefused(c: Config, history: seq<Call>, i: nat)
    requires i < |history|
  {
    history[i].op == CanExecute && IsRefused(c, history[..i], history[i].now)
  }

  /** The positions from `n` on of the requests that were refused. */
  ghost function Refusals(c: Config, history: seq<Call>, n: nat): set<nat> {
    set i: nat | n <= i < |history| && WasRefused(c, history, i)
  }

  lemma RefusalsNext(c: Config, init: seq<Call>, last: Call, n: nat)
    requires n <= |init|
    ensures var refused := last.op == CanExecute && IsRefused(c, init, last.now);
            |Refusals(c, init + [last], n)| == |Refusals(c, init, n)| + if refused then 1 else 0
  {
    var history := init + [last];
    forall i | 0 <= i < |init| ensures WasRefused(c, history, i) <==> WasRefused(c, init, i) {
      assert history[..i] == init[..i];
    }
    assert history[..|init|] == init;
    var more: set<nat> := if WasRefused(c, history, |init|) then {|init|} else {};
    assert Refusals(c, history, n) == Refusals(c, init, n) + more;
  }

  /** The counters: all requests since the latest reset, and those of them that were refused. */
  lemma {:induction false} RequestsAreCounted(c: Config, history: seq<Call>)
    ensures var n := LastReset(history);
            Requests(c, history) == (Count(history[n..], CanExecute), |Refusals(c, history, n)|)
  {
    var n := LastReset(history);
    if history == [] || history[|history| - 1].op == Reset {
      assert history[n..] == [] && Refusals(c, history, n) == {};
    } else {
      var init, last := history[..|history| - 1], history[|history| - 1];
      RequestsAreCounted(c, init);
      assert history[n..][..|history| - n - 1] == init[n..];
      assert history == init + [last];
      RefusalsNext(c, init, last, n);
    }
  }

  // ------------------------------------------ what a phase says about the history

  function Count(calls: seq<Call>, op: Op): nat {
    if calls == [] then 0
    else Count(calls[..|calls| - 1], op) + if calls[|calls| - 1].op == op then 1 else 0
  }

  ghost predicate Only(calls: seq<Call>, ops: set<Op>) {
    forall i :: 0 <= i < |calls| ==> calls[i].op in ops
  }

  /** Every request in `calls` came before the reset time had passed since `t`. */
  ghost predicate TooEarly(c: Config, calls: seq<Call>, t: int) {
    forall i :: 0 <= i < |calls| && calls[i].op == CanExecute ==> calls[i].now - t < c.resetTimeoutMs
  }

  /** Whether a call starts a phase anew rather than continuing it. */
  predicate Restarts(c: Config, p: Phase, call: Call) {
    match call.op
    case CanExecute => p.Open? && call.now - p.latestFailure >= c.resetTimeoutMs
    case RecordSuccess => p.HalfOpen? && p.successes + 1 >= c.successThreshold
    case RecordFailure => !(p.Closed? && p.failures + 1 < c.failureThreshold)
    case _ => true
  }

  /** Where the current phase began: the number of calls up to and including the one that started it. */
  function Since(c: Config, history: seq<Call>): (n: nat)
    ensures n <= |history|
  {
    if history == [] then 0
    else
      var init, last := history[..|history| - 1], history[|history| - 1];
      if Restarts(c, PhaseAfter(c, init), last) then |history| else Since(c, init)
  }

  /** The meaning of a phase in terms of the calls since it began. */
  ghost predicate Means(c: Config, p: Phase, tail: seq<Call>) {
    match p
    case Closed(n) =>
      Only(tail, {CanExecute, RecordSuccess, RecordFailure}) && n == Count(tail, RecordFailure)
          && (n == 0 || n < c.failureThreshold)
    case HalfOpen(k) =>
      Only(tail, {CanExecute, RecordSuccess}) && k == Count(tail, RecordSuccess) && (k == 0 || k < c.successThreshold)
    case Open(t) => Only(tail, {CanExecute, RecordSuccess}) && TooEarly(c, tail, t)
  }

  lemma MeansExtends(c: Config, p: Phase, tail: seq<Call>, call: Call)
    requires Means(c, p, tail) && !Restarts(c, p, call)
    ensures Means(c, Next(c, p, call), tail + [call])
  {
    assert (tail + [call])[..|tail|] == tail;
  }

  /**
   The phase is what the calls since it began say: closed with that many
   failures, below the threshold; probing with that many successes and no
   failure; open with every request since the latest failure too early.
   */
  lemma {:induction false} PhaseMeans(c: Config, history: seq<Call>)
    ensures Means(c, PhaseAfter(c, history), history[Since(c, history)..])
  {
    if history == [] {
      assert history[0..] == [];
    } else {
      var init, last := history[..|history| - 1], history[|history| - 1];
      PhaseMeans(c, init);
      var n := Since(c, history);
      if n == |history| && Restarts(c, PhaseAfter(c, init), last) {
        assert history[n..] == [];
      } else {
        assert history[n..] == init[n..] + [last];
        MeansExtends(c, PhaseAfter(c, init), init[n..], last);
      }
    }
  }

  /** What began the current phase. */
  lemma {:induction false} PhaseBegan(c: Config, history: seq<Call>)
    ensures var n := Since(c, history);
            match PhaseAfter(c, history)
            case Closed(_) =>
              n == 0 || history[n - 1].op in {Reset, ForceClose}
                  || (history[n - 1].op == RecordSuccess && PhaseAfter(c, history[..n - 1]).HalfOpen?)
            case HalfOpen(_) =>
              && n > 0 && history[n - 1].op == CanExecute && PhaseAfter(c, history[..n - 1]).Open?
              && !IsRefused(c, history[..n - 1], history[n - 1].now)
            case Open(t) =>
              n > 0 && history[n - 1].op in {RecordFailure, ForceOpen} && history[n - 1].now == t
  {
    if history != [] {
      var init, last := history[..|history| - 1], history[|history| - 1];
      PhaseBegan(c, init);
      var n := Since(c, history);
      if n == |history| {
        assert history[..n - 1] == init;
      } else if n > 0 {
        assert history[..n - 1] == init[..n - 1];
      }
    }
  }

  /** Conversely: calls that mean a phase lead to it from the moment it begins. */
  lemma {:induction false} MeaningLeads(c: Config, start: seq<Call>, tail: seq<Call>, p: Phase)
    requires Means(c, p, tail)
    requires PhaseAfter(c, start)
               == (match p case Closed(_) => Closed(0) case HalfOpen(_) => HalfOpen(0) case Open(t) => Open(t))
    ensures PhaseAfter(c, start + tail) == p
    decreases |tail|
  {
    if tail == [] {
      assert start + tail == start;
    } else {
      var init, last := tail[..|tail| - 1], tail[|tail| - 1];
      var before := match p
        case Closed(n) => Closed(Count(init, RecordFailure))
        case HalfOpen(k) => HalfOpen(Count(init, RecordSuccess))
        case Open(t) => Open(t);
      assert Means(c, before, init);
      MeaningLeads(c, start, init, before);
      assert start + tail == (start + init) + [last];
      PhaseAfterAppend(c, start + init, last);
    }
  }

  /** The latest failure recorded or forced, whatever the phase was. */
  function LatestFailure(history: seq<Call>): Option<int> {
    if history == [] then None
    else if history[|history| - 1].op in {RecordFailure, ForceOpen} then Some(history[|history| - 1].now)
    else LatestFailure(history[..|history| - 1])
  }

  lemma {:induction false} OpenSinceLatestFailure(c: Config, history: seq<Call>)
    requires PhaseAfter(c, history).Open?
    ensures LatestFailure(history) == Some(PhaseAfter(c, history).latestFailure)
  {
    if history[|history| - 1].op !in {RecordFailure, ForceOpen} {
      OpenSinceLatestFailure(c, history[..|history| - 1]);
    }
  }

  /**
   Once open, every request made before the reset time has passed since the
   latest failure is refused, however many successes and further failures are
   recorded meanwhile, and the breaker stays open.
   */
  lemma {:induction false} RefusedUntilReset(c: Config, history: seq<Call>, more: seq<Call>)
    requires PhaseAfter(c, history).Open?
    requires Only(more, {CanExecute, RecordSuccess, RecordFailure})
    requires forall i :: 0 <= i < |more| && more[i].op == CanExecute ==>
               LatestFailure(history + more[..i]).Some?
                   && more[i].now - LatestFailure(history + more[..i]).value < c.resetTimeoutMs
    ensures PhaseAfter(c, history + more).Open?
    ensures forall i :: 0 <= i < |more| && more[i].op == CanExecute ==>
              IsRefused(c, history + more[..i], more[i].now)
    decreases |more|
  {
    if more == [] {
      assert history + more == history;
    } else {
      var n := |more| - 1;
      var init, last := more[..n], more[n];
      forall i | 0 <= i < n ensures more[..i] == init[..i] && more[i] == init[i] {
      }
      RefusedUntilReset(c, history, init);
      OpenSinceLatestFailure(c, history + init);
      assert history + more == (history + init) + [last];
      PhaseAfterAppend(c, history + init, last);
    }
  }
}
