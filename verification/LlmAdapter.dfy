/**
 The multi-provider adapter (src/llm/adapter.ts): backoff arithmetic, retries of
 one provider under a deadline, failover between providers, streaming, and the
 priority-sorted provider list. Clock readings, jitter and every provider
 answer are arbitrary inputs.
 */
module LlmAdapter {
  import opened Common
  import opened Sorting

  // ------------------------------------------------------------------- backoff

  const InitialDelayMs := 500
  const MaxDelayMs := 10000
  const JitterRatio := 0.1

  function Pow2(n: nat): (r: int)
    ensures r >= 1
  {
    if n == 0 then 1 else 2 * Pow2(n - 1)
  }

  function Min(a: int, b: int): int { if a <= b then a else b }

  function Max(a: int, b: int): int { if a >= b then a else b }

  function BoundedDelay(retryIndex: nat): int {
    Min(InitialDelayMs * Pow2(retryIndex), MaxDelayMs)
  }

  function Jittered(boundedDelay: int, random: real): int {
    (boundedDelay as real + boundedDelay as real * JitterRatio * random).Floor
  }

  /** `computeRetryDelayMs`; `random` is the value `Math.random()` returned. */
  function RetryDelayMs(retryIndex: nat, random: real): int
    requires 0.0 <= random < 1.0
  {
    Min(Jittered(BoundedDelay(retryIndex), random), MaxDelayMs)
  }

  /** `retryWaitMs`: at least the provider's hint, never above the ceiling. */
  function RetryWaitMs(retryAfterMs: int, retryIndex: nat, random: real): (wait: int)
    requires 0.0 <= random < 1.0
    ensures Min(retryAfterMs, MaxDelayMs) <= wait <= MaxDelayMs
  {
    Min(Max(RetryDelayMs(retryIndex, random), retryAfterMs), MaxDelayMs)
  }

  lemma {:induction false} Pow2Grows(i: nat, j: nat)
    requires i <= j
    ensures Pow2(i) <= Pow2(j)
    decreases j
  {
    if i < j {
      Pow2Grows(i, j - 1);
    }
  }

  lemma FloorRange(b: int, jitter: real, tenth: real)
    requires 0 <= b && 0.0 <= jitter <= tenth && tenth == b as real / 10.0
    ensures var d := (b as real + jitter).Floor; b <= d && 10 * d <= 11 * b
  {
    var d := (b as real + jitter).Floor;
    assert (10 * d) as real <= 10.0 * (b as real + tenth);
    assert 10.0 * (b as real + tenth) == (11 * b) as real;
  }

  lemma JitterRange(b: int, random: real)
    requires 0 <= b && 0.0 <= random < 1.0
    ensures var d := Jittered(b, random); b <= d && 10 * d <= 11 * b
  {
    var tenth := b as real * JitterRatio;
    assert tenth == b as real / 10.0;
    var jitter := tenth * random;
    MulBounds(tenth, random, jitter);
    FloorRange(b, jitter, tenth);
  }

  /** A delay lies between its bound and a tenth above it. */
  lemma DelayRange(i: nat, random: real)
    requires 0.0 <= random < 1.0
    ensures BoundedDelay(i) <= RetryDelayMs(i, random) <= MaxDelayMs
    ensures 10 * RetryDelayMs(i, random) <= 11 * BoundedDelay(i)
  {
    JitterRange(BoundedDelay(i), random);
    assert RetryDelayMs(i, random) <= Jittered(BoundedDelay(i), random);
  }

  lemma MulNonNegative(a: real, b: real)
    requires 0.0 <= a && 0.0 <= b
    ensures 0.0 <= a * b
  {
  }

  lemma MulBounds(a: real, u: real, product: real)
    requires 0.0 <= a && 0.0 <= u < 1.0 && product == a * u
    ensures 0.0 <= product <= a
  {
    MulNonNegative(a, u);
    MulNonNegative(a, 1.0 - u);
    assert a * (1.0 - u) == a - product;
  }

  /** For every choice of jitter, a later retry never waits less than an earlier one. */
  lemma DelaysNonDecreasing(i: nat, u: real, j: nat, v: real)
    requires i < j && 0.0 <= u < 1.0 && 0.0 <= v < 1.0
    ensures RetryDelayMs(i, u) <= RetryDelayMs(j, v)
  {
    DelayRange(i, u);
    DelayRange(j, v);
    Pow2Grows(i + 1, j);
    assert Pow2(i + 1) == 2 * Pow2(i);
  }

  /** The schedule: half a second, doubled for every retry, up to ten seconds; jitter adds its share of a tenth. */
  lemma DelaySchedule(i: nat, random: real)
    requires 0.0 <= random < 1.0
    ensures i >= 5 ==> RetryDelayMs(i, random) == 10000
    ensures i < 5 ==>
              var bound := [500.0, 1000.0, 2000.0, 4000.0, 8000.0][i];
              var delay := RetryDelayMs(i, random) as real;
              delay <= bound * (1.0 + random / 10.0) < delay + 1.0
  {
    DelayRange(i, random);
    if i >= 5 {
      Pow2Grows(5, i);
      assert Pow2(5) == 32 && BoundedDelay(i) == 10000;
    } else {
      assert Pow2(4) == 16 && Pow2(3) == 8 && Pow2(2) == 4 && Pow2(1) == 2 && Pow2(0) == 1;
      var b := BoundedDelay(i) as real;
      assert b + b * JitterRatio * random == b * (1.0 + random / 10.0);
    }
  }

  /** The wait is the delay, raised to the provider's hint and cut at ten seconds. */
  lemma WaitIs(retryAfterMs: int, i: nat, random: real)
    requires 0.0 <= random < 1.0
    ensures var delay, wait := RetryDelayMs(i, random), RetryWaitMs(retryAfterMs, i, random);
            wait == if retryAfterMs <= delay then delay else if retryAfterMs <= 10000 then retryAfterMs else 10000
  {
    DelayRange(i, random);
  }

  // --------------------------------------------------------------- one provider

  datatype Provider = Provider(id: string, priority: int, retries: int, timeoutMs: int, canStream: bool)

  datatype ProviderError = ProviderError(code: string, retryable: bool, retryAfterMs: int)

  datatype Response = Response(content: string, toolCalls: seq<string>, finishReason: string)

  datatype LlmResult = Ok(response: Response, providerId: string) | Err(error: ProviderError, providerId: string)

  datatype Attempt = Answered(result: LlmResult) | Threw

  /** Everything that happens while one provider is tried: clock readings, jitter, and its answers by attempt. */
  datatype Trial = Trial(start: int, now: nat -> int, random: nat -> real, attempts: nat -> Attempt,
                         streams: nat -> StreamAttempt)

  ghost predicate JitterOk(t: Trial) {
    forall i: nat :: 0.0 <= t.random(i) < 1.0
  }

  const ProviderException := ProviderError("PROVIDER_EXCEPTION", true, 0)

  function ShouldRetry(e: ProviderError): bool {
    e.code != "CIRCUIT_BREAKER_OPEN" && e.retryable
  }

  function ResultOf(p: Provider, a: Attempt): LlmResult {
    match a
    case Answered(result) => result
    case Threw => Err(ProviderException, p.id)
  }

  /** Another attempt is wanted: the provider threw, or answered with a retryable error. */
  predicate WantsRetry(a: Attempt) {
    a.Threw? || (a.result.Err? && ShouldRetry(a.result.error))
  }

  function MaxRetries(p: Provider): nat {
    if p.retries < 0 then 0 else p.retries
  }

  function WaitAfter(p: Provider, t: Trial, i: nat): (wait: int)
    requires WantsRetry(t.attempts(i)) && 0.0 <= t.random(i) < 1.0
    ensures wait <= MaxDelayMs
  {
    RetryWaitMs(ResultOf(p, t.attempts(i)).error.retryAfterMs, i, t.random(i))
  }

  /** Attempt `i` is followed by another one. */
  predicate GoesOn(p: Provider, t: Trial, budget: int, i: nat)
    requires 0.0 <= t.random(i) < 1.0
  {
    WantsRetry(t.attempts(i)) && i < MaxRetries(p) && t.now(i) + WaitAfter(p, t, i) < t.start + budget
  }

  function SumOf(waits: seq<int>): int {
    if waits == [] then 0 else SumOf(waits[..|waits| - 1]) + waits[|waits| - 1]
  }

  /** The clock never runs backwards and a sleep lasts at least as long as asked. */
  ghost predicate ClockOk(t: Trial, waits: seq<int>) {
    t.start <= t.now(0) && forall i :: 0 <= i < |waits| ==> t.now(i) + waits[i] <= t.now(i + 1)
  }

  lemma {:induction false} WaitsElapse(t: Trial, waits: seq<int>)
    requires ClockOk(t, waits)
    ensures t.start + SumOf(waits) <= t.now(|waits|)
  {
    if waits != [] {
      var init := waits[..|waits| - 1];
      WaitsElapse(t, init);
      assert t.now(|init|) + waits[|init|] <= t.now(|init| + 1);
    }
  }

  /** Asked-for waits that were all admitted under the deadline add up to less than the budget. */
  lemma WaitsWithinBudget(t: Trial, budget: int, waits: seq<int>)
    requires waits != [] && ClockOk(t, waits)
    requires forall i :: 0 <= i < |waits| ==> t.now(i) + waits[i] < t.start + budget
    ensures SumOf(waits) < budget
  {
    var n := |waits| - 1;
    var init := waits[..n];
    assert forall i :: 0 <= i < n ==> init[i] == waits[i];
    WaitsElapse(t, init);
  }

  /**
   An attempt is followed by another one exactly if it threw, or failed with a retryable error
   other than an open circuit breaker; a retry is left; and the wait ends before the deadline.
   */
  ghost predicate TriesAgain(p: Provider, t: Trial, defaultTimeoutMs: int, i: nat)
    requires 0.0 <= t.random(i) < 1.0
  {
    var timeout := if p.timeoutMs >= defaultTimeoutMs then p.timeoutMs else defaultTimeoutMs;
    && i < p.retries
    && match t.attempts(i)
       case Threw => t.now(i) + RetryWaitMs(0, i, t.random(i)) < t.start + timeout
       case Answered(Ok(_, _)) => false
       case Answered(Err(error, _)) =>
         && error.retryable && error.code != "CIRCUIT_BREAKER_OPEN"
         && t.now(i) + RetryWaitMs(error.retryAfterMs, i, t.random(i)) < t.start + timeout
  }

  lemma GoesOnIff(p: Provider, t: Trial, defaultTimeoutMs: int, i: nat)
    requires 0.0 <= t.random(i) < 1.0
    ensures GoesOn(p, t, Max(p.timeoutMs, defaultTimeoutMs), i) <==> TriesAgain(p, t, defaultTimeoutMs, i)
  {
  }

  /** The result is that of an attempt; an exception counts as a retryable error of its own. */
  ghost predicate IsResultOf(result: LlmResult, p: Provider, a: Attempt) {
    match a
    case Answered(r) => result == r
    case Threw => result == Err(ProviderError("PROVIDER_EXCEPTION", true, 0), p.id)
  }

  /**
   `completeProviderWithRetries`. `calls` counts the provider calls, `waits`
   lists the sleeps asked for between them.
   */
  method CompleteProviderWithRetries(p: Provider, defaultTimeoutMs: int, t: Trial)
    returns (result: LlmResult, calls: nat, waits: seq<int>)
    requires JitterOk(t)
    ensures 1 <= calls <= MaxRetries(p) + 1 && |waits| == calls - 1
    ensures forall i :: 0 <= i < |waits| ==> WantsRetry(t.attempts(i)) && waits[i] == WaitAfter(p, t, i) <= MaxDelayMs
    ensures result == ResultOf(p, t.attempts(calls - 1))
    ensures forall i :: 0 <= i < calls - 1 ==> GoesOn(p, t, Max(p.timeoutMs, defaultTimeoutMs), i)
    ensures !GoesOn(p, t, Max(p.timeoutMs, defaultTimeoutMs), calls - 1)
    ensures (forall i :: 0 <= i < calls - 1 ==> TriesAgain(p, t, defaultTimeoutMs, i))
            && !TriesAgain(p, t, defaultTimeoutMs, calls - 1)
    ensures IsResultOf(result, p, t.attempts(calls - 1))
    ensures waits != [] && ClockOk(t, waits) ==> SumOf(waits) < Max(p.timeoutMs, defaultTimeoutMs)
  {
    ghost var budget := Max(p.timeoutMs, defaultTimeoutMs);
    var maxRetries := MaxRetries(p);
    var attemptDeadline := t.start + Max(p.timeoutMs, defaultTimeoutMs);
    waits := [];
    var retryIndex := 0;
    result := ResultOf(p, t.attempts(0));
    while true
      invariant 0 <= retryIndex <= maxRetries && |waits| == retryIndex
      invariant forall i :: 0 <= i < retryIndex ==> GoesOn(p, t, budget, i) && WantsRetry(t.attempts(i))
      invariant forall i :: 0 <= i < retryIndex ==>
                  waits[i] == WaitAfter(p, t, i) && t.now(i) + waits[i] < attemptDeadline
      decreases maxRetries - retryIndex
    {
      result := ResultOf(p, t.attempts(retryIndex));
      if !WantsRetry(t.attempts(retryIndex)) || retryIndex >= maxRetries {
        break;
      }
      var waitMs := WaitAfter(p, t, retryIndex);
      if t.now(retryIndex) + waitMs >= attemptDeadline {
        break;
      }
      waits := waits + [waitMs];
      retryIndex := retryIndex + 1;
    }
    calls := retryIndex + 1;
    forall i | 0 <= i < calls
      ensures GoesOn(p, t, budget, i) <==> TriesAgain(p, t, defaultTimeoutMs, i)
    {
      GoesOnIff(p, t, defaultTimeoutMs, i);
    }
    if waits != [] && ClockOk(t, waits) {
      WaitsWithinBudget(t, budget, waits);
    }
  }

  datatype StreamEnd = Finished | StreamThrew(error: Option<ProviderError>)

  datatype StreamAttempt = StreamAttempt(chunks: seq<string>, end: StreamEnd)

  // ------------------------------------------------------------------- failover

  /** The attempt after which a provider is not tried again. */
  function LastAttempt(p: Provider, t: Trial, budget: int, i: nat): (n: nat)
    requires JitterOk(t) && i <= MaxRetries(p)
    decreases MaxRetries(p) - i
  {
    if GoesOn(p, t, budget, i) then LastAttempt(p, t, budget, i + 1) else i
  }

  lemma {:induction false} LastAttemptIs(p: Provider, t: Trial, budget: int, i: nat, n: nat)
    requires JitterOk(t) && i <= n <= MaxRetries(p)
    requires (forall k :: i <= k < n ==> GoesOn(p, t, budget, k)) && !GoesOn(p, t, budget, n)
    ensures LastAttempt(p, t, budget, i) == n
    decreases n - i
  {
    if i < n {
      LastAttemptIs(p, t, budget, i + 1, n);
    }
  }

  /** What one provider, retries included, answers. */
  function Outcome(p: Provider, defaultTimeoutMs: int, t: Trial): LlmResult
    requires JitterOk(t)
  {
    ResultOf(p, t.attempts(LastAttempt(p, t, Max(p.timeoutMs, defaultTimeoutMs), 0)))
  }

  /** A provider's answer is the result of its first attempt that is not followed by another one. */
  lemma OutcomeIs(p: Provider, defaultTimeoutMs: int, t: Trial)
    requires JitterOk(t)
    ensures exists n: nat ::
              && (forall i :: 0 <= i < n ==> TriesAgain(p, t, defaultTimeoutMs, i))
              && !TriesAgain(p, t, defaultTimeoutMs, n)
              && IsResultOf(Outcome(p, defaultTimeoutMs, t), p, t.attempts(n))
  {
    var n := LastAttempt(p, t, Max(p.timeoutMs, defaultTimeoutMs), 0);
    LastAttemptStops(p, t, defaultTimeoutMs, 0);
  }

  lemma {:induction false} LastAttemptStops(p: Provider, t: Trial, defaultTimeoutMs: int, i: nat)
    requires JitterOk(t) && i <= MaxRetries(p)
    ensures var n := LastAttempt(p, t, Max(p.timeoutMs, defaultTimeoutMs), i);
            && i <= n && !TriesAgain(p, t, defaultTimeoutMs, n)
            && forall k :: i <= k < n ==> TriesAgain(p, t, defaultTimeoutMs, k)
    decreases MaxRetries(p) - i
  {
    GoesOnIff(p, t, defaultTimeoutMs, i);
    if GoesOn(p, t, Max(p.timeoutMs, defaultTimeoutMs), i) {
      LastAttemptStops(p, t, defaultTimeoutMs, i + 1);
    }
  }

  datatype AdapterResult = Succeeded(result: LlmResult) | AllFailed(attempts: seq<(string, ProviderError)>)

  /** One entry per provider, in order. */
  function Failures(healthy: seq<Provider>, defaultTimeoutMs: int, trials: nat -> Trial,
                    n: nat): (r: seq<(string, ProviderError)>)
    requires n <= |healthy| && (forall i :: JitterOk(trials(i)))
    requires forall i :: 0 <= i < n ==> Outcome(healthy[i], defaultTimeoutMs, trials(i)).Err?
    ensures |r| == n
  {
    seq(n, i requires 0 <= i < n => (healthy[i].id, Outcome(healthy[i], defaultTimeoutMs, trials(i)).error))
  }

  /** Failover from provider `i` on, after the failures `before`. */
  function FailOver(healthy: seq<Provider>, defaultTimeoutMs: int, trials: nat -> Trial, i: nat,
                    before: seq<(string, ProviderError)>): AdapterResult
    requires i <= |healthy| && forall k :: JitterOk(trials(k))
    decreases |healthy| - i
  {
    if i == |healthy| then AllFailed(before)
    else
      var r := Outcome(healthy[i], defaultTimeoutMs, trials(i));
      if r.Ok? then Succeeded(r)
      else FailOver(healthy, defaultTimeoutMs, trials, i + 1, before + [(healthy[i].id, r.error)])
  }

  /**
   `complete` over the healthy providers in priority order: the first that
   succeeds decides and none after it is called; otherwise every provider has
   exactly one entry in the error, in order.
   */
  method Complete(healthy: seq<Provider>, defaultTimeoutMs: int, trials: nat -> Trial)
    returns (result: AdapterResult, called: seq<Provider>)
    requires forall i :: JitterOk(trials(i))
    ensures result == FailOver(healthy, defaultTimeoutMs, trials, 0, [])
    ensures called <= healthy
    ensures forall i :: 0 <= i < |called| - 1 ==> Outcome(healthy[i], defaultTimeoutMs, trials(i)).Err?
    ensures result.Succeeded? ==>
              && called != [] && result.result.Ok?
              && result.result == Outcome(healthy[|called| - 1], defaultTimeoutMs, trials(|called| - 1))
    ensures result.AllFailed? ==>
              && called == healthy
              && (forall i :: 0 <= i < |healthy| ==> Outcome(healthy[i], defaultTimeoutMs, trials(i)).Err?)
              && result.attempts == Failures(healthy, defaultTimeoutMs, trials, |healthy|)
  {
    var attempts: seq<(string, ProviderError)> := [];
    called := [];
    for n := 0 to |healthy|
      invariant called == healthy[..n]
      invariant forall i :: 0 <= i < n ==> Outcome(healthy[i], defaultTimeoutMs, trials(i)).Err?
      invariant attempts == Failures(healthy, defaultTimeoutMs, trials, n)
      invariant FailOver(healthy, defaultTimeoutMs, trials, n, attempts)
                  == FailOver(healthy, defaultTimeoutMs, trials, 0, [])
    {
      var r, calls, _ := CompleteProviderWithRetries(healthy[n], defaultTimeoutMs, trials(n));
      LastAttemptIs(healthy[n], trials(n), Max(healthy[n].timeoutMs, defaultTimeoutMs), 0, calls - 1);
      called := called + [healthy[n]];
      if r.Ok? {
        return Succeeded(r), called;
      }
      attempts := attempts + [(healthy[n].id, r.error)];
    }
    result := AllFailed(attempts);
  }

  // ------------------------------------------------------------------ streaming

  /** A chunk that reached the consumer: which provider of the list sent it, on which attempt. */
  datatype Emission = Chunk(position: nat, attempt: nat, data: string) | Fallback(kind: string, data: string)

  function StreamWait(t: Trial, i: nat): int
    requires 0.0 <= t.random(i) < 1.0
  {
    var end := t.streams(i).end;
    if end.StreamThrew? && end.error.Some? then RetryWaitMs(end.error.value.retryAfterMs, i, t.random(i))
    else RetryDelayMs(i, t.random(i))
  }

  /** A failed stream is tried again only if it emitted nothing, may be retried and has attempts and time left. */
  predicate StreamGoesOn(p: Provider, t: Trial, budget: int, i: nat)
    requires 0.0 <= t.random(i) < 1.0
  {
    var a := t.streams(i);
    && a.end.StreamThrew? && a.chunks == [] && (a.end.error.Some? ==> ShouldRetry(a.end.error.value))
    && i < MaxRetries(p) && t.now(i) + StreamWait(t, i) < t.start + budget
  }

  /**
   A stream is tried again exactly if it threw before it emitted anything, not with an error that
   rules it out; a retry is left; and the wait ends before the deadline.
   */
  ghost predicate StreamsAgain(p: Provider, t: Trial, defaultTimeoutMs: int, i: nat)
    requires 0.0 <= t.random(i) < 1.0
  {
    var timeout := if p.timeoutMs >= defaultTimeoutMs then p.timeoutMs else defaultTimeoutMs;
    && i < p.retries && t.streams(i).chunks == []
    && match t.streams(i).end
       case Finished => false
       case StreamThrew(None) => t.now(i) + RetryDelayMs(i, t.random(i)) < t.start + timeout
       case StreamThrew(Some(error)) =>
         && error.retryable && error.code != "CIRCUIT_BREAKER_OPEN"
         && t.now(i) + RetryWaitMs(error.retryAfterMs, i, t.random(i)) < t.start + timeout
  }

  lemma StreamGoesOnIff(p: Provider, t: Trial, defaultTimeoutMs: int, i: nat)
    requires 0.0 <= t.random(i) < 1.0
    ensures StreamGoesOn(p, t, Max(p.timeoutMs, defaultTimeoutMs), i) <==> StreamsAgain(p, t, defaultTimeoutMs, i)
  {
  }

  function Tagged(position: nat, attempt: nat, chunks: seq<string>): (r: seq<Emission>)
    ensures |r| == |chunks|
  {
    seq(|chunks|, i requires 0 <= i < |chunks| => Chunk(position, attempt, chunks[i]))
  }

  /** One provider's part of `stream`. Whatever it emits comes from its last attempt. */
  method StreamProvider(p: Provider, position: nat, defaultTimeoutMs: int, t: Trial)
    returns (emitted: seq<Emission>, finished: bool, attempt: nat)
    requires JitterOk(t)
    ensures emitted == Tagged(position, attempt, t.streams(attempt).chunks)
    ensures |emitted| == |t.streams(attempt).chunks|
    ensures forall k :: 0 <= k < |emitted| ==> emitted[k] == Chunk(position, attempt, t.streams(attempt).chunks[k])
    ensures forall i :: 0 <= i < attempt ==> StreamsAgain(p, t, defaultTimeoutMs, i)
    ensures !StreamsAgain(p, t, defaultTimeoutMs, attempt)
    ensures finished <==> t.streams(attempt).end.Finished?
    ensures attempt <= MaxRetries(p) && !StreamGoesOn(p, t, Max(p.timeoutMs, defaultTimeoutMs), attempt)
    ensures forall i :: 0 <= i < attempt ==> StreamGoesOn(p, t, Max(p.timeoutMs, defaultTimeoutMs), i)
  {
    var attemptDeadline := t.start + Max(p.timeoutMs, defaultTimeoutMs);
    emitted, finished, attempt := [], false, 0;
    while true
      invariant emitted == [] && !finished && attempt <= MaxRetries(p)
      invariant forall i :: 0 <= i < attempt ==>
                  StreamGoesOn(p, t, Max(p.timeoutMs, defaultTimeoutMs), i) && StreamsAgain(p, t, defaultTimeoutMs, i)
      decreases MaxRetries(p) - attempt
    {
      var a := t.streams(attempt);
      StreamGoesOnIff(p, t, defaultTimeoutMs, attempt);
      var yieldedAny := false;
      for k := 0 to |a.chunks|
        invariant emitted == Tagged(position, attempt, a.chunks[..k]) && (yieldedAny <==> k > 0)
      {
        yieldedAny := true;
        emitted := emitted + [Chunk(position, attempt, a.chunks[k])];
      }
      assert a.chunks[..|a.chunks|] == a.chunks;
      if a.end.Finished? {
        finished := true;
        return;
      }
      if yieldedAny || (a.end.error.Some? && !ShouldRetry(a.end.error.value)) || attempt >= MaxRetries(p) {
        return;
      }
      if t.now(attempt) + StreamWait(t, attempt) >= attemptDeadline {
        return;
      }
      attempt := attempt + 1;
    }
  }

  function LastStream(p: Provider, t: Trial, budget: int, i: nat): (n: nat)
    requires JitterOk(t) && i <= MaxRetries(p)
    decreases MaxRetries(p) - i
  {
    if StreamGoesOn(p, t, budget, i) then LastStream(p, t, budget, i + 1) else i
  }

  lemma {:induction false} LastStreamIs(p: Provider, t: Trial, budget: int, i: nat, n: nat)
    requires JitterOk(t) && i <= n <= MaxRetries(p)
    requires (forall k :: i <= k < n ==> StreamGoesOn(p, t, budget, k)) && !StreamGoesOn(p, t, budget, n)
    ensures LastStream(p, t, budget, i) == n
    decreases n - i
  {
    if i < n {
      LastStreamIs(p, t, budget, i + 1, n);
    }
  }

  function FinalStream(p: Provider, defaultTimeoutMs: int, t: Trial): nat
    requires JitterOk(t)
  {
    LastStream(p, t, Max(p.timeoutMs, defaultTimeoutMs), 0)
  }

  /** What the first `n` providers contribute to the stream: each its final attempt's chunks, if it can stream. */
  function Streamed(healthy: seq<Provider>, defaultTimeoutMs: int, trials: nat -> Trial, n: nat): seq<Emission>
    requires n <= |healthy| && forall i :: JitterOk(trials(i))
  {
    if n == 0 then []
    else
      var p, t := healthy[n - 1], trials(n - 1);
      var last := FinalStream(p, defaultTimeoutMs, t);
      Streamed(healthy, defaultTimeoutMs, trials, n - 1)
      + (if p.canStream then Tagged(n - 1, last, t.streams(last).chunks) else [])
  }

  predicate Finishes(healthy: seq<Provider>, defaultTimeoutMs: int, trials: nat -> Trial, i: nat)
    requires i < |healthy| && JitterOk(trials(i))
  {
    healthy[i].canStream && trials(i).streams(FinalStream(healthy[i], defaultTimeoutMs, trials(i))).end.Finished?
  }

  function FallbackChunks(r: AdapterResult): seq<Emission> {
    if r.AllFailed? || r.result.Err? then []
    else
      var response := r.result.response;
      (if response.content != "" then [Fallback("text", response.content)] else [])
      + seq(|response.toolCalls|,
            i requires 0 <= i < |response.toolCalls| => Fallback("tool_call_delta", response.toolCalls[i]))
      + [Fallback("finish", response.finishReason)]
  }

  /**
   The chunks of a plain completion: its content unless that is empty, a piece for every
   tool call in order, and the finish; nothing for a failure.
   */
  lemma FallbackIs(r: AdapterResult)
    ensures if r.AllFailed? || r.result.Err? then FallbackChunks(r) == []
            else
              var response, chunks := r.result.response, FallbackChunks(r);
              var texts := if response.content == "" then 0 else 1;
              && |chunks| == texts + |response.toolCalls| + 1
              && (texts == 1 ==> chunks[0] == Fallback("text", response.content))
              && (forall i :: 0 <= i < |response.toolCalls| ==>
                    chunks[texts + i] == Fallback("tool_call_delta", response.toolCalls[i]))
              && chunks[|chunks| - 1] == Fallback("finish", response.finishReason)
  {
  }

  /** A chunk in the stream is one of its provider's final attempt, and the provider can stream. */
  lemma {:induction false} StreamedIs(healthy: seq<Provider>, defaultTimeoutMs: int, trials: nat -> Trial, n: nat,
                                      i: nat)
    requires n <= |healthy| && (forall k :: JitterOk(trials(k))) && i < |Streamed(healthy, defaultTimeoutMs, trials, n)|
    ensures var e := Streamed(healthy, defaultTimeoutMs, trials, n)[i];
            && e.Chunk? && e.position < n && healthy[e.position].canStream
            && e.data in trials(e.position).streams(e.attempt).chunks
            && !StreamsAgain(healthy[e.position], trials(e.position), defaultTimeoutMs, e.attempt)
            && forall k :: 0 <= k < e.attempt ==>
                 StreamsAgain(healthy[e.position], trials(e.position), defaultTimeoutMs, k)
  {
    var p, t, before := healthy[n - 1], trials(n - 1), Streamed(healthy, defaultTimeoutMs, trials, n - 1);
    if i < |before| {
      StreamedIs(healthy, defaultTimeoutMs, trials, n - 1, i);
    } else {
      LastStreamStops(p, t, defaultTimeoutMs, 0);
    }
  }

  lemma {:induction false} LastStreamStops(p: Provider, t: Trial, defaultTimeoutMs: int, i: nat)
    requires JitterOk(t) && i <= MaxRetries(p)
    ensures var n := LastStream(p, t, Max(p.timeoutMs, defaultTimeoutMs), i);
            && i <= n && !StreamsAgain(p, t, defaultTimeoutMs, n)
            && forall k :: i <= k < n ==> StreamsAgain(p, t, defaultTimeoutMs, k)
    decreases MaxRetries(p) - i
  {
    StreamGoesOnIff(p, t, defaultTimeoutMs, i);
    if StreamGoesOn(p, t, Max(p.timeoutMs, defaultTimeoutMs), i) {
      LastStreamStops(p, t, defaultTimeoutMs, i + 1);
    }
  }

  /**
   `stream`: the contributions of the providers up to and including the first
   that finishes; if none does, of all of them, followed by one plain completion
   over the providers healthy by then.
   */
  method Stream(healthy: seq<Provider>, defaultTimeoutMs: int, trials: nat -> Trial,
                laterHealthy: seq<Provider>, laterTrials: nat -> Trial)
    returns (output: seq<Emission>, served: nat)
    requires (forall i :: JitterOk(trials(i))) && forall i :: JitterOk(laterTrials(i))
    ensures served <= |healthy|
    ensures forall i :: 0 <= i < served - 1 ==> !Finishes(healthy, defaultTimeoutMs, trials, i)
    ensures served > 0 && Finishes(healthy, defaultTimeoutMs, trials, served - 1) ==>
              output == Streamed(healthy, defaultTimeoutMs, trials, served)
    ensures !(served > 0 && Finishes(healthy, defaultTimeoutMs, trials, served - 1)) ==>
              && served == |healthy|
              && output == Streamed(healthy, defaultTimeoutMs, trials, served)
                 + (if healthy == [] then []
                    else FallbackChunks(FailOver(laterHealthy, defaultTimeoutMs, laterTrials, 0, [])))
  {
    output, served := [], 0;
    if |healthy| == 0 {
      return;
    }
    for n := 0 to |healthy|
      invariant output == Streamed(healthy, defaultTimeoutMs, trials, n)
      invariant forall i :: 0 <= i < n ==> !Finishes(healthy, defaultTimeoutMs, trials, i)
    {
      if healthy[n].canStream {
        var emitted, finished, attempt := StreamProvider(healthy[n], n, defaultTimeoutMs, trials(n));
        LastStreamIs(healthy[n], trials(n), Max(healthy[n].timeoutMs, defaultTimeoutMs), 0, attempt);
        output := output + emitted;
        if finished {
          served := n + 1;
          return;
        }
      }
    }
    served := |healthy|;
    var fallback, _ := Complete(laterHealthy, defaultTimeoutMs, laterTrials);
    output := output + FallbackChunks(fallback);
  }

  /** All chunks a provider contributes come from one attempt. */
  lemma {:induction false} OneAttemptPerProvider(healthy: seq<Provider>, defaultTimeoutMs: int, trials: nat -> Trial,
                                                 n: nat, i: nat, j: nat)
    requires n <= |healthy| && (forall k :: JitterOk(trials(k)))
    requires i < |Streamed(healthy, defaultTimeoutMs, trials, n)|
    requires j < |Streamed(healthy, defaultTimeoutMs, trials, n)|
    ensures var s := Streamed(healthy, defaultTimeoutMs, trials, n);
            && s[i].Chunk? && s[j].Chunk? && s[i].position < n
            && (s[i].position == s[j].position ==> s[i].attempt == s[j].attempt)
  {
    var before := |Streamed(healthy, defaultTimeoutMs, trials, n - 1)|;
    if i < before && j < before {
      OneAttemptPerProvider(healthy, defaultTimeoutMs, trials, n - 1, i, j);
    } else if i < before {
      OneAttemptPerProvider(healthy, defaultTimeoutMs, trials, n - 1, i, i);
    } else if j < before {
      OneAttemptPerProvider(healthy, defaultTimeoutMs, trials, n - 1, j, j);
    }
  }

  // ------------------------------------------------------------------- registry

  function ByPriority(p: Provider): real {
    p.priority as real
  }

  function Where(providers: seq<Provider>, healthy: string -> bool): seq<Provider> {
    if providers == [] then []
    else
      var last := providers[|providers| - 1];
      Where(providers[..|providers| - 1], healthy) + (if healthy(last.id) then [last] else [])
  }

  /** Sorting a sorted list leaves it as it is. */
  lemma {:induction false} SortSorted(s: seq<Provider>)
    requires Sorted(s, ByPriority)
    ensures StableSort(s, ByPriority) == s
  {
    if s != [] {
      var init, last := s[..|s| - 1], s[|s| - 1];
      SortSorted(init);
      assert s == init + [last];
      assert init != [] ==> init[|init| - 1] == s[|s| - 2];
    }
  }

  lemma {:induction false} WhereSorted(s: seq<Provider>, healthy: string -> bool)
    requires Sorted(s, ByPriority)
    ensures Sorted(Where(s, healthy), ByPriority)
    ensures forall p :: p in Where(s, healthy) <==> p in s && healthy(p.id)
  {
    if s != [] {
      var init, last := s[..|s| - 1], s[|s| - 1];
      WhereSorted(init, healthy);
      assert s == init + [last];
      var r := Where(init, healthy);
      forall i | 0 <= i < |r| ensures ByPriority(r[i]) <= ByPriority(last) {
        assert r[i] in r;
        var k :| 0 <= k < |init| && init[k] == r[i];
        assert s[k] == init[k];
      }
    }
  }

  /** The providers a list of references stands for. */
  function Deref(refs: seq<nat>, objects: map<nat, Provider>): (r: seq<Provider>)
    requires Known(refs, objects)
    ensures |r| == |refs|
  {
    seq(|refs|, i requires 0 <= i < |refs| => objects[refs[i]])
  }

  ghost predicate Known(refs: seq<nat>, objects: map<nat, Provider>) {
    forall i :: 0 <= i < |refs| ==> refs[i] in objects
  }

  /** The sort key of a reference: the priority its provider has now. */
  function PriorityIn(objects: map<nat, Provider>): nat -> real {
    (r: nat) => if r in objects then ByPriority(objects[r]) else 0.0
  }

  ghost predicate IsListed(refs: seq<nat>, objects: map<nat, Provider>, p: Provider)
    requires Known(refs, objects)
  {
    exists i :: 0 <= i < |refs| && objects[refs[i]] == p
  }

  lemma ListedMeans(refs: seq<nat>, objects: map<nat, Provider>, p: Provider)
    requires Known(refs, objects)
    ensures p in Deref(refs, objects) <==> IsListed(refs, objects, p)
  {
    var listed := Deref(refs, objects);
    if i :| 0 <= i < |refs| && objects[refs[i]] == p {
      assert listed[i] == p;
    }
  }

  /** The healthy ones of a list in priority order are in priority order, and sorting them changes nothing. */
  lemma HealthyMeans(refs: seq<nat>, objects: map<nat, Provider>, healthy: string -> bool)
    requires Known(refs, objects)
    requires forall i, j :: 0 <= i < j < |refs| ==> objects[refs[i]].priority <= objects[refs[j]].priority
    ensures var r := Where(Deref(refs, objects), healthy);
            && StableSort(r, ByPriority) == r
            && (forall i, j :: 0 <= i < j < |r| ==> r[i].priority <= r[j].priority)
            && forall p :: p in r <==> healthy(p.id) && IsListed(refs, objects, p)
  {
    var listed := Deref(refs, objects);
    var r := Where(listed, healthy);
    WhereSorted(listed, healthy);
    SortSorted(r);
    forall i, j | 0 <= i < j < |r|
      ensures r[i].priority <= r[j].priority
    {
      assert ByPriority(r[i]) <= ByPriority(r[j]);
    }
    forall p
      ensures p in r <==> healthy(p.id) && IsListed(refs, objects, p)
    {
      ListedMeans(refs, objects, p);
    }
  }

  /** The listed references whose provider has this priority, in order. */
  function AtPriority(refs: seq<nat>, objects: map<nat, Provider>, priority: int): seq<nat> {
    if refs == [] then []
    else
      var r := refs[|refs| - 1];
      AtPriority(refs[..|refs| - 1], objects, priority)
      + (if r in objects && objects[r].priority == priority then [r] else [])
  }

  lemma {:induction false} TiesAtPriority(refs: seq<nat>, objects: map<nat, Provider>, priority: int)
    requires Known(refs, objects)
    ensures Ties(refs, PriorityIn(objects), priority as real) == AtPriority(refs, objects, priority)
  {
    if refs != [] {
      TiesAtPriority(refs[..|refs| - 1], objects, priority);
    }
  }

  /** Position of the first reference to a provider with an id, or the length of the list. */
  function IndexOf(refs: seq<nat>, objects: map<nat, Provider>, id: string): (i: nat)
    requires Known(refs, objects)
    ensures i <= |refs|
    ensures i < |refs| ==> objects[refs[i]].id == id
    ensures forall k :: 0 <= k < i ==> objects[refs[k]].id != id
  {
    if refs == [] || objects[refs[0]].id == id then 0 else 1 + IndexOf(refs[1..], objects, id)
  }

  /**
   The adapter's provider list. It holds references: a provider object that was
   added twice changes its priority in both places.
   */
  class Registry {
    var objects: map<nat, Provider>
    var providers: seq<nat>

    /** The list is in priority order after any sequence of operations. */
    ghost predicate Valid()
      reads this
    {
      && Known(providers, objects)
      && forall i, j :: 0 <= i < j < |providers| ==>
           objects[providers[i]].priority <= objects[providers[j]].priority
    }

    constructor (objects: map<nat, Provider>)
      ensures Valid() && providers == [] && this.objects == objects
    {
      this.objects, providers := objects, [];
    }

    /** Sort the references by the priorities of their providers, which keeps ties in order. */
    method Sort()
      requires Known(providers, objects)
      modifies this`providers
      ensures Valid() && multiset(providers) == multiset(old(providers))
      ensures forall k :: AtPriority(providers, objects, k) == AtPriority(old(providers), objects, k)
    {
      var key := PriorityIn(objects);
      StableSortCorrect(providers, key);
      providers := StableSort(providers, key);
      forall i | 0 <= i < |providers|
        ensures providers[i] in objects
      {
        assert providers[i] in old(providers);
      }
      forall i, j | 0 <= i < j < |providers|
        ensures objects[providers[i]].priority <= objects[providers[j]].priority
      {
        assert key(providers[i]) <= key(providers[j]);
      }
      forall k
        ensures AtPriority(providers, objects, k) == AtPriority(old(providers), objects, k)
      {
        TiesAtPriority(providers, objects, k);
        TiesAtPriority(old(providers), objects, k);
      }
    }

    method AddProvider(r: nat)
      requires Valid() && r in objects
      modifies this`providers
      ensures Valid() && multiset(providers) == multiset(old(providers)) + multiset{r}
      ensures forall k :: AtPriority(providers, objects, k) == AtPriority(old(providers) + [r], objects, k)
    {
      providers := providers + [r];
      Sort();
    }

    method RemoveProvider(id: string)
      requires Valid()
      modifies this`providers
      ensures Valid()
      ensures var i := IndexOf(old(providers), objects, id);
              providers == if i < |old(providers)| then old(providers)[..i] + old(providers)[i + 1..]
                  else old(providers)
    {
      var i := IndexOf(providers, objects, id);
      if i < |providers| {
        var was := providers;
        providers := providers[..i] + providers[i + 1..];
        assert forall k :: 0 <= k < |providers| ==> providers[k] == was[if k < i then k else k + 1];
        assert forall k :: 0 <= k < |providers| ==>
            Deref(providers, objects)[k] == Deref(was, objects)[if k < i then k else k + 1];
      }
    }

    method UpdateProviderPriority(id: string, priority: int)
      requires Valid()
      modifies this
      ensures Valid()
      ensures var i := IndexOf(old(providers), old(objects), id);
              && objects == (if i < |old(providers)| then
                               old(objects)[old(providers)[i] := old(objects)[old(providers)[i]].(priority := priority)]
                                   else old(objects))
              && multiset(providers) == multiset(old(providers))
              && forall k :: AtPriority(providers, objects, k) == AtPriority(old(providers), objects, k)
    {
      var i := IndexOf(providers, objects, id);
      if i < |providers| {
        var r := providers[i];
        objects := objects[r := objects[r].(priority := priority)];
        Sort();
      }
    }

    /** `getHealthyProviders`: the healthy ones, in list order, which is priority order. */
    method GetHealthyProviders(healthy: string -> bool) returns (r: seq<Provider>)
      requires Valid()
      ensures r == Where(Deref(providers, objects), healthy)
      ensures forall i, j :: 0 <= i < j < |r| ==> r[i].priority <= r[j].priority
      ensures forall p :: p in r <==> healthy(p.id) && IsListed(providers, objects, p)
    {
      HealthyMeans(providers, objects, healthy);
      r := StableSort(Where(Deref(providers, objects), healthy), ByPriority);
    }
  }
}
