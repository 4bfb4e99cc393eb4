/** The circuit breaker and the retry loop (retry.go).
    The breaker is a small mutable object; its fields are proved equal to a function
    of everything that ever happened to it.  The retry loop is proved against the
    attempts it made. */
module Retry {
  import opened Wrappers

  // ---- The breaker as a function of its history ----

  datatype BreakerConfig = BreakerConfig(threshold: int, openDuration: int)

  datatype BreakerState = BreakerState(failures: int, trippedAt: Option<int>)

  datatype BreakerEvent = Asked(at: int) | Failed(at: int) | Succeeded

  predicate Refuses(cfg: BreakerConfig, b: BreakerState, now: int) {
    b.trippedAt.Some? && now - b.trippedAt.value <= cfg.openDuration
  }

  function After(cfg: BreakerConfig, b: BreakerState, e: BreakerEvent): BreakerState {
    match e
    case Asked(now) => if Refuses(cfg, b, now) then b else b.(trippedAt := None)
    case Failed(now) =>
      BreakerState(b.failures + 1, if b.failures + 1 >= cfg.threshold then Some(now) else b.trippedAt)
    case Succeeded => BreakerState(0, None)
  }

  function Replay(cfg: BreakerConfig, history: seq<BreakerEvent>): BreakerState {
    if history == [] then BreakerState(0, None)
    else After(cfg, Replay(cfg, history[..|history|-1]), history[|history|-1])
  }

  lemma {:induction false} ReplayStep(cfg: BreakerConfig, history: seq<BreakerEvent>, e: BreakerEvent)
    ensures Replay(cfg, history + [e]) == After(cfg, Replay(cfg, history), e)
  {
    assert (history + [e])[..|history|] == history;
  }

  /** Failures after the last success. */
  function FailuresSinceSuccess(history: seq<BreakerEvent>): nat {
    if history == [] then 0
    else
      match history[|history|-1]
      case Succeeded => 0
      case Failed(_) => 1 + FailuresSinceSuccess(history[..|history|-1])
      case Asked(_) => FailuresSinceSuccess(history[..|history|-1])
  }

  ghost predicate QuietSince(cfg: BreakerConfig, history: seq<BreakerEvent>, i: nat, at: int) {
    forall j :: i < j < |history| ==> history[j].Asked? && history[j].at - at <= cfg.openDuration
  }

  /** The i-th event is the failure that keeps the breaker open: it reached the
      threshold, and since then nothing failed or succeeded and nobody asked after
      the open period. */
  ghost predicate HoldsOpen(cfg: BreakerConfig, history: seq<BreakerEvent>, i: int, at: int) {
    && 0 <= i < |history|
    && history[i] == Failed(at)
    && FailuresSinceSuccess(history[..i+1]) >= cfg.threshold
    && QuietSince(cfg, history, i, at)
  }

  lemma {:induction false} HoldsOpenLast(cfg: BreakerConfig, history: seq<BreakerEvent>, at: int)
    requires history != []
    ensures HoldsOpen(cfg, history, |history| - 1, at) <==>
            history[|history|-1] == Failed(at) && FailuresSinceSuccess(history) >= cfg.threshold
  {
    assert history[..|history|] == history;
  }

  lemma {:induction false} HoldsOpenStep(cfg: BreakerConfig, before: seq<BreakerEvent>, e: BreakerEvent, i: int, at: int)
    requires i < |before|
    ensures HoldsOpen(cfg, before + [e], i, at) <==>
            HoldsOpen(cfg, before, i, at) && e.Asked? && e.at - at <= cfg.openDuration
  {
    var history := before + [e];
    if 0 <= i {
      assert history[..i+1] == before[..i+1];
      assert forall j :: 0 <= j < |before| ==> history[j] == before[j];
      assert history[|before|] == e;
    }
  }

  lemma {:induction false} OpenMeansThreshold(cfg: BreakerConfig, history: seq<BreakerEvent>, i: int, at: int)
    requires HoldsOpen(cfg, history, i, at)
    ensures FailuresSinceSuccess(history) >= cfg.threshold
    decreases |history|
  {
    var n := |history| - 1;
    if i == n {
      HoldsOpenLast(cfg, history, at);
    } else {
      assert history == history[..n] + [history[n]];
      HoldsOpenStep(cfg, history[..n], history[n], i, at);
      OpenMeansThreshold(cfg, history[..n], i, at);
    }
  }

  /** The fields are exactly these functions of the history. */
  lemma {:induction false} BreakerIsItsHistory(cfg: BreakerConfig, history: seq<BreakerEvent>)
    ensures var b := Replay(cfg, history);
            && b.failures == FailuresSinceSuccess(history)
            && (forall at :: b.trippedAt == Some(at) <==> exists i :: HoldsOpen(cfg, history, i, at))
  {
    if history != [] {
      var n := |history| - 1;
      BreakerIsItsHistory(cfg, history[..n]);
      assert history == history[..n] + [history[n]];
      forall at
        ensures Replay(cfg, history).trippedAt == Some(at) <==> exists i :: HoldsOpen(cfg, history, i, at)
      {
        TrippedStep(cfg, history[..n], history[n], at);
      }
    }
  }

  lemma {:induction false} TrippedStep(cfg: BreakerConfig, before: seq<BreakerEvent>, e: BreakerEvent, at: int)
    requires Replay(cfg, before).failures == FailuresSinceSuccess(before)
    requires Replay(cfg, before).trippedAt == Some(at) <==> exists i :: HoldsOpen(cfg, before, i, at)
    ensures Replay(cfg, before + [e]).trippedAt == Some(at) <==> exists i :: HoldsOpen(cfg, before + [e], i, at)
  {
    var history := before + [e];
    ReplayStep(cfg, before, e);
    assert history[..|history|-1] == before;
    HoldsOpenLast(cfg, history, at);
    forall i | i < |before|
      ensures HoldsOpen(cfg, history, i, at) <==>
              HoldsOpen(cfg, before, i, at) && e.Asked? && e.at - at <= cfg.openDuration
    {
      HoldsOpenStep(cfg, before, e, i, at);
    }
    if i :| HoldsOpen(cfg, before, i, at) {
      OpenMeansThreshold(cfg, before, i, at);
      if e.Asked? && e.at - at <= cfg.openDuration { assert HoldsOpen(cfg, history, i, at); }
    }
    if HoldsOpen(cfg, history, |before|, at) { assert |before| == |history| - 1; }
  }

  class CircuitBreaker {
    const cfg: BreakerConfig
    var failures: int
    var trippedAt: Option<int>
    /** Everything that happened to the breaker so far. */
    ghost var history: seq<BreakerEvent>

    ghost predicate Valid()
      reads this
    {
      State() == Replay(cfg, history)
    }

    ghost function State(): BreakerState
      reads this
    {
      BreakerState(failures, trippedAt)
    }

    constructor (cfg: BreakerConfig)
      ensures Valid() && this.cfg == cfg && history == []
    {
      this.cfg := cfg;
      failures, trippedAt, history := 0, None, [];
    }

    /** Refuses exactly while tripped and within the open period; otherwise closes. */
    method Allow(now: int) returns (ok: bool)
      requires Valid()
      modifies this
      ensures Valid() && history == old(history) + [Asked(now)]
      ensures ok == !Refuses(cfg, old(State()), now)
      ensures failures == old(failures)
      ensures ok ==> trippedAt == None
      ensures !ok ==> trippedAt == old(trippedAt)
    {
      ReplayStep(cfg, history, Asked(now));
      history := history + [Asked(now)];
      if trippedAt == None {
        return true;
      }
      if now - trippedAt.value > cfg.openDuration {
        trippedAt := None;
        return true;
      }
      return false;
    }

    method RecordFailure(now: int)
      requires Valid()
      modifies this
      ensures Valid() && history == old(history) + [Failed(now)]
    {
      ReplayStep(cfg, history, Failed(now));
      history := history + [Failed(now)];
      failures := failures + 1;
      if failures >= cfg.threshold {
        trippedAt := Some(now);
      }
    }

    method RecordSuccess()
      requires Valid()
      modifies this
      ensures Valid() && history == old(history) + [Succeeded]
    {
      ReplayStep(cfg, history, Succeeded);
      history := history + [Succeeded];
      failures := 0;
      trippedAt := None;
    }
  }

  // ---- Backoff (over the reals, up to the conversion to whole nanoseconds) ----

  datatype RetryPolicy = RetryPolicy(maxAttempts: int, initialWait: int, maxWait: int, multiplier: real,
                                     retryOn: Option<(string, int) -> bool>)

  function Power(x: real, n: nat): real {
    if n == 0 then 1.0 else x * Power(x, n - 1)
  }

  /** Conversion of a float to an integer drops the fraction. */
  function Truncate(x: real): int {
    if x >= 0.0 then x.Floor else -((-x).Floor)
  }

  function RawWait(initialWait: int, multiplier: real, n: nat): real {
    initialWait as real * Power(multiplier, n)
  }

  const TWO_63 := 0x8000_0000_0000_0000

  /** The float is in the range of a Duration. */
  predicate Convertible(x: real) {
    -(TWO_63 as real) <= x < TWO_63 as real
  }

  /** The wait after an attempt.  What becomes of a float beyond the range of a Duration is
      up to the machine: it is converted to `overflow`. */
  function Backoff(retry: RetryPolicy, attempt: nat, overflow: int): int
    requires attempt >= 1
  {
    var raw := RawWait(retry.initialWait, retry.multiplier, attempt - 1);
    var wait := if Convertible(raw) then Truncate(raw) else overflow;
    if wait < retry.maxWait then wait else retry.maxWait
  }

  lemma {:induction false} TimesAtLeastOne(x: real, p: real)
    requires x >= 1.0 && p >= 0.0
    ensures x * p >= p
  {
    assert (x - 1.0) * p >= 0.0;
  }

  lemma {:induction false} PowerPositive(x: real, n: nat)
    requires x >= 1.0
    ensures Power(x, n) >= 1.0
  {
    if n > 0 {
      PowerPositive(x, n - 1);
      TimesAtLeastOne(x, Power(x, n - 1));
    }
  }

  lemma {:induction false} RawWaitGrows(initialWait: int, multiplier: real, n: nat)
    requires initialWait >= 0 && multiplier >= 1.0
    ensures 0.0 <= RawWait(initialWait, multiplier, n) <= RawWait(initialWait, multiplier, n + 1)
  {
    var w, p := initialWait as real, Power(multiplier, n);
    PowerPositive(multiplier, n);
    TimesAtLeastOne(multiplier, p);
    assert w * p >= 0.0;
    assert w * (multiplier * p - p) >= 0.0;
  }

  lemma {:induction false} TruncateKeepsOrder(x: real, y: real)
    requires 0.0 <= x <= y
    ensures Truncate(x) <= Truncate(y)
  {
  }

  lemma {:induction false} RawWaitsGrow(initialWait: int, multiplier: real, a: nat, b: nat)
    requires initialWait >= 0 && multiplier >= 1.0 && a <= b
    ensures 0.0 <= RawWait(initialWait, multiplier, a) <= RawWait(initialWait, multiplier, b)
    decreases b
  {
    hide RawWait;
    RawWaitGrows(initialWait, multiplier, a);
    if a < b {
      RawWaitsGrow(initialWait, multiplier, a, b - 1);
      RawWaitGrows(initialWait, multiplier, b - 1);
    }
  }

  /** Waits never exceed the cap.  They do not shrink from one attempt to a later one exactly
      when the later raw wait is in range, or the machine converts it to no less than the
      earlier wait. */
  lemma {:induction false} BackoffGrowsToCap(retry: RetryPolicy, a: nat, b: nat, overflow: int)
    requires retry.initialWait >= 0 && retry.multiplier >= 1.0 && 1 <= a <= b
    ensures Backoff(retry, b, overflow) <= retry.maxWait
    ensures Backoff(retry, a, overflow) <= Backoff(retry, b, overflow) <==>
              || Convertible(RawWait(retry.initialWait, retry.multiplier, b - 1))
              || Backoff(retry, a, overflow) <= overflow
  {
    hide RawWait;
    var x, y := RawWait(retry.initialWait, retry.multiplier, a - 1), RawWait(retry.initialWait, retry.multiplier, b - 1);
    RawWaitsGrow(retry.initialWait, retry.multiplier, a - 1, b - 1);
    if Convertible(y) { TruncateKeepsOrder(x, y); }
  }

  lemma {:induction false} PowerOfSum(x: real, m: nat, n: nat)
    ensures Power(x, m + n) == Power(x, m) * Power(x, n)
  {
    if m > 0 {
      PowerOfSum(x, m - 1, n);
      assert x * (Power(x, m - 1) * Power(x, n)) == x * Power(x, m - 1) * Power(x, n);
    }
  }

  lemma {:induction false} PowersOfTwo()
    ensures Power(2.0, 34) == 17179869184.0 && Power(2.0, 35) == 34359738368.0
  {
    assert Power(2.0, 1) == 2.0 * Power(2.0, 0) == 2.0;
    PowerOfSum(2.0, 1, 1);
    PowerOfSum(2.0, 2, 2);
    PowerOfSum(2.0, 4, 4);
    PowerOfSum(2.0, 8, 8);
    PowerOfSum(2.0, 16, 16);
    PowerOfSum(2.0, 2, 32);
    PowerOfSum(2.0, 1, 34);
  }

  /** The default waits (500 ms, doubled, capped at 30 s) leave the range after the 36th
      attempt; where the machine then converts to the least Duration, there is no wait at
      all. */
  lemma {:induction false} DefaultWaitsOverflow(retry: RetryPolicy)
    requires retry.initialWait == 500_000_000 && retry.multiplier == 2.0 && retry.maxWait == 30_000_000_000
    ensures Backoff(retry, 35, -TWO_63) == retry.maxWait
    ensures !Convertible(RawWait(retry.initialWait, retry.multiplier, 35)) && Backoff(retry, 36, -TWO_63) == -TWO_63
  {
    PowersOfTwo();
  }

  // ---- The retry loop ----

  datatype Attempt = Attempt(snaps: seq<string>, cost: real, error: Option<string>)

  datatype RetryResult = RetryResult(snaps: seq<string>, cost: real, error: Option<string>)

  const CIRCUIT_OPEN := "circuit breaker is open"

  /** The world a firing runs in: what it calls, how long it sleeps, what time it is. */
  class Runtime {
    var fired: seq<Attempt>
    var waits: seq<int>
    var clock: int
    /** What this machine converts a float beyond the range of a Duration to. */
    const overflow: int

    constructor (overflow: int)
      ensures fired == [] && waits == [] && this.overflow == overflow
    {
      fired, waits, clock := [], [], 0;
      this.overflow := overflow;
    }

    method Fire() returns (a: Attempt)
      modifies this
      ensures fired == old(fired) + [a] && waits == old(waits)
    {
      a := *;
      fired := fired + [a];
    }

    method Sleep(d: int) returns (error: Option<string>)
      modifies this
      ensures fired == old(fired) && waits == old(waits) + [d]
    {
      error := *;
      waits := waits + [d];
    }

    method Now() returns (now: int)
      modifies this`clock
      ensures old(clock) <= clock == now
    {
      var later: int := *;
      if later > clock { clock := later; }
      now := clock;
    }
  }

  function TotalCost(attempts: seq<Attempt>): real {
    if attempts == [] then 0.0
    else TotalCost(attempts[..|attempts|-1]) + attempts[|attempts|-1].cost
  }

  function MaxAttempts(retry: RetryPolicy): nat {
    if retry.maxAttempts > 1 then retry.maxAttempts else 1
  }

  predicate Retryable(retry: RetryPolicy, error: string, attempt: int) {
    retry.retryOn.Some? ==> retry.retryOn.value(error, attempt)
  }

  /** Every attempt failed in a way the policy retries. */
  ghost predicate AllRetried(retry: RetryPolicy, attempts: seq<Attempt>) {
    forall k :: 0 <= k < |attempts| ==>
      attempts[k].error.Some? && Retryable(retry, attempts[k].error.value, k + 1)
  }

  /** One wait after each of the first attempts, in backoff order. */
  ghost predicate BackedOff(retry: RetryPolicy, waits: seq<int>, overflow: int) {
    forall k :: 0 <= k < |waits| ==> waits[k] == Backoff(retry, k + 1, overflow)
  }

  /** The breaker saw each attempt once, as what it was. */
  ghost predicate Recorded(events: seq<BreakerEvent>, attempts: seq<Attempt>) {
    && |events| == |attempts|
    && forall k :: 0 <= k < |events| ==>
         !events[k].Asked? && (events[k].Succeeded? <==> attempts[k].error.None?)
  }

  /** What a call of the retry loop may have done: the attempts it `made` before the
      `last` one, and the waits between them. */
  ghost predicate Retried(retry: RetryPolicy, made: seq<Attempt>, last: Attempt, waits: seq<int>, overflow: int,
                          r: RetryResult) {
    var n := |made| + 1;
    && n <= MaxAttempts(retry)
    && AllRetried(retry, made)
    && BackedOff(retry, waits, overflow)
    && r.cost == TotalCost(made) + last.cost
    && match last.error
       case None => r.error == None && r.snaps == last.snaps && |waits| == n - 1
       case Some(e) =>
         && r.error.Some? && r.snaps == []
         && if !Retryable(retry, e, n) || n == MaxAttempts(retry)
            then r.error == Some(e) && |waits| == n - 1
            else |waits| == n   // cancelled while waiting
  }

  lemma {:induction false} TotalCostStep(attempts: seq<Attempt>, a: Attempt)
    ensures TotalCost(attempts + [a]) == TotalCost(attempts) + a.cost
  {
    assert (attempts + [a])[..|attempts|] == attempts;
  }

  /** One call of the fire function, recorded on the breaker (`fireOnce`). */
  method FireOnce(cb: CircuitBreaker?, rt: Runtime) returns (a: Attempt, ghost e: BreakerEvent)
    requires cb != null ==> cb.Valid()
    modifies rt, cb
    ensures rt.fired == old(rt.fired) + [a] && rt.waits == old(rt.waits)
    ensures cb != null ==> cb.Valid() && cb.history == old(cb.history) + [e]
    ensures !e.Asked? && (e.Succeeded? <==> a.error.None?)
  {
    a := rt.Fire();
    e := Succeeded;
    if a.error.Some? { e := Failed(0); }
    if cb != null {
      if a.error == None {
        cb.RecordSuccess();
      } else {
        var now := rt.Now();
        e := Failed(now);
        cb.RecordFailure(now);
      }
    }
  }

  lemma {:induction false} AllRetriedStep(retry: RetryPolicy, attempts: seq<Attempt>, a: Attempt)
    requires AllRetried(retry, attempts)
    requires a.error.Some? && Retryable(retry, a.error.value, |attempts| + 1)
    ensures AllRetried(retry, attempts + [a])
  {
  }

  method RetryLoop(retry: RetryPolicy, cb: CircuitBreaker?, rt: Runtime)
    returns (r: RetryResult, ghost made: seq<Attempt>, ghost last: Attempt,
             ghost waits: seq<int>, ghost events: seq<BreakerEvent>)
    requires cb != null ==> cb.Valid()
    modifies rt, cb
    ensures rt.fired == old(rt.fired) + made + [last] && rt.waits == old(rt.waits) + waits
    ensures cb != null ==> cb.Valid() && cb.history == old(cb.history) + events
    ensures Recorded(events, made + [last])
    ensures Retried(retry, made, last, waits, rt.overflow, r)
  {
    var maxAttempts := MaxAttempts(retry);
    var totalCost := 0.0;
    var attempt := 1;
    made, waits, events := [], [], [];
    while true
      invariant 1 <= attempt <= maxAttempts
      invariant rt.fired == old(rt.fired) + made && |made| == attempt - 1
      invariant rt.waits == old(rt.waits) + waits && |waits| == attempt - 1
      invariant AllRetried(retry, made) && BackedOff(retry, waits, rt.overflow) && Recorded(events, made)
      invariant totalCost == TotalCost(made)
      invariant cb != null ==> cb.Valid() && cb.history == old(cb.history) + events
      decreases maxAttempts - attempt
    {
      var a, e := FireOnce(cb, rt);
      last := a;
      events := events + [e];
      totalCost := totalCost + a.cost;
      if a.error == None {
        return RetryResult(a.snaps, totalCost, None), made, last, waits, events;
      }
      if retry.retryOn.Some? && !retry.retryOn.value(a.error.value, attempt) {
        return RetryResult([], totalCost, a.error), made, last, waits, events;
      }
      if attempt == maxAttempts {
        return RetryResult([], totalCost, a.error), made, last, waits, events;
      }
      var wait := Backoff(retry, attempt, rt.overflow);
      var cancelled := rt.Sleep(wait);
      waits := waits + [wait];
      if cancelled.Some? {
        return RetryResult([], totalCost, cancelled), made, last, waits, events;
      }
      AllRetriedStep(retry, made, a);
      TotalCostStep(made, a);
      made := made + [a];
      attempt := attempt + 1;
    }
  }

  /** `doRetry`.  A refusing breaker means no attempt at all; without a policy there is
      exactly one; otherwise the attempts, waits, cost and result are as in `Retried`.
      The breaker is asked once and then records each attempt. */
  method DoRetry(retry: Option<RetryPolicy>, cb: CircuitBreaker?, rt: Runtime)
    returns (r: RetryResult, ghost attempts: seq<Attempt>, ghost waits: seq<int>, ghost events: seq<BreakerEvent>)
    requires cb != null ==> cb.Valid()
    modifies rt, cb
    ensures rt.fired == old(rt.fired) + attempts && rt.waits == old(rt.waits) + waits
    ensures cb != null ==>
      && cb.Valid() && cb.history == old(cb.history) + events
      && events != [] && events[0].Asked? && Recorded(events[1..], attempts)
      && (Refuses(cb.cfg, old(cb.State()), events[0].at) <==> attempts == [])
    ensures attempts == [] ==> cb != null && waits == [] && r == RetryResult([], 0.0, Some(CIRCUIT_OPEN))
    ensures attempts != [] && retry.None? ==>
      |attempts| == 1 && waits == [] && r == RetryResult(attempts[0].snaps, attempts[0].cost, attempts[0].error)
    ensures attempts != [] && retry.Some? ==>
      Retried(retry.value, attempts[..|attempts|-1], attempts[|attempts|-1], waits, rt.overflow, r)
  {
    attempts, waits, events := [], [], [];
    if cb != null {
      var now := rt.Now();
      var ok := cb.Allow(now);
      events := [Asked(now)];
      if !ok {
        return RetryResult([], 0.0, Some(CIRCUIT_OPEN)), attempts, waits, events;
      }
    }
    if retry.None? {
      var a, e := FireOnce(cb, rt);
      attempts, events := [a], events + [e];
      return RetryResult(a.snaps, a.cost, a.error), attempts, waits, events;
    }
    ghost var made, last, more;
    r, made, last, waits, more := RetryLoop(retry.value, cb, rt);
    attempts, events := made + [last], events + more;
  }
}
