/**
 * The adaptive rate limiter: a delay that grows by half on every failure up to
 * a ceiling, shrinks by a fifth after a run of successes down to a floor, and
 * spaces consecutive requests at least that delay apart.
 */
module RateLimiting {

  const BaseDelay: real := 0.1
  const MaxDelay: real := 2.0

  /** The limiter's mutable state. */
  datatype LimiterState = LimiterState(
    currentDelay: real,
    successCount: nat,
    failureCount: nat,
    lastRequestTime: real)

  const InitialLimiter := LimiterState(BaseDelay, 0, 0, 0.0)

  /** The delay stays between the floor and the ceiling. */
  predicate Bounded(s: LimiterState) {
    BaseDelay <= s.currentDelay <= MaxDelay
  }

  function Min(a: real, b: real): real { if a <= b then a else b }
  function Max(a: real, b: real): real { if a >= b then a else b }

  /** `record_success`. */
  function AfterSuccess(s: LimiterState): (t: LimiterState)
    ensures t.failureCount == s.failureCount && t.lastRequestTime == s.lastRequestTime
  {
    var count := s.successCount + 1;
    if count > 3 && s.currentDelay > BaseDelay then
      s.(currentDelay := Max(BaseDelay, s.currentDelay * 0.8), successCount := 0)
    else
      s.(successCount := count)
  }

  /** `record_failure`. */
  function AfterFailure(s: LimiterState): (t: LimiterState)
    ensures t.lastRequestTime == s.lastRequestTime
  {
    s.(failureCount := s.failureCount + 1, successCount := 0,
       currentDelay := Min(MaxDelay, s.currentDelay * 1.5))
  }

  /**
   * `wait_before_request` at clock reading `now`: the time to sleep and the new
   * state. The second clock reading is taken as `now` plus the sleep.
   */
  function Gate(s: LimiterState, now: real): (result: (real, LimiterState))
  {
    var sinceLast := now - s.lastRequestTime;
    var wait := if sinceLast < s.currentDelay then s.currentDelay - sinceLast else 0.0;
    (wait, s.(lastRequestTime := now + wait))
  }

  /** A failure counts itself, clears the success run and grows the delay by half, capped. */
  lemma FailureEffect(s: LimiterState)
    requires Bounded(s)
    ensures var t := AfterFailure(s);
      t.failureCount == s.failureCount + 1 && t.successCount == 0
      && (s.currentDelay * 1.5 <= MaxDelay ==> t.currentDelay == s.currentDelay * 1.5)
      && (s.currentDelay * 1.5 > MaxDelay ==> t.currentDelay == MaxDelay)
      && s.currentDelay <= t.currentDelay && Bounded(t)
  {
  }

  /**
   * A success always counts itself; only the fourth success in a row with the
   * delay above the floor shrinks the delay (never below the floor) and restarts the run.
   */
  lemma SuccessEffect(s: LimiterState)
    requires Bounded(s)
    ensures var t := AfterSuccess(s);
      && (t.successCount == 0 <==> s.successCount >= 3 && s.currentDelay > BaseDelay)
      && (t.successCount != 0 ==> t.successCount == s.successCount + 1 && t.currentDelay == s.currentDelay)
      && (t.successCount == 0 ==> t.currentDelay < s.currentDelay
                                  && t.currentDelay == Max(BaseDelay, s.currentDelay * 0.8))
      && Bounded(t)
  {
  }

  /** At the floor, successes only keep counting: the run is never restarted. */
  lemma SuccessAtFloor(s: LimiterState)
    requires s.currentDelay == BaseDelay
    ensures AfterSuccess(s) == s.(successCount := s.successCount + 1)
  {
  }

  /** The gate spaces requests: the next request time is at least the last one plus the delay. */
  lemma GateSpacing(s: LimiterState, now: real)
    ensures var (wait, t) := Gate(s, now);
      && wait >= 0.0
      && (wait > 0.0 <==> now - s.lastRequestTime < s.currentDelay)
      && t.lastRequestTime >= s.lastRequestTime + s.currentDelay
      && t.lastRequestTime >= now
      && t == s.(lastRequestTime := now + wait)
  {
  }

  // ---------------------------------------------------------------------------
  // Any sequence of calls
  // ---------------------------------------------------------------------------

  /** A call on the limiter. */
  datatype LimiterCall = Wait(now: real) | Success | Failure

  function Apply(s: LimiterState, c: LimiterCall): LimiterState {
    match c
    case Wait(now) => Gate(s, now).1
    case Success => AfterSuccess(s)
    case Failure => AfterFailure(s)
  }

  function ApplyCalls(s: LimiterState, calls: seq<LimiterCall>): LimiterState
    decreases |calls|
  {
    if calls == [] then s else ApplyCalls(Apply(s, calls[0]), calls[1..])
  }

  function CountFailures(calls: seq<LimiterCall>): nat {
    if calls == [] then 0 else (if calls[0].Failure? then 1 else 0) + CountFailures(calls[1..])
  }

  /** Whatever the calls, the delay stays within its bounds, and every failure is counted. */
  lemma {:induction false} CallsKeepBounds(s: LimiterState, calls: seq<LimiterCall>)
    requires Bounded(s)
    ensures Bounded(ApplyCalls(s, calls))
    ensures ApplyCalls(s, calls).failureCount == s.failureCount + CountFailures(calls)
    decreases |calls|
  {
    if calls != [] {
      var t := Apply(s, calls[0]);
      match calls[0] {
        case Wait(now) => GateSpacing(s, now);
        case Success => SuccessEffect(s);
        case Failure => FailureEffect(s);
      }
      CallsKeepBounds(t, calls[1..]);
    }
  }

  /** Applying two runs of calls one after the other is applying their concatenation. */
  lemma {:induction false} ApplyCallsAppend(s: LimiterState, a: seq<LimiterCall>, b: seq<LimiterCall>)
    ensures ApplyCalls(s, a + b) == ApplyCalls(ApplyCalls(s, a), b)
    ensures CountFailures(a + b) == CountFailures(a) + CountFailures(b)
    decreases |a|
  {
    if a == [] {
      assert a + b == b;
    } else {
      assert (a + b)[0] == a[0] && (a + b)[1..] == a[1..] + b;
      ApplyCallsAppend(Apply(s, a[0]), a[1..], b);
    }
  }

  /** From a delay above the floor, four successes in a row shrink it by a fifth, floored. */
  lemma FourSuccesses(s: LimiterState)
    requires Bounded(s) && s.successCount == 0 && s.currentDelay > BaseDelay
    ensures var t := ApplyCalls(s, [Success, Success, Success, Success]);
      t.currentDelay == Max(BaseDelay, s.currentDelay * 0.8) && t.successCount == 0
  {
    var s1 := AfterSuccess(s);
    var s2 := AfterSuccess(s1);
    var s3 := AfterSuccess(s2);
    assert s3.successCount == 3 && s3.currentDelay == s.currentDelay;
    assert [Success, Success, Success, Success][1..] == [Success, Success, Success];
    assert [Success, Success, Success][1..] == [Success, Success];
    assert [Success, Success][1..] == [Success];
  }

  // ---------------------------------------------------------------------------
  // The limiter object
  // ---------------------------------------------------------------------------

  /** `AdaptiveRateLimiter`: the object whose fields the calls update in place. */
  class AdaptiveRateLimiter {
    const baseDelay: real
    const maxDelay: real
    var currentDelay: real
    var successCount: nat
    var failureCount: nat
    var lastRequestTime: real

    function State(): LimiterState
      reads this
    {
      LimiterState(currentDelay, successCount, failureCount, lastRequestTime)
    }

    /** The constants are the module's floor and ceiling. */
    predicate Valid()
      reads this
    {
      baseDelay == BaseDelay && maxDelay == MaxDelay && Bounded(State())
    }

    constructor()
      ensures Valid() && State() == InitialLimiter
    {
      baseDelay := 0.1;
      maxDelay := 2.0;
      currentDelay := 0.1;
      successCount := 0;
      failureCount := 0;
      lastRequestTime := 0.0;
    }

    /** Waits until the delay has passed since the last request; returns the time slept. */
    method WaitBeforeRequest(now: real) returns (wait: real)
      requires Valid()
      modifies this
      ensures Valid() && (wait, State()) == Gate(old(State()), now)
    {
      var sinceLast := now - lastRequestTime;
      wait := 0.0;
      if sinceLast < currentDelay {
        wait := currentDelay - sinceLast;
      }
      lastRequestTime := now + wait;
    }

    method RecordSuccess()
      requires Valid()
      modifies this
      ensures Valid() && State() == AfterSuccess(old(State()))
    {
      SuccessEffect(State());
      successCount := successCount + 1;
      if successCount > 3 && currentDelay > baseDelay {
        currentDelay := Max(baseDelay, currentDelay * 0.8);
        successCount := 0;
      }
    }

    method RecordFailure()
      requires Valid()
      modifies this
      ensures Valid() && State() == AfterFailure(old(State()))
    {
      FailureEffect(State());
      failureCount := failureCount + 1;
      successCount := 0;
      currentDelay := Min(maxDelay, currentDelay * 1.5);
    }
  }
}
