/**
 * The retry loop of `parse_single_url` as a function of what the outside world
 * supplies: for every attempt, the clock reading at the rate-limiter gate, the
 * backoff jitter and the outcome of the request (a response with its parsed
 * page, a timeout, a network error or another exception). Sleeps and requests
 * are recorded as events in a trace.
 */
module Attempts {
  import opened Wrappers
  import opened Text
  import opened Results
  import opened RateLimiting

  /** What the HTML extractor made of a page: the ten fields, or the exception it raised. */
  datatype Page = Extracted(fields: Fields) | ExtractionRaised(message: string)

  /** What one request produced. */
  datatype Outcome =
    | Response(status: int, page: Page, elapsed: real)
    | TimeoutError
    | ClientError
    | OtherError

  /** The jitter `random.uniform(0.2, 0.8)` adds to a backoff. */
  type Jitter = r: real | 0.2 <= r <= 0.8 witness 0.2

  /** What the outside world supplies for one attempt. */
  datatype Attempt = Attempt(now: real, jitter: Jitter, outcome: Outcome)

  datatype SleepReason = GateWait | Backoff | RateLimited | ServerError | NetworkError | BatchPause

  /** An observable effect: a sleep, a request, or a call of the progress callback. */
  datatype Event =
    | Sleep(reason: SleepReason, seconds: real)
    | Fetch(url: string)
    | Progress(completed: int, total: int, batchSize: int)

  /** The state the loop changes besides the result: the limiter, the statistics, the trace. */
  datatype Engine = Engine(limiter: LimiterState, stats: Stats, trace: seq<Event>)

  // ---------------------------------------------------------------------------
  // Backoff
  // ---------------------------------------------------------------------------

  function Pow(b: real, k: nat): real {
    if k == 0 then 1.0 else b * Pow(b, k - 1)
  }

  /** `min(1.5 ** attempt + jitter, 8)`. */
  function BackoffDelay(k: nat, jitter: Jitter): real {
    Min(Pow(1.5, k) + jitter, 8.0)
  }

  lemma {:induction false} PowGrows(k: nat)
    requires k >= 1
    ensures Pow(1.5, k) >= 1.5
  {
    if k > 1 {
      PowGrows(k - 1);
    }
  }

  /** A retry waits at least 1.7 seconds and never more than 8. */
  lemma BackoffBounds(k: nat, jitter: Jitter)
    requires k >= 1
    ensures 1.7 <= BackoffDelay(k, jitter) <= 8.0
  {
    PowGrows(k);
  }

  // ---------------------------------------------------------------------------
  // One attempt
  // ---------------------------------------------------------------------------

  /** `_parse_html_content` followed by the bookkeeping of a 200 response at attempt `k`. */
  function AfterPage(r: ParseResult, page: Page, elapsed: real, k: nat): ParseResult {
    var parsed := match page
      case Extracted(f) => r.(fields := f)
      case ExtractionRaised(message) => r.(error := Some("HTML parsing error: " + message));
    parsed.(parseTime := elapsed, attemptCount := k + 1)
  }

  /** The outcomes after which the limiter records a failure: 429, a timeout, a network error. */
  predicate FailureSignal(o: Outcome) {
    (o.Response? && o.status == 429) || o.TimeoutError? || o.ClientError?
  }

  /** The gate's sleep, when there is one. */
  function GateSleep(wait: real): seq<Event> {
    if wait > 0.0 then [Sleep(GateWait, wait)] else []
  }

  /** The backoff sleep before a retry. */
  function BackoffSleep(k: nat, jitter: Jitter): seq<Event> {
    if k > 0 then [Sleep(Backoff, BackoffDelay(k, jitter))] else []
  }

  /** The sleep that follows an outcome: 5 s after a 429, 2 s after a server error, 1 s after a network error. */
  function OutcomeSleep(o: Outcome): seq<Event> {
    match o
    case Response(status, _, _) =>
      if status == 200 then []
      else if status == 429 then [Sleep(RateLimited, 5.0)]
      else if status >= 500 then [Sleep(ServerError, 2.0)]
      else []
    case ClientError => [Sleep(NetworkError, 1.0)]
    case _ => []
  }

  datatype StepOutcome = StepOutcome(done: bool, result: ParseResult, engine: Engine)

  /**
   * The start of attempt `k`: the gate (its sleep recorded when there is one),
   * the backoff sleep and a retry counted from the second attempt on, and the request.
   */
  function Prepare(url: string, k: nat, a: Attempt, e: Engine): Engine {
    var (wait, limiter) := Gate(e.limiter, a.now);
    Engine(limiter,
           if k > 0 then e.stats.(totalRetries := e.stats.totalRetries + 1) else e.stats,
           e.trace + GateSleep(wait) + BackoffSleep(k, a.jitter) + [Fetch(url)])
  }

  /** The reaction to what the request produced; `done` when the URL succeeded. */
  function React(k: nat, o: Outcome, r: ParseResult, e: Engine): StepOutcome {
    match o
    case Response(status, page, elapsed) =>
      if status == 200 then
        var parsed := AfterPage(r, page, elapsed, k);
        if IsSuccessful(parsed) then
          StepOutcome(true, parsed, e.(limiter := AfterSuccess(e.limiter),
                                       stats := e.stats.(successfulParses := e.stats.successfulParses + 1)))
        else
          StepOutcome(false, parsed, e)
      else if status == 429 then
        StepOutcome(false, r, e.(limiter := AfterFailure(e.limiter), trace := e.trace + [Sleep(RateLimited, 5.0)]))
      else if status >= 500 then
        StepOutcome(false, r, e.(trace := e.trace + [Sleep(ServerError, 2.0)]))
      else
        StepOutcome(false, r, e)
    case TimeoutError =>
      StepOutcome(false, r, e.(limiter := AfterFailure(e.limiter)))
    case ClientError =>
      StepOutcome(false, r, e.(limiter := AfterFailure(e.limiter), trace := e.trace + [Sleep(NetworkError, 1.0)]))
    case OtherError =>
      StepOutcome(false, r, e)
  }

  /** One pass of the retry loop: attempt `k` with what `a` supplies. */
  function Step(url: string, k: nat, a: Attempt, r: ParseResult, e: Engine): StepOutcome {
    React(k, a.outcome, r, Prepare(url, k, a, e))
  }

  /** The message a result carries once every attempt has failed. */
  function FailedMessage(maxRetries: nat): string {
    "Failed after " + NatToString(maxRetries + 1) + " attempts"
  }

  /** After the loop: the failure is recorded in the result, the statistics and the limiter. */
  function Exhausted(maxRetries: nat, r: ParseResult, e: Engine): (ParseResult, Engine) {
    (r.(error := Some(FailedMessage(maxRetries)), attemptCount := maxRetries + 1),
     e.(limiter := AfterFailure(e.limiter), stats := e.stats.(failedParses := e.stats.failedParses + 1)))
  }

  /** The loop from attempt `k` on. */
  function Run(url: string, maxRetries: nat, k: nat, env: nat -> Attempt, r: ParseResult, e: Engine): (ParseResult, Engine)
    requires k <= maxRetries + 1
    decreases maxRetries + 1 - k
  {
    if k == maxRetries + 1 then Exhausted(maxRetries, r, e)
    else
      var s := Step(url, k, env(k), r, e);
      if s.done then (s.result, s.engine) else Run(url, maxRetries, k + 1, env, s.result, s.engine)
  }

  /** One pass of the loop from attempt `k`: it ends there when the attempt succeeded, and goes on from `k + 1` otherwise. */
  lemma RunStep(url: string, maxRetries: nat, k: nat, env: nat -> Attempt, r: ParseResult, e: Engine, s: StepOutcome)
    requires k <= maxRetries && s == React(k, env(k).outcome, r, Prepare(url, k, env(k), e))
    ensures s.done ==> Run(url, maxRetries, k, env, r, e) == (s.result, s.engine)
    ensures !s.done ==> Run(url, maxRetries, k, env, r, e) == Run(url, maxRetries, k + 1, env, s.result, s.engine)
  {
  }

  /** `parse_single_url`. */
  function ParseSingle(url: string, batchNumber: int, maxRetries: nat, env: nat -> Attempt, e: Engine): (ParseResult, Engine) {
    Run(url, maxRetries, 0, env, NewResult(url, batchNumber), e)
  }

  // ---------------------------------------------------------------------------
  // The reference: which attempt succeeds, read off the outcomes alone
  // ---------------------------------------------------------------------------

  /** Attempt `j` got a 200 whose parsing raised. */
  predicate RaisesAt(env: nat -> Attempt, j: nat) {
    var o := env(j).outcome;
    o.Response? && o.status == 200 && o.page.ExtractionRaised?
  }

  /** Some attempt before `k` got a 200 whose parsing raised: its error is never cleared. */
  predicate Poisoned(env: nat -> Attempt, k: nat) {
    k > 0 && (RaisesAt(env, k - 1) || Poisoned(env, k - 1))
  }

  /** Attempt `k` succeeds: a 200 whose page has a key field, and no earlier parsing error. */
  predicate SucceedsAt(env: nat -> Attempt, k: nat) {
    var o := env(k).outcome;
    o.Response? && o.status == 200 && o.page.Extracted? && HasKeyField(o.page.fields) && !Poisoned(env, k)
  }

  /** The first succeeding attempt from `k` up to `maxRetries`, if any. */
  function FirstSuccess(env: nat -> Attempt, k: nat, maxRetries: nat): (j: Option<nat>)
    ensures j.Some? ==> k <= j.value <= maxRetries && SucceedsAt(env, j.value)
    ensures j.Some? ==> forall i :: k <= i < j.value ==> !SucceedsAt(env, i)
    ensures j.None? ==> forall i :: k <= i <= maxRetries ==> !SucceedsAt(env, i)
    decreases maxRetries + 1 - k
  {
    if k > maxRetries then None
    else if SucceedsAt(env, k) then Some(k)
    else FirstSuccess(env, k + 1, maxRetries)
  }

  /** The last attempt made from `k` on: the first success, or the last allowed one. */
  function LastAttempt(env: nat -> Attempt, k: nat, maxRetries: nat): nat {
    match FirstSuccess(env, k, maxRetries)
    case Some(j) => j
    case None => maxRetries
  }

  /** What the result holds before attempt `k`. */
  ghost predicate ResultBefore(r: ParseResult, url: string, batchNumber: int, env: nat -> Attempt, k: nat) {
    r.url == url && r.batchNumber == batchNumber
    && (r.error.None? <==> !Poisoned(env, k))
    && (r.error.Some? ==> Truthy(r.error))
  }

  /** One attempt ends the loop exactly when the reference says it succeeds. */
  lemma StepSucceeds(url: string, k: nat, env: nat -> Attempt, r: ParseResult, e: Engine, batchNumber: int)
    requires ResultBefore(r, url, batchNumber, env, k)
    ensures var s := Step(url, k, env(k), r, e);
      && (s.done <==> SucceedsAt(env, k))
      && (s.done ==> IsSuccessful(s.result) && s.result.attemptCount == k + 1 && s.result.error.None?
                     && s.result.fields == env(k).outcome.page.fields
                     && s.result.parseTime == env(k).outcome.elapsed)
      && (!s.done ==> ResultBefore(s.result, url, batchNumber, env, k + 1)
                      && s.result.fields == FieldsLeft(env(k).outcome, r.fields)
                      && s.result.parseTime == ParseTimeLeft(env(k).outcome, r.parseTime))
  {
  }

  /** The fields after an outcome: a 200 page that was extracted replaces them. */
  function FieldsLeft(o: Outcome, f: Fields): Fields {
    if o.Response? && o.status == 200 && o.page.Extracted? then o.page.fields else f
  }

  /** The parse time after an outcome: any 200 response sets it. */
  function ParseTimeLeft(o: Outcome, t: real): real {
    if o.Response? && o.status == 200 then o.elapsed else t
  }

  /**
   * The result from attempt `k` on, read off the outcomes alone: the first
   * succeeding attempt with its page, or, after attempt `maxRetries`, the
   * failure message with what the last 200 responses left in `f` and `t`.
   */
  function ResultFrom(url: string, batchNumber: int, maxRetries: nat, env: nat -> Attempt,
                      k: nat, f: Fields, t: real): ParseResult
    decreases maxRetries + 1 - k
  {
    if k > maxRetries then ParseResult(url, f, Some(FailedMessage(maxRetries)), t, maxRetries + 1, batchNumber)
    else if SucceedsAt(env, k) then
      ParseResult(url, env(k).outcome.page.fields, None, env(k).outcome.elapsed, k + 1, batchNumber)
    else ResultFrom(url, batchNumber, maxRetries, env, k + 1, FieldsLeft(env(k).outcome, f), ParseTimeLeft(env(k).outcome, t))
  }

  /** The result of `parse_single_url` for a URL, whatever the engine. */
  function UrlResult(url: string, batchNumber: int, maxRetries: nat, env: nat -> Attempt): ParseResult {
    ResultFrom(url, batchNumber, maxRetries, env, 0, NoFields, 0.0)
  }

  /** The loop from attempt `k` ends with the result the outcomes dictate; the engine plays no part. */
  lemma {:induction false} RunResult(url: string, maxRetries: nat, k: nat, env: nat -> Attempt,
                                     r: ParseResult, e: Engine, batchNumber: int)
    requires k <= maxRetries + 1 && ResultBefore(r, url, batchNumber, env, k)
    ensures Run(url, maxRetries, k, env, r, e).0 == ResultFrom(url, batchNumber, maxRetries, env, k, r.fields, r.parseTime)
    decreases maxRetries + 1 - k
  {
    if k <= maxRetries {
      StepSucceeds(url, k, env, r, e, batchNumber);
      var s := Step(url, k, env(k), r, e);
      if !s.done {
        RunResult(url, maxRetries, k + 1, env, s.result, s.engine, batchNumber);
      }
    }
  }

  /**
   * `parse_single_url` succeeds exactly when some attempt up to `maxRetries`
   * succeeds; then it reports that attempt, otherwise the failure message and
   * `maxRetries + 1` attempts. So 1 <= attempt count <= maxRetries + 1.
   */
  lemma ParseSingleResult(url: string, batchNumber: int, maxRetries: nat, env: nat -> Attempt, e: Engine)
    ensures var res := ParseSingle(url, batchNumber, maxRetries, env, e).0;
      && res == UrlResult(url, batchNumber, maxRetries, env)
      && res.url == url && res.batchNumber == batchNumber
      && 1 <= res.attemptCount <= maxRetries + 1
      && res.attemptCount == LastAttempt(env, 0, maxRetries) + 1
      && (IsSuccessful(res) <==> FirstSuccess(env, 0, maxRetries).Some?)
      && (!IsSuccessful(res) ==> res.error == Some(FailedMessage(maxRetries)))
  {
    RunResult(url, maxRetries, 0, env, NewResult(url, batchNumber), e, batchNumber);
    UrlResultFacts(url, batchNumber, maxRetries, env);
  }

  /** The reference result reports the first succeeding attempt from `k` on, or the failure after the last one. */
  lemma {:induction false} ResultFromFacts(url: string, batchNumber: int, maxRetries: nat, env: nat -> Attempt,
                                           k: nat, f: Fields, t: real)
    requires k <= maxRetries + 1
    ensures var res := ResultFrom(url, batchNumber, maxRetries, env, k, f, t);
      && res.url == url && res.batchNumber == batchNumber
      && res.attemptCount == LastAttempt(env, k, maxRetries) + 1
      && (FirstSuccess(env, k, maxRetries).Some? ==>
            var o := env(FirstSuccess(env, k, maxRetries).value).outcome;
            res.error == None && res.fields == o.page.fields && res.parseTime == o.elapsed)
      && (FirstSuccess(env, k, maxRetries).None? ==> res.error == Some(FailedMessage(maxRetries)))
    decreases maxRetries + 1 - k
  {
    if k <= maxRetries && !SucceedsAt(env, k) {
      ResultFromFacts(url, batchNumber, maxRetries, env, k + 1, FieldsLeft(env(k).outcome, f), ParseTimeLeft(env(k).outcome, t));
    }
  }

  lemma UrlResultFacts(url: string, batchNumber: int, maxRetries: nat, env: nat -> Attempt)
    ensures var res := UrlResult(url, batchNumber, maxRetries, env);
      && res.url == url && res.batchNumber == batchNumber
      && 1 <= res.attemptCount <= maxRetries + 1
      && res.attemptCount == LastAttempt(env, 0, maxRetries) + 1
      && (IsSuccessful(res) <==> FirstSuccess(env, 0, maxRetries).Some?)
      && (!IsSuccessful(res) ==> res.error == Some(FailedMessage(maxRetries)))
  {
    ResultFromFacts(url, batchNumber, maxRetries, env, 0, NoFields, 0.0);
    FailedMessageNonEmpty(maxRetries);
  }

  lemma FailedMessageNonEmpty(maxRetries: nat)
    ensures FailedMessage(maxRetries) != ""
  {
    assert FailedMessage(maxRetries)[0] == 'F';
  }

  /**
   * The parsing error is sticky: once a 200 page failed to parse, no later
   * attempt can succeed, and the URL fails after all its attempts.
   */
  lemma ParsingErrorIsSticky(url: string, batchNumber: int, maxRetries: nat, env: nat -> Attempt, j: nat)
    requires RaisesAt(env, j) && forall i :: 0 <= i < j ==> !SucceedsAt(env, i)
    ensures !IsSuccessful(UrlResult(url, batchNumber, maxRetries, env))
    ensures UrlResult(url, batchNumber, maxRetries, env).attemptCount == maxRetries + 1
  {
    forall i | j < i
      ensures Poisoned(env, i)
    {
      PoisonedLater(env, j + 1, i);
    }
    UrlResultFacts(url, batchNumber, maxRetries, env);
  }

  lemma {:induction false} PoisonedLater(env: nat -> Attempt, k: nat, i: nat)
    requires Poisoned(env, k) && k <= i
    ensures Poisoned(env, i)
    decreases i - k
  {
    if k < i {
      PoisonedLater(env, k, i - 1);
    }
  }

  // ---------------------------------------------------------------------------
  // The limiter calls
  // ---------------------------------------------------------------------------

  /**
   * The calls attempt `k` makes on the limiter: the gate, then `record_success`
   * when it succeeds, `record_failure` on a 429, a timeout or a network error,
   * and nothing else.
   */
  function AttemptCalls(env: nat -> Attempt, k: nat): seq<LimiterCall> {
    [Wait(env(k).now)]
    + (if SucceedsAt(env, k) then [Success] else if FailureSignal(env(k).outcome) then [Failure] else [])
  }

  /** The calls from attempt `k` on, closed by the extra `record_failure` when every attempt failed. */
  function RunCalls(env: nat -> Attempt, k: nat, maxRetries: nat): seq<LimiterCall>
    decreases maxRetries + 1 - k
  {
    if k > maxRetries then [Failure]
    else AttemptCalls(env, k) + (if SucceedsAt(env, k) then [] else RunCalls(env, k + 1, maxRetries))
  }

  lemma StepLimiter(url: string, k: nat, env: nat -> Attempt, r: ParseResult, e: Engine, batchNumber: int)
    requires ResultBefore(r, url, batchNumber, env, k)
    ensures Step(url, k, env(k), r, e).engine.limiter == ApplyCalls(e.limiter, AttemptCalls(env, k))
  {
    StepSucceeds(url, k, env, r, e, batchNumber);
    var gated := Gate(e.limiter, env(k).now).1;
    var calls := AttemptCalls(env, k);
    assert ApplyCalls(e.limiter, calls[..1]) == gated by {
      assert calls[..1][1..] == [];
    }
    assert ApplyCalls(gated, calls[1..]) == Step(url, k, env(k), r, e).engine.limiter by {
      if |calls| == 2 {
        assert calls[1..][1..] == [];
      }
    }
    ApplyCallsAppend(e.limiter, calls[..1], calls[1..]);
    assert calls[..1] + calls[1..] == calls;
  }

  /** The limiter after the loop is the limiter before it with the reference calls applied. */
  lemma {:induction false} RunLimiter(url: string, maxRetries: nat, k: nat, env: nat -> Attempt,
                                      r: ParseResult, e: Engine, batchNumber: int)
    requires k <= maxRetries + 1 && ResultBefore(r, url, batchNumber, env, k)
    ensures Run(url, maxRetries, k, env, r, e).1.limiter == ApplyCalls(e.limiter, RunCalls(env, k, maxRetries))
    decreases maxRetries + 1 - k
  {
    if k == maxRetries + 1 {
      assert [Failure][1..] == [];
    } else {
      StepLimiter(url, k, env, r, e, batchNumber);
      StepSucceeds(url, k, env, r, e, batchNumber);
      var s := Step(url, k, env(k), r, e);
      assert Run(url, maxRetries, k, env, r, e)
             == if s.done then (s.result, s.engine) else Run(url, maxRetries, k + 1, env, s.result, s.engine);
      if s.done {
        assert RunCalls(env, k, maxRetries) == AttemptCalls(env, k) + [] == AttemptCalls(env, k);
      } else {
        RunLimiter(url, maxRetries, k + 1, env, s.result, s.engine, batchNumber);
        ApplyCallsAppend(e.limiter, AttemptCalls(env, k), RunCalls(env, k + 1, maxRetries));
      }
    }
  }

  /** The limiter after attempt `k`: the gate, then a success or a failure recorded as `AttemptCalls` says. */
  function AfterAttempt(s: LimiterState, env: nat -> Attempt, k: nat): LimiterState {
    var gated := Gate(s, env(k).now).1;
    if SucceedsAt(env, k) then AfterSuccess(gated)
    else if FailureSignal(env(k).outcome) then AfterFailure(gated)
    else gated
  }

  /** The limiter after the loop from attempt `k` on, attempt by attempt. */
  function LimiterRun(s: LimiterState, env: nat -> Attempt, k: nat, maxRetries: nat): LimiterState
    decreases maxRetries + 1 - k
  {
    if k > maxRetries then AfterFailure(s)
    else if SucceedsAt(env, k) then AfterAttempt(s, env, k)
    else LimiterRun(AfterAttempt(s, env, k), env, k + 1, maxRetries)
  }

  lemma AfterAttemptCalls(s: LimiterState, env: nat -> Attempt, k: nat)
    ensures AfterAttempt(s, env, k) == ApplyCalls(s, AttemptCalls(env, k))
  {
    var calls := AttemptCalls(env, k);
    var gated := Gate(s, env(k).now).1;
    assert ApplyCalls(s, calls[..1]) == gated by {
      assert calls[..1][1..] == [];
    }
    assert ApplyCalls(gated, calls[1..]) == AfterAttempt(s, env, k) by {
      if |calls| == 2 {
        assert calls[1..][1..] == [];
      }
    }
    ApplyCallsAppend(s, calls[..1], calls[1..]);
    assert calls[..1] + calls[1..] == calls;
  }

  /** Attempt by attempt or call by call, the limiter ends in the same state. */
  lemma {:induction false} LimiterRunCalls(s: LimiterState, env: nat -> Attempt, k: nat, maxRetries: nat)
    ensures LimiterRun(s, env, k, maxRetries) == ApplyCalls(s, RunCalls(env, k, maxRetries))
    decreases maxRetries + 1 - k
  {
    if k > maxRetries {
      assert [Failure][1..] == [];
    } else {
      AfterAttemptCalls(s, env, k);
      if SucceedsAt(env, k) {
        assert RunCalls(env, k, maxRetries) == AttemptCalls(env, k) + [] == AttemptCalls(env, k);
      } else {
        LimiterRunCalls(AfterAttempt(s, env, k), env, k + 1, maxRetries);
        ApplyCallsAppend(s, AttemptCalls(env, k), RunCalls(env, k + 1, maxRetries));
      }
    }
  }

  function CountSuccesses(calls: seq<LimiterCall>): nat {
    if calls == [] then 0 else (if calls[0].Success? then 1 else 0) + CountSuccesses(calls[1..])
  }

  lemma {:induction false} CountSuccessesAppend(a: seq<LimiterCall>, b: seq<LimiterCall>)
    ensures CountSuccesses(a + b) == CountSuccesses(a) + CountSuccesses(b)
    decreases |a|
  {
    if a == [] {
      assert a + b == b;
    } else {
      assert (a + b)[1..] == a[1..] + b;
      CountSuccessesAppend(a[1..], b);
    }
  }

  lemma AttemptCallsCount(env: nat -> Attempt, k: nat)
    ensures CountSuccesses(AttemptCalls(env, k)) == if SucceedsAt(env, k) then 1 else 0
    ensures CountFailures(AttemptCalls(env, k)) == if FailureSignal(env(k).outcome) then 1 else 0
  {
    var w := Wait(env(k).now);
    if SucceedsAt(env, k) {
      assert AttemptCalls(env, k) == [w, Success] && [w, Success][1..] == [Success] && [Success][1..] == [];
    } else if FailureSignal(env(k).outcome) {
      assert AttemptCalls(env, k) == [w, Failure] && [w, Failure][1..] == [Failure] && [Failure][1..] == [];
    } else {
      assert AttemptCalls(env, k) == [w];
    }
  }

  /** How many of the attempts `k..last` got a 429, a timeout or a network error. */
  function FailureSignals(env: nat -> Attempt, k: nat, last: nat): nat
    decreases last + 1 - k
  {
    if k > last then 0 else (if FailureSignal(env(k).outcome) then 1 else 0) + FailureSignals(env, k + 1, last)
  }

  /**
   * `record_success` is called once when some attempt succeeds and never
   * otherwise; `record_failure` once per 429, timeout or network error, plus
   * once more when every attempt failed.
   */
  lemma {:induction false} RunCallsCount(env: nat -> Attempt, k: nat, maxRetries: nat)
    requires k <= maxRetries + 1
    ensures CountSuccesses(RunCalls(env, k, maxRetries)) == if FirstSuccess(env, k, maxRetries).Some? then 1 else 0
    ensures CountFailures(RunCalls(env, k, maxRetries))
            == FailureSignals(env, k, LastAttempt(env, k, maxRetries))
               + (if FirstSuccess(env, k, maxRetries).None? then 1 else 0)
    decreases maxRetries + 1 - k
  {
    var calls := RunCalls(env, k, maxRetries);
    if k == maxRetries + 1 {
      assert [Failure][1..] == [];
    } else {
      var head := AttemptCalls(env, k);
      AttemptCallsCount(env, k);
      ApplyCallsAppend(InitialLimiter, head, calls[|head|..]);
      CountSuccessesAppend(head, calls[|head|..]);
      assert head + calls[|head|..] == calls;
      if SucceedsAt(env, k) {
        assert calls[|head|..] == [];
        assert FailureSignals(env, k + 1, k) == 0;
      } else {
        RunCallsCount(env, k + 1, maxRetries);
      }
    }
  }

  /**
   * Over the whole loop the delay stays within its bounds, and the failure
   * count grows by the failure signals seen plus one when every attempt failed.
   */
  lemma ParseSingleLimiter(url: string, batchNumber: int, maxRetries: nat, env: nat -> Attempt, e: Engine)
    requires Bounded(e.limiter)
    ensures var e' := ParseSingle(url, batchNumber, maxRetries, env, e).1;
      && e'.limiter == ApplyCalls(e.limiter, RunCalls(env, 0, maxRetries))
      && e'.limiter == LimiterRun(e.limiter, env, 0, maxRetries)
      && Bounded(e'.limiter)
      && e'.limiter.failureCount
         == e.limiter.failureCount + FailureSignals(env, 0, LastAttempt(env, 0, maxRetries))
            + (if FirstSuccess(env, 0, maxRetries).None? then 1 else 0)
  {
    RunLimiter(url, maxRetries, 0, env, NewResult(url, batchNumber), e, batchNumber);
    LimiterRunCalls(e.limiter, env, 0, maxRetries);
    CallsKeepBounds(e.limiter, RunCalls(env, 0, maxRetries));
    RunCallsCount(env, 0, maxRetries);
  }

  // ---------------------------------------------------------------------------
  // The statistics
  // ---------------------------------------------------------------------------

  /** How many of the attempts `k..last` are retries (have an index above 0). */
  function Retries(k: nat, last: nat): nat {
    if last < k then 0 else if k == 0 then last else last - k + 1
  }

  /**
   * The loop adds one retry per attempt after the first, and one success or
   * one failure; the other statistics are untouched.
   */
  lemma {:induction false} RunStats(url: string, maxRetries: nat, k: nat, env: nat -> Attempt,
                                    r: ParseResult, e: Engine, batchNumber: int)
    requires k <= maxRetries + 1 && ResultBefore(r, url, batchNumber, env, k)
    ensures var succeeded := FirstSuccess(env, k, maxRetries).Some?;
      Run(url, maxRetries, k, env, r, e).1.stats
      == e.stats.(successfulParses := e.stats.successfulParses + (if succeeded then 1 else 0),
                  failedParses := e.stats.failedParses + (if succeeded then 0 else 1),
                  totalRetries := e.stats.totalRetries + Retries(k, LastAttempt(env, k, maxRetries)))
    decreases maxRetries + 1 - k
  {
    if k <= maxRetries {
      StepSucceeds(url, k, env, r, e, batchNumber);
      var s := Step(url, k, env(k), r, e);
      if !s.done {
        RunStats(url, maxRetries, k + 1, env, s.result, s.engine, batchNumber);
      }
    }
  }

  /** Over `parse_single_url`: the retries added are the attempts made minus one. */
  lemma ParseSingleStats(url: string, batchNumber: int, maxRetries: nat, env: nat -> Attempt, e: Engine)
    ensures var p := ParseSingle(url, batchNumber, maxRetries, env, e); var res := p.0; var e' := p.1;
      && e'.stats.totalRetries == e.stats.totalRetries + res.attemptCount - 1
      && (IsSuccessful(res) ==> e'.stats == e.stats.(successfulParses := e.stats.successfulParses + 1,
                                                     totalRetries := e'.stats.totalRetries))
      && (!IsSuccessful(res) ==> e'.stats == e.stats.(failedParses := e.stats.failedParses + 1,
                                                      totalRetries := e'.stats.totalRetries))
  {
    RunStats(url, maxRetries, 0, env, NewResult(url, batchNumber), e, batchNumber);
    ParseSingleResult(url, batchNumber, maxRetries, env, e);
  }

  // ---------------------------------------------------------------------------
  // The trace
  // ---------------------------------------------------------------------------

  /** The kinds of events, in the order one attempt produces them. */
  datatype EventKind = GateKind | BackoffKind | FetchKind | AfterFetchKind | PauseKind | ProgressKind

  function KindOf(ev: Event): EventKind {
    match ev
    case Sleep(reason, _) =>
      (match reason
       case GateWait => GateKind
       case Backoff => BackoffKind
       case BatchPause => PauseKind
       case _ => AfterFetchKind)
    case Fetch(_) => FetchKind
    case Progress(_, _, _) => ProgressKind
  }

  function Rank(k: EventKind): nat {
    match k
    case GateKind => 0
    case BackoffKind => 1
    case FetchKind => 2
    case AfterFetchKind => 3
    case PauseKind => 4
    case ProgressKind => 5
  }

  function CountKind(evs: seq<Event>, k: EventKind): nat {
    if evs == [] then 0 else (if KindOf(evs[0]) == k then 1 else 0) + CountKind(evs[1..], k)
  }

  lemma {:induction false} CountKindAppend(a: seq<Event>, b: seq<Event>, k: EventKind)
    ensures CountKind(a + b, k) == CountKind(a, k) + CountKind(b, k)
    decreases |a|
  {
    if a == [] {
      assert a + b == b;
    } else {
      assert (a + b)[1..] == a[1..] + b;
      CountKindAppend(a[1..], b, k);
    }
  }

  /** The events appear in the order of their kinds. */
  predicate InKindOrder(evs: seq<Event>) {
    forall i, j :: 0 <= i < j < |evs| ==> Rank(KindOf(evs[i])) <= Rank(KindOf(evs[j]))
  }

  /** Sequences of at most one event. */
  predicate AtMostOne(evs: seq<Event>, k: EventKind) {
    |evs| <= 1 && forall i :: 0 <= i < |evs| ==> KindOf(evs[i]) == k
  }

  lemma {:induction false} CountAtMostOne(evs: seq<Event>, k: EventKind, other: EventKind)
    requires AtMostOne(evs, k) && other != k
    ensures CountKind(evs, k) == |evs| && CountKind(evs, other) == 0
  {
    if evs != [] {
      assert evs[1..] == [];
    }
  }

  /** One attempt appends the gate sleep, the backoff sleep, the request and the outcome's sleep. */
  lemma StepTraceParts(url: string, k: nat, a: Attempt, r: ParseResult, e: Engine)
    ensures Step(url, k, a, r, e).engine.trace
            == e.trace + (GateSleep(Gate(e.limiter, a.now).0) + BackoffSleep(k, a.jitter) + [Fetch(url)] + OutcomeSleep(a.outcome))
  {
  }

  /** Events of the four parts of an attempt come in the order of their kinds, one request each time. */
  lemma {:induction false} AttemptEvents(g: seq<Event>, b: seq<Event>, f: seq<Event>, o: seq<Event>)
    requires AtMostOne(g, GateKind) && AtMostOne(b, BackoffKind) && |f| == 1 && AtMostOne(f, FetchKind)
    requires forall i :: 0 <= i < |o| ==> KindOf(o[i]) == AfterFetchKind
    ensures var evs := g + b + f + o;
      && InKindOrder(evs)
      && CountKind(evs, GateKind) == |g| && CountKind(evs, BackoffKind) == |b| && CountKind(evs, FetchKind) == 1
      && CountKind(evs, PauseKind) == 0 && CountKind(evs, ProgressKind) == 0
  {
    var evs := g + b + f + o;
    forall kind | kind != AfterFetchKind
      ensures CountKind(evs, kind) == CountKind(g, kind) + CountKind(b, kind) + CountKind(f, kind)
    {
      CountKindAppend(g + b + f, o, kind);
      CountKindAppend(g + b, f, kind);
      CountKindAppend(g, b, kind);
      CountNone(o, kind);
    }
    CountAtMostOne(g, GateKind, BackoffKind);
    CountAtMostOne(g, GateKind, FetchKind);
    CountAtMostOne(g, GateKind, PauseKind);
    CountAtMostOne(g, GateKind, ProgressKind);
    CountAtMostOne(b, BackoffKind, GateKind);
    CountAtMostOne(b, BackoffKind, FetchKind);
    CountAtMostOne(b, BackoffKind, PauseKind);
    CountAtMostOne(b, BackoffKind, ProgressKind);
    CountAtMostOne(f, FetchKind, GateKind);
    CountAtMostOne(f, FetchKind, BackoffKind);
    CountAtMostOne(f, FetchKind, PauseKind);
    CountAtMostOne(f, FetchKind, ProgressKind);
  }

  lemma {:induction false} CountNone(evs: seq<Event>, k: EventKind)
    requires forall i :: 0 <= i < |evs| ==> KindOf(evs[i]) != k
    ensures CountKind(evs, k) == 0
    decreases |evs|
  {
    if evs != [] {
      CountNone(evs[1..], k);
    }
  }

  /** What one attempt appends to the trace: the gate sleep, the backoff sleep, the request, the outcome's sleep, in that order. */
  lemma StepTrace(url: string, k: nat, a: Attempt, r: ParseResult, e: Engine)
    ensures var t := Step(url, k, a, r, e).engine.trace;
      && e.trace <= t
      && var evs := t[|e.trace|..];
      && InKindOrder(evs)
      && CountKind(evs, GateKind) <= 1
      && CountKind(evs, BackoffKind) == (if k > 0 then 1 else 0)
      && CountKind(evs, FetchKind) == 1
      && CountKind(evs, PauseKind) == 0 && CountKind(evs, ProgressKind) == 0
  {
    StepTraceParts(url, k, a, r, e);
    var g := GateSleep(Gate(e.limiter, a.now).0);
    var b := BackoffSleep(k, a.jitter);
    var o := OutcomeSleep(a.outcome);
    var t := Step(url, k, a, r, e).engine.trace;
    assert t[|e.trace|..] == g + b + [Fetch(url)] + o;
    AttemptEvents(g, b, [Fetch(url)], o);
  }

  /**
   * The loop appends one request per attempt it makes, one backoff sleep per
   * retry, and no batch pause or progress report.
   */
  lemma {:induction false} RunTrace(url: string, maxRetries: nat, k: nat, env: nat -> Attempt,
                                    r: ParseResult, e: Engine, batchNumber: int)
    requires k <= maxRetries + 1 && ResultBefore(r, url, batchNumber, env, k)
    ensures var t := Run(url, maxRetries, k, env, r, e).1.trace;
      && e.trace <= t
      && var evs := t[|e.trace|..];
      && CountKind(evs, FetchKind) == LastAttempt(env, k, maxRetries) + 1 - k
      && CountKind(evs, BackoffKind) == Retries(k, LastAttempt(env, k, maxRetries))
      && CountKind(evs, PauseKind) == 0 && CountKind(evs, ProgressKind) == 0
    decreases maxRetries + 1 - k
  {
    if k <= maxRetries {
      StepSucceeds(url, k, env, r, e, batchNumber);
      StepTrace(url, k, env(k), r, e);
      var s := Step(url, k, env(k), r, e);
      if !s.done {
        RunTrace(url, maxRetries, k + 1, env, s.result, s.engine, batchNumber);
        var t := Run(url, maxRetries, k + 1, env, s.result, s.engine).1.trace;
        CountSplit(e.trace, s.engine.trace, t, FetchKind);
        CountSplit(e.trace, s.engine.trace, t, BackoffKind);
        CountSplit(e.trace, s.engine.trace, t, PauseKind);
        CountSplit(e.trace, s.engine.trace, t, ProgressKind);
      }
    }
  }

  /** Counting the events added in two stretches is counting each stretch. */
  lemma CountSplit(t0: seq<Event>, t1: seq<Event>, t2: seq<Event>, kind: EventKind)
    requires t0 <= t1 <= t2
    ensures t0 <= t2
    ensures CountKind(t2[|t0|..], kind) == CountKind(t1[|t0|..], kind) + CountKind(t2[|t1|..], kind)
  {
    assert t2[|t0|..] == t1[|t0|..] + t2[|t1|..];
    CountKindAppend(t1[|t0|..], t2[|t1|..], kind);
  }

  /** Over `parse_single_url`: one request per attempt counted in the result, one backoff per retry. */
  lemma ParseSingleTrace(url: string, batchNumber: int, maxRetries: nat, env: nat -> Attempt, e: Engine)
    ensures var p := ParseSingle(url, batchNumber, maxRetries, env, e); var res := p.0; var e' := p.1;
      && e.trace <= e'.trace
      && var evs := e'.trace[|e.trace|..];
      && CountKind(evs, FetchKind) == res.attemptCount
      && CountKind(evs, BackoffKind) == res.attemptCount - 1
      && CountKind(evs, PauseKind) == 0 && CountKind(evs, ProgressKind) == 0
  {
    RunTrace(url, maxRetries, 0, env, NewResult(url, batchNumber), e, batchNumber);
    ParseSingleResult(url, batchNumber, maxRetries, env, e);
  }

  // ---------------------------------------------------------------------------
  // A scenario
  // ---------------------------------------------------------------------------

  /**
   * With three retries allowed, two 429 responses followed by a good page:
   * the URL succeeds on its third attempt after two retries, and the limiter
   * has recorded two failures and one success.
   */
  lemma TwoRateLimitsThenSuccess(url: string, batchNumber: int, env: nat -> Attempt, e: Engine, f: Fields, elapsed: real)
    requires env(0).outcome.Response? && env(0).outcome.status == 429
    requires env(1).outcome.Response? && env(1).outcome.status == 429
    requires env(2).outcome == Response(200, Extracted(f), elapsed) && HasKeyField(f)
    requires Bounded(e.limiter)
    ensures var p := ParseSingle(url, batchNumber, 3, env, e); var res := p.0; var e' := p.1;
      && IsSuccessful(res) && res.attemptCount == 3 && res.fields == f && res.parseTime == elapsed
      && e'.stats == e.stats.(successfulParses := e.stats.successfulParses + 1,
                              totalRetries := e.stats.totalRetries + 2)
      && e'.limiter.failureCount == e.limiter.failureCount + 2
      && CountSuccesses(RunCalls(env, 0, 3)) == 1
  {
    assert !Poisoned(env, 2) by {
      assert !Poisoned(env, 0);
    }
    assert FirstSuccess(env, 0, 3) == Some(2) by {
      assert !SucceedsAt(env, 0) && !SucceedsAt(env, 1) && SucceedsAt(env, 2);
    }
    assert FailureSignals(env, 0, 2) == 2 by {
      assert FailureSignals(env, 3, 2) == 0;
    }
    ParseSingleResult(url, batchNumber, 3, env, e);
    ParseSingleStats(url, batchNumber, 3, env, e);
    ParseSingleLimiter(url, batchNumber, 3, env, e);
    RunCallsCount(env, 0, 3);
  }
}
