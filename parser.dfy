/**
 * `UltraReliableParser`: the object that owns the rate limiter, the running
 * statistics and the events it causes, and whose methods run the retry loop
 * for one URL and the batch loop over a list of URLs. What the outside world
 * supplies for every attempt (clock reading, jitter, outcome) comes in as
 * `env`; the URLs of a batch are taken one after another.
 */
module Parser {
  import opened Wrappers
  import opened Results
  import opened RateLimiting
  import opened Attempts
  import opened Report
  import opened Batches

  class UltraReliableParser {
    const batchSize: nat
    const batchPause: real
    const maxConcurrent: int
    const maxRetries: nat
    const rateLimiter: AdaptiveRateLimiter
    var stats: Stats
    /** The sleeps, requests and progress reports so far. */
    var trace: seq<Event>

    /** The state the retry loop changes, as the functional model sees it. */
    ghost function Current(): Engine
      reads this, rateLimiter
    {
      Engine(rateLimiter.State(), stats, trace)
    }

    ghost predicate Valid()
      reads this, rateLimiter
    {
      batchSize > 0 && rateLimiter.Valid()
    }

    constructor(batchSize: nat, batchPause: real, maxConcurrent: int, maxRetries: nat)
      requires batchSize > 0
      ensures Valid()
      ensures this.batchSize == batchSize && this.batchPause == batchPause
      ensures this.maxConcurrent == maxConcurrent && this.maxRetries == maxRetries
      ensures Current() == Engine(InitialLimiter, InitialStats, [])
    {
      this.batchSize := batchSize;
      this.batchPause := batchPause;
      this.maxConcurrent := maxConcurrent;
      this.maxRetries := maxRetries;
      rateLimiter := new AdaptiveRateLimiter();
      stats := InitialStats;
      trace := [];
    }

    /**
     * `parse_single_url`: up to `maxRetries + 1` attempts, each behind the
     * limiter's gate and, from the second on, a backoff; the first attempt
     * whose page yields a key field ends the loop. When none does, the result
     * says how many attempts failed, and the failure is counted and reported
     * to the limiter once more.
     */
    method ParseSingleUrl(url: string, batchNumber: int, env: nat -> Attempt) returns (result: ParseResult)
      requires Valid()
      modifies this, rateLimiter
      ensures Valid()
      ensures result == UrlResult(url, batchNumber, maxRetries, env)
      ensures rateLimiter.State() == LimiterRun(old(rateLimiter.State()), env, 0, maxRetries)
      ensures Tallied(old(stats), stats, [result])
      ensures RequestsOf(old(trace), trace, [result])
    {
      ghost var e0 := Current();
      result := NewResult(url, batchNumber);
      var attempt: nat := 0;
      while attempt <= maxRetries
        invariant Valid()
        invariant attempt <= maxRetries + 1
        invariant Run(url, maxRetries, attempt, env, result, Current()) == ParseSingle(url, batchNumber, maxRetries, env, e0)
        decreases maxRetries + 1 - attempt
      {
        var a := env(attempt);
        ghost var r, e := result, Current();
        BeginAttempt(url, attempt, a);
        var done;
        done, result := HandleOutcome(attempt, a.outcome, result);
        RunStep(url, maxRetries, attempt, env, r, e, StepOutcome(done, result, Current()));
        if done {
          ParseSingleAdds(url, batchNumber, maxRetries, env, e0);
          return;
        }
        attempt := attempt + 1;
      }

      result := result.(error := Some(FailedMessage(maxRetries)), attemptCount := maxRetries + 1);
      stats := stats.(failedParses := stats.failedParses + 1);
      rateLimiter.RecordFailure();
      ParseSingleAdds(url, batchNumber, maxRetries, env, e0);
    }

    /**
     * `parse_urls_in_batches`: the URLs in batches of `batchSize`, numbered
     * from 1; after each batch the count of batches grows, the callback (when
     * `notify`) hears how many URLs are done, and, unless it was the last
     * batch, the parser pauses. The clock reads `startTime` before and
     * `endTime` after.
     */
    method ParseUrlsInBatches(urls: seq<string>, env: nat -> nat -> Attempt, notify: bool, startTime: real, endTime: real)
      returns (results: seq<ParseResult>)
      requires Valid()
      modifies this, rateLimiter
      ensures Valid()
      ensures results == AllResults(urls, batchSize, maxRetries, env, |urls|) && |results| == |urls|
      ensures Tallied(WithRun(old(stats), |urls|, NumBatches(|urls|, batchSize), endTime - startTime), stats, results)
      ensures BatchEvents(old(trace), trace, results, NumBatches(|urls|, batchSize), true, notify)
    {
      stats := stats.(totalUrls := |urls|);
      results := RunBatches(urls, env, notify, old(stats).(totalUrls := |urls|), old(trace));
      TalliedRun(old(stats), stats, results, |urls|, NumBatches(|urls|, batchSize), endTime - startTime);
      stats := stats.(totalTime := endTime - startTime);
    }

    /**
     * The loop over batches, from the first to the one that reaches the end:
     * `NumBatches` batches, whose results, tallies and events it adds.
     */
    method RunBatches(urls: seq<string>, env: nat -> nat -> Attempt, notify: bool, ghost base: Stats, ghost t0: seq<Event>)
      returns (results: seq<ParseResult>)
      requires Valid() && stats == base && trace == t0
      modifies this, rateLimiter
      ensures Valid()
      ensures results == AllResults(urls, batchSize, maxRetries, env, |urls|) && |results| == |urls|
      ensures Tallied(base.(batchesProcessed := base.batchesProcessed + NumBatches(|urls|, batchSize)), stats, results)
      ensures BatchEvents(t0, trace, results, NumBatches(|urls|, batchSize), true, notify)
    {
      results := [];
      var batchIdx: nat := 0;
      ghost var b: nat := 0;
      NoBatchesDone(urls, env, notify, base, t0);
      while batchIdx < |urls|
        invariant BatchesDone(urls, env, notify, batchIdx, b, results, base, t0)
        decreases |urls| - batchIdx
      {
        var batchResults := ProcessBatch(urls, env, notify, batchIdx, b, results, base, t0);
        results := results + batchResults;
        batchIdx := batchIdx + batchSize;
        b := b + 1;
      }
      AllBatchesDone(urls, env, notify, batchIdx, b, results, base, t0);
    }

    /** Before the first batch nothing is done. */
    lemma NoBatchesDone(urls: seq<string>, env: nat -> nat -> Attempt, notify: bool, base: Stats, t0: seq<Event>)
      requires Valid() && stats == base && trace == t0
      ensures BatchesDone(urls, env, notify, 0, 0, [], base, t0)
    {
      BatchEventsNone(trace, false, notify);
    }

    /** Once the index passes the end, all `NumBatches` batches are done and every URL has its result. */
    lemma AllBatchesDone(urls: seq<string>, env: nat -> nat -> Attempt, notify: bool, batchIdx: nat, b: nat,
                         results: seq<ParseResult>, base: Stats, t0: seq<Event>)
      requires BatchesDone(urls, env, notify, batchIdx, b, results, base, t0) && batchIdx >= |urls|
      ensures b == NumBatches(|urls|, batchSize)
      ensures results == AllResults(urls, batchSize, maxRetries, env, |urls|) && |results| == |urls|
      ensures Tallied(base.(batchesProcessed := base.batchesProcessed + NumBatches(|urls|, batchSize)), stats, results)
      ensures BatchEvents(t0, trace, results, NumBatches(|urls|, batchSize), true, notify)
    {
      DivUnique(|urls| + batchSize - 1, batchSize, b);
    }

    /**
     * Where the loop over batches stands once `b` batches, the URLs before
     * `batchIdx`, are done: `results` holds their results in order, the
     * statistics hold their tallies and `b` batches, and the events hold
     * their requests, the progress reports and the pauses between batches.
     */
    ghost predicate BatchesDone(urls: seq<string>, env: nat -> nat -> Attempt, notify: bool, batchIdx: nat, b: nat,
                                results: seq<ParseResult>, base: Stats, t0: seq<Event>)
      reads this, rateLimiter
    {
      && Valid()
      && batchIdx == b * batchSize && batchIdx < |urls| + batchSize
      && |results| == (if batchIdx < |urls| then batchIdx else |urls|)
      && results == AllResults(urls, batchSize, maxRetries, env, |results|)
      && Tallied(base.(batchesProcessed := base.batchesProcessed + b), stats, results)
      && BatchEvents(t0, trace, results, b, batchIdx >= |urls|, notify)
    }

    /**
     * The body of the loop over batches for the batch starting at `batchIdx`:
     * its URLs parsed, the batch counted, the callback told how many URLs are
     * done, and the pause unless no URL is left. `done` are the results so far.
     */
    method ProcessBatch(urls: seq<string>, env: nat -> nat -> Attempt, notify: bool, batchIdx: nat,
                        ghost b: nat, ghost done: seq<ParseResult>, ghost base: Stats, ghost t0: seq<Event>)
      returns (batchResults: seq<ParseResult>)
      requires BatchesDone(urls, env, notify, batchIdx, b, done, base, t0) && batchIdx < |urls|
      modifies this, rateLimiter
      ensures BatchesDone(urls, env, notify, batchIdx + batchSize, b + 1, done + batchResults, base, t0)
    {
      var batchEnd := if batchIdx + batchSize < |urls| then batchIdx + batchSize else |urls|;
      var batchNumber := batchIdx / batchSize + 1;
      ghost var s1, t1 := stats, trace;
      batchResults := ParseBatch(urls, batchIdx, batchEnd, batchNumber, env);
      ghost var t2 := trace;
      AllResultsNext(urls, batchSize, maxRetries, env, b, batchIdx, batchEnd, done, batchResults);
      TalliedStep(base.(batchesProcessed := base.batchesProcessed + b), s1, stats, done, batchResults);
      TalliedBatch(base.(batchesProcessed := base.batchesProcessed + b), stats, done + batchResults);
      stats := stats.(batchesProcessed := stats.batchesProcessed + 1);

      var more := batchIdx + batchSize < |urls|;
      trace := trace + ProgressEvents(notify, batchEnd, |urls|, |batchResults|) + PauseEvents(more, batchPause);
      BatchEventsStep(t0, t1, t2, trace, done, batchResults, b, notify, more, batchEnd, |urls|, batchPause);
      MulSucc(b, batchSize);
    }

    /**
     * One batch: the URLs `urls[lo..hi]` in order, each through the retry
     * loop with the batch's number.
     */
    method ParseBatch(urls: seq<string>, lo: nat, hi: nat, batchNumber: int, env: nat -> nat -> Attempt)
      returns (batchResults: seq<ParseResult>)
      requires Valid() && lo <= hi <= |urls|
      modifies this, rateLimiter
      ensures Valid()
      ensures batchResults == UrlResults(urls, lo, hi, batchNumber, maxRetries, env)
      ensures Tallied(old(stats), stats, batchResults)
      ensures RequestsOf(old(trace), trace, batchResults)
    {
      ghost var s0, t0 := stats, trace;
      batchResults := [];
      RequestsNone(trace);
      var i := lo;
      while i < hi
        invariant Valid() && lo <= i <= hi
        invariant batchResults == UrlResults(urls, lo, i, batchNumber, maxRetries, env)
        invariant Tallied(s0, stats, batchResults)
        invariant RequestsOf(t0, trace, batchResults)
      {
        ghost var s1, t1 := stats, trace;
        var r := ParseSingleUrl(urls[i], batchNumber, env(i));
        TalliedStep(s0, s1, stats, batchResults, [r]);
        RequestsStep(t0, t1, trace, batchResults, [r]);
        batchResults := batchResults + [r];
        i := i + 1;
      }
    }

    /**
     * The start of an attempt: the limiter's gate, then before a retry the
     * backoff sleep and the retry counted, then the request.
     */
    method BeginAttempt(url: string, attempt: nat, a: Attempt)
      requires Valid()
      modifies this, rateLimiter
      ensures Valid()
      ensures Current() == Prepare(url, attempt, a, old(Current()))
    {
      var wait := rateLimiter.WaitBeforeRequest(a.now);
      if wait > 0.0 {
        trace := trace + [Sleep(GateWait, wait)];
      }
      if attempt > 0 {
        var retryDelay := BackoffDelay(attempt, a.jitter);
        trace := trace + [Sleep(Backoff, retryDelay)];
        stats := stats.(totalRetries := stats.totalRetries + 1);
      }
      trace := trace + [Fetch(url)];
    }

    /**
     * The reaction to what the request of attempt `attempt` produced: a 200
     * page is parsed into the result and ends the loop when it yields a key
     * field; a 429, a timeout and a network error are reported to the limiter;
     * a 429, a server error and a network error are followed by a sleep.
     */
    method HandleOutcome(attempt: nat, outcome: Outcome, result: ParseResult) returns (done: bool, next: ParseResult)
      requires Valid()
      modifies this, rateLimiter
      ensures Valid()
      ensures StepOutcome(done, next, Current()) == React(attempt, outcome, result, old(Current()))
    {
      done, next := false, result;
      match outcome {
        case Response(status, page, elapsed) =>
          if status == 200 {
            next := AfterPage(result, page, elapsed, attempt);
            if IsSuccessful(next) {
              rateLimiter.RecordSuccess();
              stats := stats.(successfulParses := stats.successfulParses + 1);
              done := true;
            }
          } else if status == 429 {
            rateLimiter.RecordFailure();
            trace := trace + [Sleep(RateLimited, 5.0)];
          } else if status >= 500 {
            trace := trace + [Sleep(ServerError, 2.0)];
          }
        case TimeoutError =>
          rateLimiter.RecordFailure();
        case ClientError =>
          rateLimiter.RecordFailure();
          trace := trace + [Sleep(NetworkError, 1.0)];
        case OtherError =>
      }
    }
  }
}
