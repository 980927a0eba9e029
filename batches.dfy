/**
 * How `parse_urls_in_batches` cuts the URLs into consecutive batches of
 * `batch_size`, and the reference definitions its loops are proved against:
 * the results of a run of URLs and the bookkeeping each URL and batch adds.
 */
module Batches {
  import opened Wrappers
  import opened Results
  import opened RateLimiting
  import opened Attempts
  import opened Report

  // ---------------------------------------------------------------------------
  // Cutting the URLs into batches
  // ---------------------------------------------------------------------------

  /** `(n + size - 1) // size`: how many batches `n` URLs make. */
  function NumBatches(n: nat, size: nat): nat
    requires size > 0
  {
    (n + size - 1) / size
  }

  /** Where the batch starting at `idx` ends: `urls[idx:idx + size]` stops at the end of the list. */
  function BatchEnd(n: nat, idx: nat, size: nat): nat {
    if idx + size < n then idx + size else n
  }

  /** The batches starting at `idx`, `idx + size`, ... */
  function BatchesOf(urls: seq<string>, size: nat, idx: nat): seq<seq<string>>
    requires size > 0
    decreases |urls| - idx
  {
    if idx >= |urls| then []
    else [urls[idx..BatchEnd(|urls|, idx, size)]] + BatchesOf(urls, size, idx + size)
  }

  function Flatten(chunks: seq<seq<string>>): seq<string> {
    if chunks == [] then [] else chunks[0] + Flatten(chunks[1..])
  }

  /** The batches put back together give the URLs; none is empty and none holds more than `size`. */
  lemma {:induction false} BatchesPartition(urls: seq<string>, size: nat, idx: nat)
    requires size > 0 && idx <= |urls|
    ensures Flatten(BatchesOf(urls, size, idx)) == urls[idx..]
    ensures forall b :: 0 <= b < |BatchesOf(urls, size, idx)| ==> 0 < |BatchesOf(urls, size, idx)[b]| <= size
    decreases |urls| - idx
  {
    var chunks := BatchesOf(urls, size, idx);
    if idx < |urls| {
      var end := BatchEnd(|urls|, idx, size);
      BatchesPartition(urls, size, end);
      assert BatchesOf(urls, size, idx + size) == BatchesOf(urls, size, end);
      assert chunks[1..] == BatchesOf(urls, size, end);
      assert urls[idx..end] + urls[end..] == urls[idx..];
    }
  }

  lemma MulLess(a: int, b: int, size: int)
    requires size > 0 && a * size < b * size
    ensures a < b
  {
  }

  lemma MulSucc(b: int, size: int)
    ensures (b + 1) * size == b * size + size
  {
  }

  /** Integer division is the one quotient that brackets the dividend. */
  lemma DivUnique(x: int, size: int, q: int)
    requires size > 0 && q * size <= x < q * size + size
    ensures x / size == q
  {
    var d := x / size;
    assert d * size + x % size == x;
    MulLess(q, d + 1, size);
    MulLess(d, q + 1, size);
  }

  lemma DivStep(x: nat, size: nat)
    requires size > 0
    ensures (x + size) / size == x / size + 1
  {
    var q := x / size;
    assert q * size + x % size == x;
    DivUnique(x + size, size, q + 1);
  }

  /** There are `ceil(n / size)` batches. */
  lemma {:induction false} BatchesCount(urls: seq<string>, size: nat, idx: nat)
    requires size > 0 && idx <= |urls|
    ensures |BatchesOf(urls, size, idx)| == NumBatches(|urls| - idx, size)
    decreases |urls| - idx
  {
    var rest := |urls| - idx;
    if rest == 0 {
      DivUnique(size - 1, size, 0);
    } else if rest <= size {
      assert BatchesOf(urls, size, idx + size) == [];
      DivUnique(rest + size - 1, size, 1);
    } else {
      BatchesCount(urls, size, idx + size);
      DivStep(rest - size + size - 1, size);
    }
  }

  /** Batch `b` holds `urls[b * size:(b + 1) * size]`. */
  lemma {:induction false} BatchAt(urls: seq<string>, size: nat, idx: nat, b: nat)
    requires size > 0 && b < |BatchesOf(urls, size, idx)|
    ensures idx + b * size < |urls|
    ensures BatchesOf(urls, size, idx)[b] == urls[idx + b * size..BatchEnd(|urls|, idx + b * size, size)]
    decreases b
  {
    if b > 0 {
      BatchAt(urls, size, idx + size, b - 1);
      assert idx + size + (b - 1) * size == idx + b * size;
    }
  }

  /** URLs of the same batch share its number, `idx // size + 1`. */
  lemma BatchNumberOf(idx: nat, i: nat, size: nat)
    requires size > 0 && idx % size == 0 && idx <= i < idx + size
    ensures i / size == idx / size
  {
    var q := idx / size;
    assert q * size + idx % size == idx;
    DivUnique(i, size, q);
  }

  // ---------------------------------------------------------------------------
  // Reference definitions for the loops over URLs
  // ---------------------------------------------------------------------------

  /** The results for the URLs `urls[lo..hi]` in one batch, each read off its own outcomes. */
  function UrlResults(urls: seq<string>, lo: nat, hi: nat, batchNumber: int, maxRetries: nat,
                      env: nat -> nat -> Attempt): seq<ParseResult>
    requires lo <= hi <= |urls|
    decreases hi
  {
    if hi == lo then [] else UrlResults(urls, lo, hi - 1, batchNumber, maxRetries, env)
                             + [UrlResult(urls[hi - 1], batchNumber, maxRetries, env(hi - 1))]
  }

  /** Result `j` of a batch is URL `lo + j`'s. */
  lemma {:induction false} UrlResultsAt(urls: seq<string>, lo: nat, hi: nat, batchNumber: int, maxRetries: nat,
                                        env: nat -> nat -> Attempt)
    requires lo <= hi <= |urls|
    ensures var rs := UrlResults(urls, lo, hi, batchNumber, maxRetries, env);
      |rs| == hi - lo
      && forall j :: 0 <= j < |rs| ==> rs[j] == UrlResult(urls[lo + j], batchNumber, maxRetries, env(lo + j))
    decreases hi
  {
    if hi > lo {
      UrlResultsAt(urls, lo, hi - 1, batchNumber, maxRetries, env);
    }
  }

  /** The statistics `s1` are `s0` with the successes, failures and retries of `rs` added. */
  ghost predicate Tallied(s0: Stats, s1: Stats, rs: seq<ParseResult>) {
    s1 == s0.(successfulParses := s0.successfulParses + |Successful(rs)|,
              failedParses := s0.failedParses + |Failed(rs)|,
              totalRetries := s0.totalRetries + SumAttempts(rs) - |rs|)
  }

  lemma SingleTallies(r: ParseResult)
    ensures |Successful([r])| == (if IsSuccessful(r) then 1 else 0)
    ensures |Failed([r])| == (if IsSuccessful(r) then 0 else 1)
    ensures SumAttempts([r]) == r.attemptCount
  {
    assert [r][1..] == [];
  }

  /** Tallies add up: `rs` then `more` is `rs + more`. */
  lemma TalliedStep(s0: Stats, s1: Stats, s2: Stats, rs: seq<ParseResult>, more: seq<ParseResult>)
    requires Tallied(s0, s1, rs) && Tallied(s1, s2, more)
    ensures Tallied(s0, s2, rs + more)
  {
    TalliesAppend(rs, more);
  }

  /** One URL's statistics are one tally. */
  lemma TalliedOne(s0: Stats, s1: Stats, r: ParseResult)
    requires s1.totalRetries == s0.totalRetries + r.attemptCount - 1
    requires IsSuccessful(r) ==> s1 == s0.(successfulParses := s0.successfulParses + 1, totalRetries := s1.totalRetries)
    requires !IsSuccessful(r) ==> s1 == s0.(failedParses := s0.failedParses + 1, totalRetries := s1.totalRetries)
    ensures Tallied(s0, s1, [r])
  {
    SingleTallies(r);
  }

  /** The events `t` holds past `t0`: one request per attempt and one backoff per retry of `rs`, nothing between batches. */
  ghost predicate RequestsOf(t0: seq<Event>, t: seq<Event>, rs: seq<ParseResult>) {
    t0 <= t
    && CountKind(t[|t0|..], FetchKind) == SumAttempts(rs)
    && CountKind(t[|t0|..], BackoffKind) == SumAttempts(rs) - |rs|
    && CountKind(t[|t0|..], PauseKind) == 0
    && CountKind(t[|t0|..], ProgressKind) == 0
  }

  lemma RequestsStep(t0: seq<Event>, t1: seq<Event>, t2: seq<Event>, rs: seq<ParseResult>, more: seq<ParseResult>)
    requires RequestsOf(t0, t1, rs) && RequestsOf(t1, t2, more)
    ensures RequestsOf(t0, t2, rs + more)
  {
    TalliesAppend(rs, more);
    CountSplit(t0, t1, t2, FetchKind);
    CountSplit(t0, t1, t2, BackoffKind);
    CountSplit(t0, t1, t2, PauseKind);
    CountSplit(t0, t1, t2, ProgressKind);
  }

  lemma RequestsOne(t0: seq<Event>, t1: seq<Event>, r: ParseResult)
    requires t0 <= t1
    requires CountKind(t1[|t0|..], FetchKind) == r.attemptCount
    requires CountKind(t1[|t0|..], BackoffKind) == r.attemptCount - 1
    requires CountKind(t1[|t0|..], PauseKind) == 0 && CountKind(t1[|t0|..], ProgressKind) == 0
    ensures RequestsOf(t0, t1, [r])
  {
    SingleTallies(r);
  }

  lemma RequestsNone(t: seq<Event>)
    ensures RequestsOf(t, t, [])
  {
    assert t[|t|..] == [];
  }

  /**
   * What `parse_single_url` leaves, in the terms the batch loop adds up: the
   * result read off the outcomes, its tallies in the statistics, its requests
   * and backoffs in the trace, and its calls on the limiter.
   */
  lemma ParseSingleAdds(url: string, batchNumber: int, maxRetries: nat, env: nat -> Attempt, e: Engine)
    requires Bounded(e.limiter)
    ensures var p := ParseSingle(url, batchNumber, maxRetries, env, e);
      && p.0 == UrlResult(url, batchNumber, maxRetries, env)
      && Tallied(e.stats, p.1.stats, [p.0])
      && RequestsOf(e.trace, p.1.trace, [p.0])
      && p.1.limiter == LimiterRun(e.limiter, env, 0, maxRetries)
  {
    var p := ParseSingle(url, batchNumber, maxRetries, env, e);
    ParseSingleResult(url, batchNumber, maxRetries, env, e);
    ParseSingleStats(url, batchNumber, maxRetries, env, e);
    ParseSingleTrace(url, batchNumber, maxRetries, env, e);
    ParseSingleLimiter(url, batchNumber, maxRetries, env, e);
    TalliedOne(e.stats, p.1.stats, p.0);
    RequestsOne(e.trace, p.1.trace, p.0);
  }

  // ---------------------------------------------------------------------------
  // Reference definitions for the loop over batches
  // ---------------------------------------------------------------------------

  /** The results for the first `n` URLs: result `i` is URL `i`'s, in batch `i // size + 1`. */
  function AllResults(urls: seq<string>, size: nat, maxRetries: nat, env: nat -> nat -> Attempt, n: nat): seq<ParseResult>
    requires size > 0 && n <= |urls|
    decreases n
  {
    if n == 0 then [] else AllResults(urls, size, maxRetries, env, n - 1)
                           + [UrlResult(urls[n - 1], (n - 1) / size + 1, maxRetries, env(n - 1))]
  }

  lemma {:induction false} AllResultsAt(urls: seq<string>, size: nat, maxRetries: nat, env: nat -> nat -> Attempt, n: nat)
    requires size > 0 && n <= |urls|
    ensures var rs := AllResults(urls, size, maxRetries, env, n);
      |rs| == n && forall i :: 0 <= i < n ==> rs[i] == UrlResult(urls[i], i / size + 1, maxRetries, env(i))
    decreases n
  {
    if n > 0 {
      AllResultsAt(urls, size, maxRetries, env, n - 1);
    }
  }

  /** Batch `b` holds the results of the URLs from `b * size` on, numbered `b + 1`. */
  lemma {:induction false} AllResultsBatch(urls: seq<string>, size: nat, maxRetries: nat, env: nat -> nat -> Attempt,
                                           b: nat, end: nat)
    requires size > 0 && b * size <= end <= b * size + size && end <= |urls|
    ensures AllResults(urls, size, maxRetries, env, end)
            == AllResults(urls, size, maxRetries, env, b * size) + UrlResults(urls, b * size, end, b + 1, maxRetries, env)
    decreases end
  {
    var lo := b * size;
    if end > lo {
      AllResultsBatch(urls, size, maxRetries, env, b, end - 1);
      MulSucc(b, size);
      DivUnique(end - 1, size, b);
      assert AllResults(urls, size, maxRetries, env, end)
             == AllResults(urls, size, maxRetries, env, end - 1) + [UrlResult(urls[end - 1], b + 1, maxRetries, env(end - 1))];
    }
  }

  /** The progress report after a batch, when there is a callback. */
  function ProgressEvents(notify: bool, completed: nat, total: nat, count: nat): (evs: seq<Event>)
    ensures AtMostOne(evs, ProgressKind) && |evs| == (if notify then 1 else 0)
  {
    if notify then [Progress(completed, total, count)] else []
  }

  /** The pause after a batch, unless no URL is left. */
  function PauseEvents(more: bool, pauseTime: real): (evs: seq<Event>)
    ensures AtMostOne(evs, PauseKind) && |evs| == (if more then 1 else 0)
  {
    if more then [Sleep(BatchPause, pauseTime)] else []
  }

  /**
   * The batch starting at `lo = b * size` ends at `end`, is numbered `b + 1`,
   * and appending its results to the earlier ones gives the results for the
   * first `end` URLs.
   */
  lemma AllResultsNext(urls: seq<string>, size: nat, maxRetries: nat, env: nat -> nat -> Attempt,
                       b: nat, lo: nat, end: nat, done: seq<ParseResult>, batch: seq<ParseResult>)
    requires size > 0 && lo == b * size && lo < |urls|
    requires end == if lo + size < |urls| then lo + size else |urls|
    requires done == AllResults(urls, size, maxRetries, env, lo)
    requires batch == UrlResults(urls, lo, end, lo / size + 1, maxRetries, env)
    ensures done + batch == AllResults(urls, size, maxRetries, env, end)
    ensures |done + batch| == end
  {
    DivUnique(lo, size, b);
    AllResultsBatch(urls, size, maxRetries, env, b, end);
    AllResultsAt(urls, size, maxRetries, env, end);
  }

  /**
   * The whole run: the URL count, the batch count and the elapsed time set
   * around the tallies leave the tallies as they were.
   */
  lemma TalliedRun(s0: Stats, s1: Stats, rs: seq<ParseResult>, n: int, batches: int, time: real)
    requires Tallied(s0.(totalUrls := n).(batchesProcessed := s0.(totalUrls := n).batchesProcessed + batches), s1, rs)
    ensures Tallied(WithRun(s0, n, batches, time), s1.(totalTime := time), rs)
  {
  }

  /** The statistics `s` with a run's URL count, total time and `batches` more batches. */
  function WithRun(s: Stats, n: int, batches: int, time: real): (r: Stats)
    ensures r.successfulParses == s.successfulParses && r.failedParses == s.failedParses
    ensures r.totalRetries == s.totalRetries
  {
    s.(totalUrls := n, totalTime := time, batchesProcessed := s.batchesProcessed + batches)
  }

  /** Counting the batch leaves the tallies as they were. */
  lemma TalliedBatch(s0: Stats, s1: Stats, rs: seq<ParseResult>)
    requires Tallied(s0, s1, rs)
    ensures Tallied(s0.(batchesProcessed := s0.batchesProcessed + 1), s1.(batchesProcessed := s1.batchesProcessed + 1), rs)
  {
  }

  /**
   * The events `t` holds past `t0` after `b` batches: one request per attempt
   * and one backoff per retry of `rs`, one progress report per batch when
   * there is a callback, and a pause after every batch but the last.
   */
  ghost predicate BatchEvents(t0: seq<Event>, t: seq<Event>, rs: seq<ParseResult>, b: nat, finished: bool, notify: bool) {
    t0 <= t
    && CountKind(t[|t0|..], FetchKind) == SumAttempts(rs)
    && CountKind(t[|t0|..], BackoffKind) == SumAttempts(rs) - |rs|
    && CountKind(t[|t0|..], PauseKind) + (if finished && b > 0 then 1 else 0) == b
    && CountKind(t[|t0|..], ProgressKind) == (if notify then b else 0)
  }

  lemma BatchEventsNone(t: seq<Event>, finished: bool, notify: bool)
    ensures BatchEvents(t, t, [], 0, finished, notify)
  {
    assert t[|t|..] == [];
  }

  /** A batch adds its requests, then the progress report if there is a callback, then the pause unless it was the last. */
  lemma BatchEventsStep(t0: seq<Event>, t1: seq<Event>, t2: seq<Event>, t3: seq<Event>, rs: seq<ParseResult>,
                        batch: seq<ParseResult>, b: nat, notify: bool, more: bool,
                        completed: nat, total: nat, pauseTime: real)
    requires BatchEvents(t0, t1, rs, b, false, notify) && RequestsOf(t1, t2, batch)
    requires t3 == t2 + ProgressEvents(notify, completed, total, |batch|) + PauseEvents(more, pauseTime)
    ensures BatchEvents(t0, t3, rs + batch, b + 1, !more, notify)
  {
    var tail := ProgressEvents(notify, completed, total, |batch|) + PauseEvents(more, pauseTime);
    assert t3 == t2 + tail;
    TalliesAppend(rs, batch);
    TailCounts(notify, completed, total, |batch|, more, pauseTime);
    TraceSplitTail(t0, t1, t2, tail, FetchKind);
    TraceSplitTail(t0, t1, t2, tail, BackoffKind);
    TraceSplitTail(t0, t1, t2, tail, PauseKind);
    TraceSplitTail(t0, t1, t2, tail, ProgressKind);
  }

  /** The counts past `t0` after `t1`, then `t2`, then `tail`, add up. */
  lemma TraceSplitTail(t0: seq<Event>, t1: seq<Event>, t2: seq<Event>, tail: seq<Event>, kind: EventKind)
    requires t0 <= t1 <= t2
    ensures t0 <= t2 + tail
    ensures CountKind((t2 + tail)[|t0|..], kind)
            == CountKind(t1[|t0|..], kind) + CountKind(t2[|t1|..], kind) + CountKind(tail, kind)
  {
    CountSplit(t0, t1, t2, kind);
    assert (t2 + tail)[|t0|..] == t2[|t0|..] + tail;
    CountKindAppend(t2[|t0|..], tail, kind);
  }

  /** The end of a batch holds one progress report when there is a callback and one pause when URLs are left. */
  lemma TailCounts(notify: bool, completed: nat, total: nat, count: nat, more: bool, pauseTime: real)
    ensures var tail := ProgressEvents(notify, completed, total, count) + PauseEvents(more, pauseTime);
      && CountKind(tail, FetchKind) == 0 && CountKind(tail, BackoffKind) == 0
      && CountKind(tail, PauseKind) == (if more then 1 else 0)
      && CountKind(tail, ProgressKind) == (if notify then 1 else 0)
  {
    var progress := ProgressEvents(notify, completed, total, count);
    var pause := PauseEvents(more, pauseTime);
    CountKindAppend(progress, pause, FetchKind);
    CountKindAppend(progress, pause, BackoffKind);
    CountKindAppend(progress, pause, PauseKind);
    CountKindAppend(progress, pause, ProgressKind);
    CountAtMostOne(progress, ProgressKind, FetchKind);
    CountAtMostOne(progress, ProgressKind, BackoffKind);
    CountAtMostOne(progress, ProgressKind, PauseKind);
    CountAtMostOne(pause, PauseKind, FetchKind);
    CountAtMostOne(pause, PauseKind, BackoffKind);
    CountAtMostOne(pause, PauseKind, ProgressKind);
  }
}
