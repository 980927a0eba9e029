/**
 * `generate_report`: the summary, performance, failure and retry figures
 * computed from a list of results and the parser's statistics.
 */
module Report {
  import opened Wrappers
  import opened Results

  datatype Summary = Summary(
    totalUrls: int,
    successful: int,
    failed: int,
    successRate: real,
    retryRate: real,
    averageAttempts: real)

  datatype Performance = Performance(
    totalTime: real,
    urlsPerSecond: real,
    averageParseTime: real,
    batchesProcessed: int)

  datatype Failures = Failures(failedUrls: seq<string>, failureReasons: seq<string>)

  datatype RetryAnalysis = RetryAnalysis(urlsWithRetries: int, totalRetries: int, maxAttempts: int)

  datatype ParseReport = ParseReport(
    summary: Summary,
    performance: Performance,
    failures: Failures,
    retryAnalysis: RetryAnalysis)

  // ---------------------------------------------------------------------------
  // The list comprehensions
  // ---------------------------------------------------------------------------

  /** The successful results, in input order. */
  function Successful(rs: seq<ParseResult>): (s: seq<ParseResult>)
    ensures |s| <= |rs|
  {
    if rs == [] then []
    else (if IsSuccessful(rs[0]) then [rs[0]] else []) + Successful(rs[1..])
  }

  /** The failed results, in input order. */
  function Failed(rs: seq<ParseResult>): (s: seq<ParseResult>)
    ensures |s| <= |rs|
  {
    if rs == [] then []
    else (if IsSuccessful(rs[0]) then [] else [rs[0]]) + Failed(rs[1..])
  }

  /** How many results took more than one attempt. */
  function CountRetried(rs: seq<ParseResult>): (n: nat)
    ensures n <= |rs|
  {
    if rs == [] then 0 else (if rs[0].attemptCount > 1 then 1 else 0) + CountRetried(rs[1..])
  }

  function SumAttempts(rs: seq<ParseResult>): int {
    if rs == [] then 0 else rs[0].attemptCount + SumAttempts(rs[1..])
  }

  function SumParseTimes(rs: seq<ParseResult>): real {
    if rs == [] then 0.0 else rs[0].parseTime + SumParseTimes(rs[1..])
  }

  /** `max(r.attempt_count for r in results)`. */
  function MaxAttempts(rs: seq<ParseResult>): (m: int)
    requires rs != []
    ensures forall r :: r in rs ==> r.attemptCount <= m
    ensures exists r :: r in rs && r.attemptCount == m
  {
    if |rs| == 1 then rs[0].attemptCount
    else
      var rest := MaxAttempts(rs[1..]);
      assert forall r :: r in rs[1..] ==> r in rs;
      if rs[0].attemptCount >= rest then rs[0].attemptCount else rest
  }

  function Urls(rs: seq<ParseResult>): (u: seq<string>)
    ensures |u| == |rs| && forall i :: 0 <= i < |rs| ==> u[i] == rs[i].url
  {
    if rs == [] then [] else [rs[0].url] + Urls(rs[1..])
  }

  /** The errors that carry text, in order. */
  function Reasons(rs: seq<ParseResult>): (reasons: seq<string>)
    ensures |reasons| <= |rs|
    ensures forall m :: m in reasons ==> m != ""
  {
    if rs == [] then []
    else (if Truthy(rs[0].error) then [rs[0].error.value] else []) + Reasons(rs[1..])
  }

  /** `a / b * 100`, or 0 for an empty list. */
  function Percent(a: nat, b: nat): real {
    if b == 0 then 0.0 else (a as real) / (b as real) * 100.0
  }

  // ---------------------------------------------------------------------------
  // generate_report
  // ---------------------------------------------------------------------------

  function GenerateReport(results: seq<ParseResult>, stats: Stats): ParseReport {
    var successful := Successful(results);
    var failed := Failed(results);
    var n := |results|;
    ParseReport(
      Summary(
        n, |successful|, |failed|,
        Percent(|successful|, n),
        Percent(CountRetried(results), n),
        if n == 0 then 0.0 else (SumAttempts(results) as real) / (n as real)),
      Performance(
        stats.totalTime,
        if stats.totalTime > 0.0 then (n as real) / stats.totalTime else 0.0,
        if successful == [] then 0.0 else SumParseTimes(successful) / (|successful| as real),
        stats.batchesProcessed),
      Failures(Urls(failed), Reasons(failed)),
      RetryAnalysis(
        CountRetried(results),
        SumAttempts(results) - n,
        if n == 0 then 0 else MaxAttempts(results)))
  }

  // ---------------------------------------------------------------------------
  // Properties
  // ---------------------------------------------------------------------------

  /** Every result is either successful or failed. */
  lemma {:induction false} SuccessfulPlusFailed(rs: seq<ParseResult>)
    ensures |Successful(rs)| + |Failed(rs)| == |rs|
  {
    if rs != [] {
      SuccessfulPlusFailed(rs[1..]);
    }
  }

  /** The tallies of a concatenation are the sums of the tallies of its parts. */
  lemma {:induction false} TalliesAppend(a: seq<ParseResult>, b: seq<ParseResult>)
    ensures |Successful(a + b)| == |Successful(a)| + |Successful(b)|
    ensures |Failed(a + b)| == |Failed(a)| + |Failed(b)|
    ensures CountRetried(a + b) == CountRetried(a) + CountRetried(b)
    ensures SumAttempts(a + b) == SumAttempts(a) + SumAttempts(b)
    decreases |a|
  {
    if a == [] {
      assert a + b == b;
    } else {
      assert (a + b)[0] == a[0] && (a + b)[1..] == a[1..] + b;
      TalliesAppend(a[1..], b);
    }
  }

  lemma {:induction false} PercentBounds(a: nat, b: nat)
    requires a <= b
    ensures 0.0 <= Percent(a, b) <= 100.0
    ensures b > 0 ==> (Percent(a, b) == 100.0 <==> a == b)
  {
    if b > 0 {
      var q := (a as real) / (b as real);
      assert q * (b as real) == a as real;
      assert (b as real) - q * (b as real) == (1.0 - q) * (b as real);
    }
  }

  /**
   * The summary's counts add up to the total, its rates are percentages, and
   * the retry figures count the URLs that took more than one attempt and the
   * attempts beyond the first.
   */
  lemma ReportConsistent(results: seq<ParseResult>, stats: Stats)
    ensures var report := GenerateReport(results, stats);
      && report.summary.totalUrls == |results|
      && report.summary.successful + report.summary.failed == |results|
      && 0.0 <= report.summary.successRate <= 100.0
      && 0.0 <= report.summary.retryRate <= 100.0
      && report.retryAnalysis.urlsWithRetries == CountRetried(results)
      && report.retryAnalysis.totalRetries == SumAttempts(results) - |results|
      && |report.failures.failedUrls| == report.summary.failed
      && |report.failures.failureReasons| <= report.summary.failed
  {
    SuccessfulPlusFailed(results);
    PercentBounds(|Successful(results)|, |results|);
    PercentBounds(CountRetried(results), |results|);
  }

  /** An empty list gives a report of zeros. */
  lemma EmptyReport(stats: Stats)
    ensures var report := GenerateReport([], stats);
      && report.summary == Summary(0, 0, 0, 0.0, 0.0, 0.0)
      && report.failures == Failures([], [])
      && report.retryAnalysis == RetryAnalysis(0, 0, 0)
      && report.performance.urlsPerSecond == 0.0 && report.performance.averageParseTime == 0.0
  {
  }

  /** The largest attempt count is reached by some result and bounds all of them. */
  lemma MaxAttemptsIsMaximum(results: seq<ParseResult>, stats: Stats)
    requires results != []
    ensures var m := GenerateReport(results, stats).retryAnalysis.maxAttempts;
      && (forall i :: 0 <= i < |results| ==> results[i].attemptCount <= m)
      && exists i :: 0 <= i < |results| && results[i].attemptCount == m
  {
    var m := MaxAttempts(results);
    var r :| r in results && r.attemptCount == m;
    var i :| 0 <= i < |results| && results[i] == r;
  }

  // ---------------------------------------------------------------------------
  // Failed URLs keep the input order
  // ---------------------------------------------------------------------------

  /** The indices of the failed results, ascending. */
  function FailedIndices(rs: seq<ParseResult>, from: nat): seq<nat>
    requires from <= |rs|
    decreases |rs| - from
  {
    if from == |rs| then []
    else (if IsSuccessful(rs[from]) then [] else [from]) + FailedIndices(rs, from + 1)
  }

  predicate StrictlyIncreasing(s: seq<nat>) {
    forall i, j :: 0 <= i < j < |s| ==> s[i] < s[j]
  }

  /** The failed indices from `from` on are ascending and lie in `from..|rs|`. */
  lemma {:induction false} FailedIndicesAscend(rs: seq<ParseResult>, from: nat)
    requires from <= |rs|
    ensures var idx := FailedIndices(rs, from);
      && StrictlyIncreasing(idx)
      && forall j :: 0 <= j < |idx| ==> from <= idx[j] < |rs|
    decreases |rs| - from
  {
    if from < |rs| {
      FailedIndicesAscend(rs, from + 1);
    }
  }

  /** Each failed index picks, in order, the next result of the failed list. */
  lemma {:induction false} FailedIndicesPick(rs: seq<ParseResult>, from: nat)
    requires from <= |rs|
    ensures var idx := FailedIndices(rs, from);
      && |idx| == |Failed(rs[from..])|
      && forall j :: 0 <= j < |idx| ==> 0 <= idx[j] < |rs| && Failed(rs[from..])[j] == rs[idx[j]]
    decreases |rs| - from
  {
    if from < |rs| {
      FailedIndicesPick(rs, from + 1);
      FailedIndicesAscend(rs, from + 1);
      assert rs[from..][1..] == rs[from + 1..];
    }
  }

  /** Every failed result from `from` on has its index in the list. */
  lemma {:induction false} FailedIndicesComplete(rs: seq<ParseResult>, from: nat)
    requires from <= |rs|
    ensures forall i :: from <= i < |rs| && !IsSuccessful(rs[i]) ==> i in FailedIndices(rs, from)
    decreases |rs| - from
  {
    if from < |rs| {
      FailedIndicesComplete(rs, from + 1);
    }
  }

  /** `failed_urls` lists the URLs of the failed results in the order the results came. */
  lemma FailedUrlsInOrder(results: seq<ParseResult>, stats: Stats)
    ensures var urls := GenerateReport(results, stats).failures.failedUrls;
      var idx := FailedIndices(results, 0);
      && |urls| == |idx| && StrictlyIncreasing(idx)
      && (forall j :: 0 <= j < |idx| ==> 0 <= idx[j] < |results| && urls[j] == results[idx[j]].url)
      && (forall j :: 0 <= j < |idx| ==> 0 <= idx[j] < |results| && !IsSuccessful(results[idx[j]]))
      && (forall i :: 0 <= i < |results| && !IsSuccessful(results[i]) ==> i in idx)
  {
    FailedIndicesAscend(results, 0);
    FailedIndicesPick(results, 0);
    FailedIndicesComplete(results, 0);
    assert results[0..] == results;
    var idx := FailedIndices(results, 0);
    forall j | 0 <= j < |idx|
      ensures !IsSuccessful(results[idx[j]])
    {
      FailedAreFailures(results, j);
    }
  }

  /** The indices from `from` on of the results whose error carries text. */
  function ErrorIndices(rs: seq<ParseResult>, from: nat): seq<nat>
    requires from <= |rs|
    decreases |rs| - from
  {
    if from == |rs| then []
    else (if Truthy(rs[from].error) then [from] else []) + ErrorIndices(rs, from + 1)
  }

  /** The error indices from `from` on are ascending and lie in `from..|rs|`. */
  lemma {:induction false} ErrorIndicesAscend(rs: seq<ParseResult>, from: nat)
    requires from <= |rs|
    ensures var idx := ErrorIndices(rs, from);
      && StrictlyIncreasing(idx)
      && forall j :: 0 <= j < |idx| ==> from <= idx[j] < |rs|
    decreases |rs| - from
  {
    if from < |rs| {
      ErrorIndicesAscend(rs, from + 1);
    }
  }

  /** Each error index picks, in order, the next reason. */
  lemma {:induction false} ErrorIndicesPick(rs: seq<ParseResult>, from: nat)
    requires from <= |rs|
    ensures var idx := ErrorIndices(rs, from);
      && |idx| == |Reasons(rs[from..])|
      && forall j :: 0 <= j < |idx| ==>
           0 <= idx[j] < |rs| && Truthy(rs[idx[j]].error) && Reasons(rs[from..])[j] == rs[idx[j]].error.value
    decreases |rs| - from
  {
    if from < |rs| {
      ErrorIndicesPick(rs, from + 1);
      ErrorIndicesAscend(rs, from + 1);
      assert rs[from..][1..] == rs[from + 1..];
    }
  }

  /** Every result from `from` on whose error carries text has its index in the list. */
  lemma {:induction false} ErrorIndicesComplete(rs: seq<ParseResult>, from: nat)
    requires from <= |rs|
    ensures forall i :: from <= i < |rs| && Truthy(rs[i].error) ==> i in ErrorIndices(rs, from)
    decreases |rs| - from
  {
    if from < |rs| {
      ErrorIndicesComplete(rs, from + 1);
    }
  }

  /** Only failed results carry an error with text, so filtering the failures first loses no reason. */
  lemma {:induction false} ReasonsOfFailed(rs: seq<ParseResult>)
    ensures Reasons(Failed(rs)) == Reasons(rs)
  {
    if rs != [] {
      ReasonsOfFailed(rs[1..]);
      var f := Failed(rs);
      if !IsSuccessful(rs[0]) {
        assert f[0] == rs[0] && f[1..] == Failed(rs[1..]);
      } else {
        assert f == Failed(rs[1..]) && !Truthy(rs[0].error);
        assert Reasons(rs) == Reasons(rs[1..]);
      }
    }
  }

  /**
   * The failure reasons are, in input order, the errors with text: one for
   * every failed result whose error is not empty, and nothing else.
   */
  lemma FailureReasonsInOrder(results: seq<ParseResult>, stats: Stats)
    ensures var reasons := GenerateReport(results, stats).failures.failureReasons;
      var idx := ErrorIndices(results, 0);
      && |reasons| == |idx| && StrictlyIncreasing(idx)
      && (forall j :: 0 <= j < |idx| ==>
            0 <= idx[j] < |results| && !IsSuccessful(results[idx[j]])
            && Truthy(results[idx[j]].error) && reasons[j] == results[idx[j]].error.value)
      && (forall i :: 0 <= i < |results| && !IsSuccessful(results[i]) && Truthy(results[i].error) ==> i in idx)
  {
    ReasonsOfFailed(results);
    ErrorIndicesAscend(results, 0);
    ErrorIndicesPick(results, 0);
    ErrorIndicesComplete(results, 0);
    assert results[0..] == results;
  }

  lemma {:induction false} FailedAreFailures(rs: seq<ParseResult>, j: nat)
    requires j < |Failed(rs)|
    ensures !IsSuccessful(Failed(rs)[j])
    decreases |rs|
  {
    if IsSuccessful(rs[0]) {
      FailedAreFailures(rs[1..], j);
    } else if j > 0 {
      FailedAreFailures(rs[1..], j - 1);
    }
  }

  // ---------------------------------------------------------------------------
  // A worked example
  // ---------------------------------------------------------------------------

  /**
   * Three successes after 1, 1 and 2 attempts and one failure after 4: 75%
   * success, 50% of the URLs retried, 2 attempts on average, 4 at most and 4
   * retries in all.
   */
  lemma ThreeSuccessesOneFailure(a: ParseResult, b: ParseResult, c: ParseResult, d: ParseResult, stats: Stats)
    requires IsSuccessful(a) && IsSuccessful(b) && IsSuccessful(c) && !IsSuccessful(d)
    requires a.attemptCount == 1 && b.attemptCount == 1 && c.attemptCount == 2 && d.attemptCount == 4
    ensures var report := GenerateReport([a, b, c, d], stats);
      && report.summary == Summary(4, 3, 1, 75.0, 50.0, 2.0)
      && report.failures.failedUrls == [d.url]
      && report.retryAnalysis == RetryAnalysis(2, 4, 4)
  {
    ThreeSuccessesOneFailureLists(a, b, c, d);
    assert Urls([d]) == [d.url];
    assert MaxAttempts([a, b, c, d]) == 4;
  }

  lemma ThreeSuccessesOneFailureLists(a: ParseResult, b: ParseResult, c: ParseResult, d: ParseResult)
    requires IsSuccessful(a) && IsSuccessful(b) && IsSuccessful(c) && !IsSuccessful(d)
    requires a.attemptCount == 1 && b.attemptCount == 1 && c.attemptCount == 2 && d.attemptCount == 4
    ensures Successful([a, b, c, d]) == [a, b, c] && Failed([a, b, c, d]) == [d]
    ensures CountRetried([a, b, c, d]) == 2 && SumAttempts([a, b, c, d]) == 8
  {
    var rs := [a, b, c, d];
    assert rs[1..] == [b, c, d] && [b, c, d][1..] == [c, d] && [c, d][1..] == [d] && [d][1..] == [];
    assert Successful([d]) == [] && Failed([d]) == [d];
    assert Successful([c, d]) == [c] && Failed([c, d]) == [d];
    assert Successful([b, c, d]) == [b, c] && Failed([b, c, d]) == [d];
    assert CountRetried([d]) == 1 && CountRetried([c, d]) == 2 && CountRetried([b, c, d]) == 2;
    assert SumAttempts([d]) == 4 && SumAttempts([c, d]) == 6 && SumAttempts([b, c, d]) == 7;
}
}
