# film-parser in Dafny

A model of the core of film-parser. The parser fetches film pages in small
batches and pulls box-office fields out of them. It spaces requests with an
adaptive rate limiter and retries a failed URL a bounded number of times.
Afterwards it summarises the run in a report. The model has two halves.

* **The parser object.** `UltraReliableParser` in `parser.dfy` is a class. It
  owns an `AdaptiveRateLimiter` (a class in `rate_limiter.dfy`), the statistics
  record and the trace of observable effects (sleeps, requests, progress
  reports).
  * Its methods `ParseSingleUrl` (the retry loop) and `ParseUrlsInBatches`
    (the batch loop) update these fields in place.
  * Each method is proved against a functional description of the same loop
    (`attempts.dfy`, `batches.dfy`). A reference that reads the result off the
    outcomes alone (`UrlResult`, `AllResults`) pins that description down.
  * The outside world is a parameter `env` giving, for every attempt, the clock
    reading at the gate, the backoff jitter and the outcome of the request.
    The outcome is an HTTP status with the extracted page, a timeout, a
    network error or any other exception.
* **The pure converters** of `film_discovery_and_parse.py` (`converters.dfy`).
  * Fee strings become integers.
  * Russian dates become `YYYY-MM-DD`.
  * Age ratings such as `16+` become numbers.
  * The regular expressions are modelled as greedy matchers. Each is proved
    sound and complete against a declarative description of the pattern, and
    the leftmost match is proved to decide the result.

`results.dfy` holds the per-URL record, its success test and its CSV row.
`report.dfy` holds `generate_report`, and `text.dfy` the character classes and
decimal numerals.

Three facts about the code that the model keeps:

* `record_success` shrinks the delay only while it is above the floor
  (page_parser.py:111-118).
* In each attempt the limiter's gate runs before the retry backoff
  (page_parser.py:219-226).
* The retry rate counts the URLs with more than one attempt
  (page_parser.py:521-553). Three successes after 1, 1 and 2 attempts and one
  failure after 4 therefore give 50%.

Some functions that define the model are described through the lemmas about
them and have no row of their own:
* `Results.IsSuccessful` is `is_successful` (page_parser.py:61-66).
* `RateLimiting.Gate` is `wait_before_request` (page_parser.py:100-109).
* `Attempts.ParseSingle` is `parse_single_url` (page_parser.py:212-283), run
  through `Attempts.Run`.
* `Report.GenerateReport` is `generate_report` (page_parser.py:521-553).
* `Results.NewResult` is the `ParseResult` constructor (page_parser.py:42-59).

## Model

| member | source | states |
|---|---|---|
| Results.SuccessDependsOnKeyFields | page_parser.py:61-66 | success depends only on the error and the four key fields (title, total fees, country, start date) |
| Results.ErrorMeansFailure | page_parser.py:63-64 | a result with a non-empty error is never successful, whatever was extracted |
| Results.ToRow | page_parser.py:68-86 | the row has the fifteen columns of `to_dict`, in its order |
| Results.RowRoundTrip | page_parser.py:68-86 | reading the row back gives the result unchanged: no field is lost or swapped |
| Results.ColumnsDistinct | page_parser.py:70-86 | the column names are pairwise distinct, so the dictionary keeps every entry |
| RateLimiting.FailureEffect | page_parser.py:120-126 | a failure counts itself, clears the success run, and sets the delay to 1.5·delay when that is at most 2.0 and to 2.0 otherwise; the delay never shrinks and stays within [0.1, 2.0] |
| RateLimiting.AfterSuccess | page_parser.py:111-118 | record_success never touches the failure count or the last request time (its effect on the delay and the run is `SuccessEffect`) |
| RateLimiting.AfterFailure | page_parser.py:120-126 | record_failure never touches the last request time (its effect on the counts and the delay is `FailureEffect`) |
| RateLimiting.SuccessEffect | page_parser.py:111-118 | the run restarts exactly on the fourth success with the delay above the floor; then the delay becomes max(0.1, 0.8·delay) and strictly drops, otherwise the delay stays and the count grows by one; bounds are kept |
| RateLimiting.SuccessAtFloor | page_parser.py:116-118 | at the floor a success only counts, it never resets the run |
| RateLimiting.GateSpacing | page_parser.py:100-109 | the wait is non-negative, positive exactly when less than the delay has passed, and the new request time is at least the last one plus the delay and at least now |
| RateLimiting.CallsKeepBounds | page_parser.py:111-126 | after any sequence of gate, success and failure calls the delay is within [0.1, 2.0] and the failure count grew by the number of failures |
| RateLimiting.ApplyCallsAppend | page_parser.py:100-126 | running two call sequences in turn is running their concatenation, and failures add up |
| RateLimiting.FourSuccesses | page_parser.py:111-118 | from a fresh run above the floor, four successes shrink the delay by a fifth (floored) and restart the run |
| RateLimiting.AdaptiveRateLimiter.constructor | page_parser.py:92-98 | the limiter starts at delay 0.1 with ceiling 2.0, no counts and last request time 0 |
| RateLimiting.AdaptiveRateLimiter.WaitBeforeRequest | page_parser.py:100-109 | the sleep and the new state are those of the gate; the delay stays bounded |
| RateLimiting.AdaptiveRateLimiter.RecordSuccess | page_parser.py:111-118 | the fields become `AfterSuccess` of the old ones; the delay stays bounded |
| RateLimiting.AdaptiveRateLimiter.RecordFailure | page_parser.py:120-127 | the fields become `AfterFailure` of the old ones; the delay stays bounded |
| Attempts.BackoffBounds | page_parser.py:222-225 | every retry backoff min(1.5^k + jitter, 8) lies between 1.7 and 8 seconds |
| Attempts.StepSucceeds | page_parser.py:216-275 | an attempt ends the loop exactly when it gets a 200 whose page has a key field and no earlier page raised; then the result holds that page's fields, time and attempt number |
| Attempts.RunResult | page_parser.py:216-283 | the loop's result equals the reference read off the outcomes alone; the limiter, statistics and trace play no part |
| Attempts.ParseSingleResult | page_parser.py:212-283 | the result is the reference; it keeps URL and batch number; 1 ≤ attempts ≤ maxRetries+1, attempts = last attempt made + 1; success iff some attempt succeeds; otherwise the error is "Failed after {maxRetries+1} attempts" |
| Attempts.ResultFromFacts | page_parser.py:232-283 | the reference result carries the first succeeding attempt's page and time, or the failure message with attempt count maxRetries+1 |
| Attempts.UrlResultFacts | page_parser.py:212-283 | the same facts stated on the reference alone |
| Attempts.FailedMessageNonEmpty | page_parser.py:278 | the failure message is non-empty, so a failed URL is never successful |
| Attempts.ParsingErrorIsSticky | page_parser.py:236-305 | once a 200 page raises while extracting, before any success, the URL fails after all maxRetries+1 attempts |
| Attempts.StepLimiter | page_parser.py:216-271 | one attempt applies the gate, then record_success on success or record_failure on a 429, timeout or network error, and nothing else |
| Attempts.RunLimiter | page_parser.py:216-283 | the loop applies to the limiter exactly the calls read off the outcomes, with one extra record_failure when every attempt failed |
| Attempts.LimiterRunCalls | page_parser.py:216-283 | the attempt-by-attempt limiter description equals applying those calls |
| Attempts.AttemptCallsCount | page_parser.py:240-269 | one attempt records a success exactly when it succeeds and a failure exactly on a 429, timeout or network error |
| Attempts.RunCallsCount | page_parser.py:216-283 | over the loop, one success is recorded iff some attempt succeeds; failures recorded = failure signals up to the last attempt, plus one when all failed |
| Attempts.ParseSingleLimiter | page_parser.py:212-283 | after parse_single_url the limiter is bounded and its failure count grew by the failure signals plus the extra failure when all attempts failed |
| Attempts.RunStats | page_parser.py:216-283 | the loop adds one success or one failure and one retry per attempt after the first, and changes no other statistic |
| Attempts.ParseSingleStats | page_parser.py:212-283 | total retries grow by attempts − 1; a success adds one successful parse, a failure one failed parse |
| Attempts.StepTrace | page_parser.py:216-275 | one attempt appends, in order, at most one gate sleep, a backoff exactly on a retry, one request and the outcome's sleep, and no pause or progress report |
| Attempts.StepTraceParts | page_parser.py:219-271 | one attempt appends exactly the gate sleep, the backoff sleep, the request and the outcome's sleep (5 s after 429, 2 s after 5xx, 1 s after a network error) |
| Attempts.AttemptEvents | page_parser.py:219-271 | those four parts come in kind order with one request |
| Attempts.RunTrace | page_parser.py:216-283 | the loop appends one request per attempt made and one backoff per retry |
| Attempts.ParseSingleTrace | page_parser.py:212-283 | requests made = the result's attempt count, backoffs = attempt count − 1 |
| Attempts.TwoRateLimitsThenSuccess | page_parser.py:212-283 | with three retries, two 429s then a good page give success on attempt 3 with that page, two retries counted, two failures and one success recorded on the limiter |
| Report.SuccessfulPlusFailed | page_parser.py:523-531 | every result is counted either successful or failed |
| Report.TalliesAppend | page_parser.py:523-548 | the successful, failed and retried counts and the attempt sum are additive over concatenation |
| Report.PercentBounds | page_parser.py:532-533 | a rate of a part of a whole is within [0, 100], and is 100 exactly when the part is the whole |
| Report.ReportConsistent | page_parser.py:521-553 | total = number of results = successful + failed; both rates in [0, 100]; total retries = attempts − results; one failed URL per failure, at most as many reasons |
| Report.EmptyReport | page_parser.py:532-549 | for no results every count, rate, average and list is zero or empty |
| Report.MaxAttemptsIsMaximum | page_parser.py:549 | max attempts bounds every result's attempt count and is reached by one |
| Report.FailedUrlsInOrder | page_parser.py:523-543 | the failed URLs are exactly those of the failing results, in their input order |
| Report.FailedAreFailures | page_parser.py:524 | every member of the failed list is unsuccessful |
| Report.MaxAttempts | page_parser.py:549 | the maximum bounds every attempt count and is one of them |
| Report.Reasons | page_parser.py:544 | only non-empty errors are listed as reasons, at most one per result |
| Report.ReasonsOfFailed | page_parser.py:524-544 | only failed results carry an error with text, so taking the reasons from the failed list loses none |
| Report.FailureReasonsInOrder | page_parser.py:521-553 | the report's failure reasons are, in input order, exactly the errors with text of the failed results: each such result contributes its error, and nothing else is listed |
| Report.Urls | page_parser.py:543 | the URL list keeps the results' order and length |
| Report.ThreeSuccessesOneFailure | page_parser.py:521-553 | results with attempts 1, 1, 2 and 4, the last failed, give 4/3/1, success rate 75, retry rate 50, average 2.0, one failed URL, and 2 retried, 4 retries, max 4 |
| Report.ThreeSuccessesOneFailureLists | page_parser.py:523-548 | for that example, the successful and failed lists, the retried count and the attempt sum |
| Batches.BatchesPartition | page_parser.py:480-481 | the batches concatenate back to the URLs, and each is non-empty and holds at most batchSize URLs |
| Batches.BatchesCount | page_parser.py:480-483 | there are ceil(n / batchSize) batches |
| Batches.BatchAt | page_parser.py:480-481 | batch b is urls[b·size .. min((b+1)·size, n)] |
| Batches.BatchNumberOf | page_parser.py:482 | every URL of a batch gets that batch's number, index / batchSize + 1 |
| Batches.UrlResultsAt | page_parser.py:495-496 | a batch's results are, in order, each URL's own result with the batch number |
| Batches.AllResultsAt | page_parser.py:480-498 | result i of the run is URL i's result with batch number i / batchSize + 1 |
| Batches.AllResultsBatch | page_parser.py:495-498 | the run's results up to a batch's end are those before it followed by the batch's |
| Batches.AllResultsNext | page_parser.py:495-498 | appending a batch's results extends the run's results to the batch's end |
| Batches.ParseSingleAdds | page_parser.py:212-283 | one URL adds its result to the tallies, its requests and backoffs to the trace, and moves the limiter as the reference says |
| Batches.TalliedStep | page_parser.py:496-499 | tallies over two stretches of results add up |
| Batches.TalliedOne | page_parser.py:226-280 | one URL's statistics change is the tally of its single result |
| Batches.RequestsStep | page_parser.py:495-498 | request and backoff counts over two stretches of trace add up |
| Batches.ProgressEvents | page_parser.py:510-511 | one progress report exactly when a callback is given |
| Batches.PauseEvents | page_parser.py:514-516 | one pause exactly when URLs are left |
| Batches.BatchEventsStep | page_parser.py:495-516 | after one more batch the trace holds one more progress report (with a callback), and one more pause unless it was the last batch |
| Batches.TalliedRun | page_parser.py:475-518 | setting the URL count, batch count and total time keeps the tallies of the run |
| Parser.UltraReliableParser.constructor | page_parser.py:133-162 | the parser keeps its settings, starts with a fresh limiter, zero statistics and no events |
| Parser.UltraReliableParser.ParseSingleUrl | page_parser.py:212-283 | the result is the reference result; the limiter ends as the reference run of limiter calls; the statistics gain the result's tally (success or failure, retries = attempts − 1); the trace gains one request per attempt and one backoff per retry |
| Parser.UltraReliableParser.ParseUrlsInBatches | page_parser.py:470-519 | one result per URL, in input order: exactly `AllResults`, the URL-by-URL reference run (by `AllResultsAt`, result i is URL i's reference result with batch number i / batchSize + 1); statistics: URL count, total time, ceil(n/size) more batches and the results' tallies; trace: one request per attempt, one backoff per retry, one progress report per batch with a callback, ceil(n/size) − 1 pauses (none for no URLs) |
| Parser.UltraReliableParser.RunBatches | page_parser.py:480-516 | the batch loop yields the reference results for all URLs, adds ceil(n/size) batches and the results' tallies to the statistics, and appends the batch events of ceil(n/size) batches to the trace |
| Parser.UltraReliableParser.ProcessBatch | page_parser.py:481-516 | one batch extends the results, tallies, batch count and events by that batch |
| Parser.UltraReliableParser.ParseBatch | page_parser.py:488-498 | the batch's URLs are parsed in order, each with the batch number; statistics and trace gain their tallies and requests |
| Parser.UltraReliableParser.AllBatchesDone | page_parser.py:480-519 | when the loop ends exactly ceil(n/size) batches ran, the results are the reference results of all n URLs, and the tallies and events are those of ceil(n/size) batches |
| Parser.UltraReliableParser.BeginAttempt | page_parser.py:218-231 | the gate, then on a retry the backoff sleep and one retry counted, then the request |
| Parser.UltraReliableParser.HandleOutcome | page_parser.py:232-275 | a 200 parses the page and ends the loop on success with record_success; 429, timeout and network error call record_failure; 429, 5xx and network error sleep 5, 2 and 1 s |
| Converters.ConvertFeesToInt | film_discovery_and_parse.py:28-41 | a converted fee is never negative (its exact value is `FeesMeaning`) |
| Converters.CleaningKeepsDigits | film_discovery_and_parse.py:33-36 | the two substitution passes keep exactly the digits of the input, in order |
| Converters.DigitsEmptyIff | film_discovery_and_parse.py:36-39 | nothing is left exactly when the input has no digit |
| Converters.FeesMeaning | film_discovery_and_parse.py:28-41 | the result is absent iff the input is missing, has no digit, or has more than 4300 digits (int() raises and the ValueError is caught); otherwise it is the number its digits spell |
| Converters.FeesRoundTrip | film_discovery_and_parse.py:28-41 | a number's decimal spelling converts back to the number when it has at most 4300 digits, and to nothing otherwise |
| Converters.FeesOfDigitsSpelling | film_discovery_and_parse.py:33-39 | any text whose digits spell n converts to n, or to nothing when n has more than 4300 digits |
| Converters.FeesExample | film_discovery_and_parse.py:28-41 | "1 234 567,89 руб." converts to 123456789 |
| Converters.FeesWithoutDigitsExample | film_discovery_and_parse.py:30-39 | a text without digits and the empty text both give nothing |
| Converters.MatchDateAtSound | film_discovery_and_parse.py:67-68 | whatever the date matcher returns at a position is a match of `(\d{1,2})\s+(\w+\.?)\s+(\d{4})` there |
| Converters.MatchDateAtComplete | film_discovery_and_parse.py:67-68 | every match of the pattern at a position is the one the matcher returns |
| Converters.SearchDate | film_discovery_and_parse.py:68 | the search returns the first position with a match, and nothing when no later position matches |
| Converters.SearchDateLeftmost | film_discovery_and_parse.py:67-70 | the search finds nothing iff no match exists; otherwise it returns the leftmost match |
| Converters.ConvertDateToIso | film_discovery_and_parse.py:44-83 | the result is absent exactly for a missing or empty input |
| Converters.DateWithoutMatch | film_discovery_and_parse.py:68-83 | a text without a date match is returned as it is |
| Converters.DateLeftmostDecides | film_discovery_and_parse.py:68-83 | the leftmost match decides the result: year-month-day when its lower-cased month is known, the input otherwise |
| Converters.MonthFormsAgree | film_discovery_and_parse.py:50-63 | each month's abbreviation, abbreviation with period and genitive map to its two-digit number |
| Converters.LowerMonthForm | film_discovery_and_parse.py:72-76 | every month key is already lower case, so lower-casing finds it |
| Converters.ReformatKnownMonth | film_discovery_and_parse.py:71-79 | a match whose month is a known form gives year-month-zero-padded day |
| Converters.ZFill2 | film_discovery_and_parse.py:71 | a day of fewer than two characters is padded with zeros on the left to two |
| Converters.DateTextMatches | film_discovery_and_parse.py:67 | "day month year" matches at its start, with the three groups being exactly its three parts |
| Converters.DateRoundTrip | film_discovery_and_parse.py:44-83 | for every 1-2 digit day, month form and 4-digit year, "day month year" converts to year-MM-day padded |
| Converters.DateExamples | film_discovery_and_parse.py:66 | "28 авг. 2025" gives "2025-08-28" and "1 августа 2025" gives "2025-08-01" |
| Converters.ExtractAgeFromRestriction | film_discovery_and_parse.py:86-101 | an extracted age is never negative (its exact value is `AgeLeftmostDecides`) |
| Converters.MatchAgeAtSound | film_discovery_and_parse.py:93-94 | whatever the age matcher returns is a digit run followed by '+' |
| Converters.MatchAgeAtComplete | film_discovery_and_parse.py:93-94 | every digit run followed by '+' at a position is what the matcher returns |
| Converters.SearchAgeLeftmost | film_discovery_and_parse.py:93-96 | the search finds nothing iff there is no digit run followed by '+'; otherwise the leftmost one |
| Converters.AgeWithoutMatch | film_discovery_and_parse.py:86-101 | without such a run there is no age |
| Converters.AgeLeftmostDecides | film_discovery_and_parse.py:86-101 | the leftmost run decides the age, or there is none when the run has more than 4300 digits (int() raises and the bare except returns None); the run is never preceded by a digit |
| Converters.AgeRoundTrip | film_discovery_and_parse.py:86-101 | a number written after digit-free text and followed by '+' is read back, or there is no age when it has more than 4300 digits |
| Converters.AgeExamples | film_discovery_and_parse.py:92-97 | "16+" and "12 16+" both give 16 |
| Text.ParseNatToString | film_discovery_and_parse.py:97 | reading a number's decimal spelling gives the number back |
| Text.SmallCyrillicIsLowerWord | film_discovery_and_parse.py:72 | small Cyrillic text is unchanged by lower-casing and made of word characters |

## Left out

- Concurrency. The URLs of a batch run under `asyncio.gather` with a semaphore of `min(max_concurrent, len(batch))`. The model runs them one after another in input order, which is one possible schedule. `maxConcurrent` is kept as a setting but limits nothing. With real interleaving, the limiter calls and trace events of one batch can interleave.
- Parser.UltraReliableParser.ParseUrlsInBatches: states the limiter only as bounded (through `Valid`), not its exact final state. The exact state is proved per URL by `ParseSingleUrl` and `ParseSingleLimiter`.
- Parser.UltraReliableParser.ParseBatch: likewise states the limiter only as bounded.
- Parser.UltraReliableParser.RunBatches: likewise states the limiter only as bounded (through `Valid`), not its exact final state.
- Parser.UltraReliableParser.ProcessBatch: likewise states the limiter only as bounded (through `Valid` in the loop invariant `BatchesDone`), not its exact state after the batch.
- A negative `max_retries` is not modelled: `maxRetries` is a `nat`. In the source such a value makes the attempt loop empty, and the result reads "Failed after {max_retries + 1} attempts" with that count, which is zero or negative. The parser built in `main` passes 3 (page_parser.py:578), which is also the default.
- The trace is described by counts of each event kind and their order within one attempt. The exact sleep lengths are those of the functions in `attempts.dfy`.
- The progress callback's batch result list is recorded as a count of results. Callback errors are not modelled.
- Logging, the HTTP session and its settings, the HTML extractors and `BeautifulSoup` are not modelled. A 200 response arrives as an extracted `Fields` record, or as an extraction that raised with a message.
- When extraction raises after some fields were already assigned, the model leaves every field unchanged. The source keeps the fields assigned before the exception.
- Clocks, `random.uniform` and sleeping are inputs (`env`, `startTime`, `endTime`). The gate's second clock reading is taken as the first plus the wait.
- Floating point. Delays, times and rates are exact reals. Python float rounding (e.g. of 0.1·1.5^k) is not modelled.
- `batch_size` must be positive. `range` raises on a zero step, and a negative size makes the loop do nothing. The model requires `batchSize > 0`.
- The regular expression classes are approximated. `\d` is ASCII digits. `\s` is the Unicode whitespace of Python's `str.isspace`. `\w` is ASCII letters, digits, `_` and the Cyrillic block. `lower()` covers ASCII and Cyrillic.
- `pd.isna` is the missing value (`None` of `Option`). Non-string inputs converted with `str()` are not modelled.
- `int()` is modelled with the 4300-digit limit of Python 3.11 and later (also the 3.10.7 and 3.9.14 releases). Older interpreters without the limit would convert longer digit runs as well.
- The loop bodies of `parse_urls_in_batches` are split into the helper methods `RunBatches`, `ProcessBatch` and `ParseBatch`.
- Session creation (`__aenter__`, `__aexit__`, `_create_session`), `main` and the CSV/JSON writing are not part of this model.
