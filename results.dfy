/**
 * The per-URL result record, its success test and its CSV row, and the
 * parser's running statistics.
 */
module Results {
  import opened Wrappers

  /** The ten fields the HTML extractor fills in, each absent or a string. */
  datatype Fields = Fields(
    title: Option<string>,
    totalFees: Option<string>,
    presalesFees: Option<string>,
    premiereDayFees: Option<string>,
    firstWeekendFees: Option<string>,
    secondWeekendFees: Option<string>,
    country: Option<string>,
    startDate: Option<string>,
    year: Option<string>,
    ageRestriction: Option<string>)

  const NoFields := Fields(None, None, None, None, None, None, None, None, None, None)

  /** One URL's outcome: what was extracted, the error if any, and the bookkeeping. */
  datatype ParseResult = ParseResult(
    url: string,
    fields: Fields,
    error: Option<string>,
    parseTime: real,
    attemptCount: int,
    batchNumber: int)

  /** A fresh result: nothing extracted, no error, no attempt yet. */
  function NewResult(url: string, batchNumber: int): (r: ParseResult)
    ensures r.url == url && r.batchNumber == batchNumber && r.fields == NoFields
    ensures r.error == None && r.attemptCount == 0 && r.parseTime == 0.0
  {
    ParseResult(url, NoFields, None, 0.0, 0, batchNumber)
  }

  /** Python truthiness of an optional string: present and non-empty. */
  predicate Truthy(o: Option<string>) {
    o.Some? && o.value != ""
  }

  /** One of the key fields (title, total fees, country, start date) holds text. */
  predicate HasKeyField(f: Fields) {
    Truthy(f.title) || Truthy(f.totalFees) || Truthy(f.country) || Truthy(f.startDate)
  }

  /** `is_successful`: no error, and some key field was extracted. */
  predicate IsSuccessful(r: ParseResult) {
    !Truthy(r.error) && HasKeyField(r.fields)
  }

  /** Only the error and the four key fields decide success; nothing else matters. */
  lemma SuccessDependsOnKeyFields(r: ParseResult, s: ParseResult)
    requires r.error == s.error
    requires r.fields.title == s.fields.title && r.fields.totalFees == s.fields.totalFees
    requires r.fields.country == s.fields.country && r.fields.startDate == s.fields.startDate
    ensures IsSuccessful(r) <==> IsSuccessful(s)
  {
  }

  /** A set error (one with text) always means failure, whatever was extracted. */
  lemma ErrorMeansFailure(r: ParseResult)
    requires Truthy(r.error)
    ensures !IsSuccessful(r)
  {
  }

  // ---------------------------------------------------------------------------
  // to_dict: the CSV row
  // ---------------------------------------------------------------------------

  /** A CSV cell: optional text, a float or an int. */
  datatype Cell = Text(text: Option<string>) | Number(number: real) | Count(count: int)

  /** The column names of the row, in the order `to_dict` lists them. */
  const Columns: seq<string> := [
    "url", "title_name", "total_fees", "presales_fees", "premiere_day_fees",
    "first_weekend_fees", "second_weekend_fees", "country", "start_date", "year",
    "age_restriction", "error", "parse_time", "attempt_count", "batch_number"]

  /** The cells of the row, in column order. */
  function Cells(r: ParseResult): seq<Cell> {
    var f := r.fields;
    [Text(Some(r.url)), Text(f.title), Text(f.totalFees), Text(f.presalesFees), Text(f.premiereDayFees),
     Text(f.firstWeekendFees), Text(f.secondWeekendFees), Text(f.country), Text(f.startDate), Text(f.year),
     Text(f.ageRestriction), Text(r.error), Number(r.parseTime), Count(r.attemptCount), Count(r.batchNumber)]
  }

  /** `to_dict`: the result as (column, cell) pairs in column order. */
  function ToRow(r: ParseResult): (row: seq<(string, Cell)>)
    ensures |row| == |Columns|
    ensures forall i :: 0 <= i < |row| ==> row[i].0 == Columns[i]
  {
    var cells := Cells(r);
    seq(|Columns|, i requires 0 <= i < |Columns| => (Columns[i], cells[i]))
  }

  /** Reads a row back, refusing one whose columns or cell kinds are not those of `to_dict`. */
  function FromRow(row: seq<(string, Cell)>): Option<ParseResult> {
    if |row| != |Columns| || exists i :: 0 <= i < |row| && row[i].0 != Columns[i] then None
    else if !(row[0].1.Text? && row[0].1.text.Some?) then None
    else if exists i :: 1 <= i < 12 && !row[i].1.Text? then None
    else if !(row[12].1.Number? && row[13].1.Count? && row[14].1.Count?) then None
    else
      var f := Fields(row[1].1.text, row[2].1.text, row[3].1.text, row[4].1.text, row[5].1.text,
                      row[6].1.text, row[7].1.text, row[8].1.text, row[9].1.text, row[10].1.text);
      Some(ParseResult(row[0].1.text.value, f, row[11].1.text, row[12].1.number, row[13].1.count, row[14].1.count))
  }

  /** The row keeps everything: reading it back gives the result unchanged. */
  lemma RowRoundTrip(r: ParseResult)
    ensures FromRow(ToRow(r)) == Some(r)
  {
    var row := ToRow(r);
    assert forall i :: 1 <= i < 12 ==> row[i].1.Text?;
  }

  /** The column names are distinct, so the dictionary has one entry per column. */
  lemma ColumnsDistinct()
    ensures forall i, j :: 0 <= i < j < |Columns| ==> Columns[i] != Columns[j]
  {
  }

  // ---------------------------------------------------------------------------
  // The parser's statistics dictionary
  // ---------------------------------------------------------------------------

  datatype Stats = Stats(
    totalUrls: int,
    successfulParses: int,
    failedParses: int,
    totalRetries: int,
    totalTime: real,
    batchesProcessed: int)

  const InitialStats := Stats(0, 0, 0, 0, 0.0, 0)
}
