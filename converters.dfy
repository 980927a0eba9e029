/**
 * The three value converters of the discovery script: box-office fees to an
 * integer, Russian release dates to "YYYY-MM-DD", and age ratings such as
 * "16+" to a number. Each takes an optional string (`None` stands for Python's
 * `None` and pandas' missing value) and never raises.
 */
module Converters {
  import opened Wrappers
  import opened Text

  // ---------------------------------------------------------------------------
  // Fees
  // ---------------------------------------------------------------------------

  /** First pass, `re.sub(r'[^\d\s,]', '', s)`: keep digits, whitespace and commas. */
  function KeepDigitsSpacesCommas(s: string): (r: string)
    ensures forall i :: 0 <= i < |r| ==> IsDigit(r[i]) || IsSpace(r[i]) || r[i] == ','
  {
    if s == [] then []
    else (if IsDigit(s[0]) || IsSpace(s[0]) || s[0] == ',' then [s[0]] else []) + KeepDigitsSpacesCommas(s[1..])
  }

  /** Second pass, `re.sub(r'[\s,]', '', s)`: drop whitespace and commas. */
  function DropSpacesCommas(s: string): string {
    if s == [] then []
    else (if IsSpace(s[0]) || s[0] == ',' then [] else [s[0]]) + DropSpacesCommas(s[1..])
  }

  /** The digits of `s`, in order: what the two passes are meant to leave. */
  function Digits(s: string): (r: string)
    ensures AllDigits(r) && |r| <= |s|
  {
    if s == [] then [] else (if IsDigit(s[0]) then [s[0]] else []) + Digits(s[1..])
  }

  predicate HasDigit(s: string) {
    exists i :: 0 <= i < |s| && IsDigit(s[i])
  }

  /** The two substitution passes together keep exactly the digits. */
  lemma {:induction false} CleaningKeepsDigits(s: string)
    ensures DropSpacesCommas(KeepDigitsSpacesCommas(s)) == Digits(s)
  {
    if s != [] {
      CleaningKeepsDigits(s[1..]);
      var k := if IsDigit(s[0]) || IsSpace(s[0]) || s[0] == ',' then [s[0]] else [];
      DropSpacesCommasAppend(k, KeepDigitsSpacesCommas(s[1..]));
      if k != [] {
        assert DropSpacesCommas(k) == (if IsDigit(s[0]) then [s[0]] else []) by {
          assert k[1..] == [];
        }
      }
    }
  }

  lemma {:induction false} DropSpacesCommasAppend(a: string, b: string)
    ensures DropSpacesCommas(a + b) == DropSpacesCommas(a) + DropSpacesCommas(b)
  {
    if a == [] {
      assert a + b == b;
    } else {
      var h := if IsSpace(a[0]) || a[0] == ',' then [] else [a[0]];
      assert (a + b)[0] == a[0] && (a + b)[1..] == a[1..] + b;
      assert DropSpacesCommas(a + b) == h + DropSpacesCommas(a[1..] + b);
      DropSpacesCommasAppend(a[1..], b);
      assert h + (DropSpacesCommas(a[1..]) + DropSpacesCommas(b)) == (h + DropSpacesCommas(a[1..])) + DropSpacesCommas(b);
    }
  }

  lemma {:induction false} DigitsAppend(a: string, b: string)
    ensures Digits(a + b) == Digits(a) + Digits(b)
  {
    if a == [] {
      assert a + b == b;
    } else {
      var h := if IsDigit(a[0]) then [a[0]] else [];
      assert (a + b)[0] == a[0] && (a + b)[1..] == a[1..] + b;
      assert Digits(a + b) == h + Digits(a[1..] + b);
      DigitsAppend(a[1..], b);
      assert h + (Digits(a[1..]) + Digits(b)) == (h + Digits(a[1..])) + Digits(b);
    }
  }

  lemma {:induction false} DigitsEmptyIff(s: string)
    ensures Digits(s) == [] <==> !HasDigit(s)
  {
    if s != [] {
      DigitsEmptyIff(s[1..]);
      if HasDigit(s[1..]) {
        var i :| 0 <= i < |s[1..]| && IsDigit(s[1..][i]);
        assert IsDigit(s[i + 1]);
      }
      if HasDigit(s) && !IsDigit(s[0]) {
        var i :| 0 <= i < |s| && IsDigit(s[i]);
        assert IsDigit(s[1..][i - 1]);
      }
    }
  }

  lemma {:induction false} DigitsOfDigits(s: string)
    requires AllDigits(s)
    ensures Digits(s) == s
  {
    if s != [] {
      DigitsOfDigits(s[1..]);
    }
  }

  /**
   * `_convert_fees_to_int`. An empty `clean_str` gives `None`, and so does one
   * too long for `int()`, whose `ValueError` is caught.
   */
  function ConvertFeesToInt(fee: Option<string>): (r: Option<int>)
    ensures r.Some? ==> r.value >= 0
  {
    if fee.None? || fee.value == "" then None
    else
      var clean := DropSpacesCommas(KeepDigitsSpacesCommas(fee.value));
      CleaningKeepsDigits(fee.value);
      if clean == [] || |clean| > MaxStrDigits then None else Some(ParseNat(clean))
  }

  /**
   * The result is `None` exactly for a missing value, a string without a
   * digit or one with more digits than `int()` accepts; otherwise it is the
   * number all the digits spell, in order, whatever separators, decimal commas
   * or currency text stand between them.
   */
  lemma FeesMeaning(fee: Option<string>)
    ensures ConvertFeesToInt(fee).None? <==>
      fee.None? || !HasDigit(fee.value) || |Digits(fee.value)| > MaxStrDigits
    ensures ConvertFeesToInt(fee).Some? ==> ConvertFeesToInt(fee).value == ParseNat(Digits(fee.value))
  {
    if fee.Some? {
      CleaningKeepsDigits(fee.value);
      DigitsEmptyIff(fee.value);
    }
  }

  /** Any string whose digits spell the decimal form of `n` converts to `n`, unless `n` is too long for `int()`. */
  lemma FeesOfDigitsSpelling(s: string, n: nat)
    requires Digits(s) == NatToString(n)
    ensures ConvertFeesToInt(Some(s)) == if |NatToString(n)| <= MaxStrDigits then Some(n) else None
  {
    FeesMeaning(Some(s));
    DigitsEmptyIff(s);
    ParseNatToString(n);
  }

  /** Converting the decimal form of a non-negative number gives it back, up to `int()`'s digit limit. */
  lemma FeesRoundTrip(n: nat)
    ensures ConvertFeesToInt(Some(NatToString(n))) == if |NatToString(n)| <= MaxStrDigits then Some(n) else None
  {
    DigitsOfDigits(NatToString(n));
    FeesOfDigitsSpelling(NatToString(n), n);
  }

  lemma FeesExamplePieces()
    ensures Digits("1 234") == "1234" && Digits(" 567,") == "567" && Digits("89 руб.") == "89"
  {
    DigitsOfThousands();
    DigitsOfThousandsComma();
    DigitsOfKopecks();
  }

  lemma DigitsOfThousands()
    ensures Digits("1 234") == "1234"
  {
  }

  lemma DigitsOfThousandsComma()
    ensures Digits(" 567,") == "567"
  {
  }

  lemma DigitsOfKopecks()
    ensures Digits("89 руб.") == "89"
  {
  }

  lemma FeesExampleDigits(a: string, b: string, c: string)
    requires Digits(a) == "1234" && Digits(b) == "567" && Digits(c) == "89"
    ensures Digits(a + b + c) == "123456789"
  {
    DigitsAppend(a, b);
    DigitsAppend(a + b, c);
  }

  lemma FeesExampleSpelling()
    ensures NatToString(123456789) == "123456789"
  {
    AppendDigit(1, 2, "1", "12");
    AppendDigit(12, 3, "12", "123");
    AppendDigit(123, 4, "123", "1234");
    AppendDigit(1234, 5, "1234", "12345");
    AppendDigit(12345, 6, "12345", "123456");
    AppendDigit(123456, 7, "123456", "1234567");
    AppendDigit(1234567, 8, "1234567", "12345678");
    AppendDigit(12345678, 9, "12345678", "123456789");
  }

  /** Writing a digit after the decimal string of `n` spells `10 n + d`. */
  lemma AppendDigit(n: nat, d: nat, s: string, t: string)
    requires 1 <= n && d < 10 && NatToString(n) == s && t == s + [DigitChar(d)]
    ensures NatToString(n * 10 + d) == t
  {
    assert (n * 10 + d) / 10 == n && (n * 10 + d) % 10 == d;
  }

  lemma FeesExampleValue(s: string)
    requires Digits(s) == "123456789"
    ensures ConvertFeesToInt(Some(s)) == Some(123456789)
  {
    FeesExampleSpelling();
    FeesOfDigitsSpelling(s, 123456789);
  }

  /** Spaces, the decimal comma and the currency are dropped: "1 234 567,89 руб." gives 123456789. */
  lemma FeesExample(s: string)
    requires s == "1 234 567,89 руб."
    ensures ConvertFeesToInt(Some(s)) == Some(123456789)
  {
    FeesExamplePieces();
    FeesExampleDigits("1 234", " 567,", "89 руб.");
    assert s == "1 234" + " 567," + "89 руб.";
    FeesExampleValue(s);
  }

  lemma FeesWithoutDigitsExample()
    ensures ConvertFeesToInt(Some("нет данных")) == None
    ensures ConvertFeesToInt(Some("")) == None
  {
    assert Digits("нет данных") == [];
    DigitsEmptyIff("нет данных");
    FeesMeaning(Some("нет данных"));
  }

  // ---------------------------------------------------------------------------
  // Regex building blocks
  // ---------------------------------------------------------------------------

  /** The regex character classes the converters use. */
  datatype CharClass = Digit | Space | Word

  predicate InClass(c: char, k: CharClass) {
    match k
    case Digit => IsDigit(c)
    case Space => IsSpace(c)
    case Word => IsWordChar(c)
  }

  /** Length of the longest run of class-`k` characters starting at `p` (a greedy `+`). */
  function RunLength(s: string, p: nat, k: CharClass): (n: nat)
    requires p <= |s|
    ensures p + n <= |s|
    decreases |s| - p
  {
    if p < |s| && InClass(s[p], k) then 1 + RunLength(s, p + 1, k) else 0
  }

  /** Every character of `s[a..b]` is in class `k`. */
  predicate AllIn(s: string, a: nat, b: nat, k: CharClass)
    requires a <= b <= |s|
    decreases b - a
  {
    a == b || (InClass(s[a], k) && AllIn(s, a + 1, b, k))
  }

  lemma {:induction false} AllInAt(s: string, a: nat, b: nat, k: CharClass, i: nat)
    requires a <= i < b <= |s| && AllIn(s, a, b, k)
    ensures InClass(s[i], k)
    decreases i - a
  {
    if a < i {
      AllInAt(s, a + 1, b, k, i);
    }
  }

  /** The run is made of class-`k` characters and cannot be extended. */
  lemma {:induction false} RunLengthMaximal(s: string, p: nat, k: CharClass)
    requires p <= |s|
    ensures var n := RunLength(s, p, k);
      AllIn(s, p, p + n, k) && (p + n == |s| || !InClass(s[p + n], k))
    decreases |s| - p
  {
    if p < |s| && InClass(s[p], k) {
      RunLengthMaximal(s, p + 1, k);
    }
  }

  /** A run that is followed by a character outside the class is the longest one. */
  lemma {:induction false} RunLengthExact(s: string, p: nat, n: nat, k: CharClass)
    requires p + n <= |s| && AllIn(s, p, p + n, k)
    requires p + n == |s| || !InClass(s[p + n], k)
    ensures RunLength(s, p, k) == n
    decreases n
  {
    if n > 0 {
      RunLengthExact(s, p + 1, n - 1, k);
    }
  }

  // ---------------------------------------------------------------------------
  // Dates
  // ---------------------------------------------------------------------------

  /**
   * One match of `(\d{1,2})\s+(\w+\.?)\s+(\d{4})` at `start`: the day has `dayLen`
   * digits, then come `gap1` whitespace characters, a word of `wordLen`
   * characters, `dot` (0 or 1) periods, `gap2` whitespace characters and the
   * four digits of the year.
   */
  datatype DateMatch = DateMatch(start: nat, dayLen: nat, gap1: nat, wordLen: nat, dot: nat, gap2: nat) {
    function MonthStart(): nat { start + dayLen + gap1 }
    function YearStart(): nat { MonthStart() + wordLen + dot + gap2 }
  }

  /** The pattern matches `s` as `m` describes. */
  ghost predicate DatePattern(s: string, m: DateMatch) {
    var w := m.MonthStart();
    var y := m.YearStart();
    1 <= m.dayLen <= 2 && m.gap1 >= 1 && m.wordLen >= 1 && m.dot <= 1 && m.gap2 >= 1 && y + 4 <= |s|
    && AllIn(s, m.start, m.start + m.dayLen, Digit)
    && AllIn(s, m.start + m.dayLen, w, Space)
    && AllIn(s, w, w + m.wordLen, Word)
    && (m.dot == 1 ==> s[w + m.wordLen] == '.')
    && AllIn(s, w + m.wordLen + m.dot, y, Space)
    && AllIn(s, y, y + 4, Digit)
  }

  /** Group 1, the day. */
  function Day(s: string, m: DateMatch): string
    requires m.start + m.dayLen <= |s|
  {
    s[m.start..m.start + m.dayLen]
  }

  /** Group 2, the month word with its period, if any. */
  function Month(s: string, m: DateMatch): string
    requires m.MonthStart() + m.wordLen + m.dot <= |s|
  {
    s[m.MonthStart()..m.MonthStart() + m.wordLen + m.dot]
  }

  /** Group 3, the year. */
  function Year(s: string, m: DateMatch): string
    requires m.YearStart() + 4 <= |s|
  {
    s[m.YearStart()..m.YearStart() + 4]
  }

  /** How many digits `\d{1,2}` takes at `p`. */
  function DayLength(s: string, p: nat): (n: nat)
    requires p <= |s|
    ensures n <= 2 && p + n <= |s|
  {
    if p + 1 < |s| && IsDigit(s[p]) && IsDigit(s[p + 1]) then 2
    else if p < |s| && IsDigit(s[p]) then 1
    else 0
  }

  /**
   * The regex engine's attempt at position `p`. Backtracking never changes the
   * outcome: a digit is not whitespace, and neither whitespace nor '.' is a
   * word character, so every greedy run must be taken whole.
   */
  function MatchDateAt(s: string, p: nat): (r: Option<DateMatch>)
    ensures r.Some? ==> r.value.start == p && r.value.YearStart() + 4 <= |s|
  {
    if p > |s| then None
    else
      var dayLen := DayLength(s, p);
      MatchDateRest(s, p, dayLen, RunLength(s, p + dayLen, Space))
  }

  /** The month word, its period and the gap before the year, once the day and first gap are known. */
  function MatchDateRest(s: string, p: nat, dayLen: nat, gap1: nat): (r: Option<DateMatch>)
    requires p + dayLen + gap1 <= |s|
    ensures r.Some? ==> r.value.start == p && r.value.YearStart() + 4 <= |s|
  {
    var w := p + dayLen + gap1;
    var wordLen := RunLength(s, w, Word);
    var dot := if w + wordLen < |s| && s[w + wordLen] == '.' then 1 else 0;
    CheckDate(s, DateMatch(p, dayLen, gap1, wordLen, dot, RunLength(s, w + wordLen + dot, Space)))
  }

  /** The non-empty runs and the four year digits that a match needs. */
  function CheckDate(s: string, m: DateMatch): (r: Option<DateMatch>)
    ensures r.Some? ==> r == Some(m) && m.YearStart() + 4 <= |s|
  {
    var y := m.YearStart();
    if m.dayLen > 0 && m.gap1 > 0 && m.wordLen > 0 && m.gap2 > 0 && y + 4 <= |s| && AllIn(s, y, y + 4, Digit)
    then Some(m)
    else None
  }

  /** Whatever the matcher returns is a match of the pattern. */
  lemma MatchDateAtSound(s: string, p: nat)
    ensures MatchDateAt(s, p).Some? ==> DatePattern(s, MatchDateAt(s, p).value)
  {
    if p <= |s| {
      var dayLen := DayLength(s, p);
      MatchDateRestSound(s, p, dayLen, RunLength(s, p + dayLen, Space));
    }
  }

  lemma MatchDateRestSound(s: string, p: nat, dayLen: nat, gap1: nat)
    requires p <= |s| && dayLen == DayLength(s, p)
    requires p + dayLen + gap1 <= |s| && gap1 == RunLength(s, p + dayLen, Space)
    ensures MatchDateRest(s, p, dayLen, gap1).Some? ==> DatePattern(s, MatchDateRest(s, p, dayLen, gap1).value)
  {
    var w := p + dayLen + gap1;
    var wordLen := RunLength(s, w, Word);
    var dot := if w + wordLen < |s| && s[w + wordLen] == '.' then 1 else 0;
    var m := DateMatch(p, dayLen, gap1, wordLen, dot, RunLength(s, w + wordLen + dot, Space));
    assert MatchDateRest(s, p, dayLen, gap1) == CheckDate(s, m);
    if CheckDate(s, m).Some? {
      assert MatchDateRest(s, p, dayLen, gap1).value == m;
      PatternOfRuns(s, m);
    }
  }

  /** A candidate built from the greedy runs that passes the final checks matches the pattern. */
  lemma PatternOfRuns(s: string, m: DateMatch)
    requires m.start <= |s| && m.dayLen == DayLength(s, m.start)
    requires m.start + m.dayLen + m.gap1 <= |s| && m.gap1 == RunLength(s, m.start + m.dayLen, Space)
    requires m.MonthStart() + m.wordLen <= |s| && m.wordLen == RunLength(s, m.MonthStart(), Word)
    requires m.dot == if m.MonthStart() + m.wordLen < |s| && s[m.MonthStart() + m.wordLen] == '.' then 1 else 0
    requires m.YearStart() <= |s| && m.gap2 == RunLength(s, m.MonthStart() + m.wordLen + m.dot, Space)
    requires CheckDate(s, m).Some?
    ensures DatePattern(s, m)
  {
    var w := m.MonthStart();
    var y := m.YearStart();
    assert 1 <= m.dayLen <= 2 && m.gap1 >= 1 && m.wordLen >= 1 && m.gap2 >= 1 && y + 4 <= |s|
      && AllIn(s, y, y + 4, Digit);
    DayDigits(s, m.start);
    RunIsAll(s, m.start + m.dayLen, w, Space);
    RunIsAll(s, w, w + m.wordLen, Word);
    RunIsAll(s, w + m.wordLen + m.dot, y, Space);
  }

  /** A greedy run, read back as the characters it spans. */
  lemma RunIsAll(s: string, a: nat, b: nat, k: CharClass)
    requires a <= |s| && b == a + RunLength(s, a, k)
    ensures b <= |s| && AllIn(s, a, b, k)
  {
    RunLengthMaximal(s, a, k);
  }

  /** The one or two characters `\d{1,2}` takes are digits. */
  lemma DayDigits(s: string, p: nat)
    requires p <= |s|
    ensures AllIn(s, p, p + DayLength(s, p), Digit)
  {
    var n := DayLength(s, p);
    if n == 2 {
      assert AllIn(s, p + 2, p + 2, Digit);
      assert AllIn(s, p + 1, p + 2, Digit);
    } else if n == 1 {
      assert AllIn(s, p + 1, p + 1, Digit);
    }
  }

  /** Every match of the pattern at a position is the one the matcher returns there. */
  lemma MatchDateAtComplete(s: string, m: DateMatch)
    requires DatePattern(s, m)
    ensures MatchDateAt(s, m.start) == Some(m)
  {
    PatternDayAndGap(s, m);
    PatternWordAndDot(s, m);
    PatternGapBeforeYear(s, m);
    PatternYear(s, m);
    MatchDateRestIs(s, m);
  }

  lemma PatternYear(s: string, m: DateMatch)
    requires DatePattern(s, m)
    ensures CheckDate(s, m) == Some(m)
  {
  }

  lemma PatternDayAndGap(s: string, m: DateMatch)
    requires DatePattern(s, m)
    ensures DayLength(s, m.start) == m.dayLen
    ensures RunLength(s, m.start + m.dayLen, Space) == m.gap1
  {
    AllInAt(s, m.start, m.start + m.dayLen, Digit, m.start);
    if m.dayLen == 2 {
      AllInAt(s, m.start, m.start + m.dayLen, Digit, m.start + 1);
    } else {
      AllInAt(s, m.start + m.dayLen, m.MonthStart(), Space, m.start + 1);
    }
    AllInAt(s, m.MonthStart(), m.MonthStart() + m.wordLen, Word, m.MonthStart());
    RunLengthExact(s, m.start + m.dayLen, m.gap1, Space);
  }

  lemma PatternWordAndDot(s: string, m: DateMatch)
    requires DatePattern(s, m)
    ensures RunLength(s, m.MonthStart(), Word) == m.wordLen
    ensures m.dot == if m.MonthStart() + m.wordLen < |s| && s[m.MonthStart() + m.wordLen] == '.' then 1 else 0
  {
    var w := m.MonthStart();
    AllInAt(s, w + m.wordLen + m.dot, m.YearStart(), Space, w + m.wordLen + m.dot);
    RunLengthExact(s, w, m.wordLen, Word);
  }

  lemma PatternGapBeforeYear(s: string, m: DateMatch)
    requires DatePattern(s, m)
    ensures RunLength(s, m.MonthStart() + m.wordLen + m.dot, Space) == m.gap2
  {
    AllInAt(s, m.YearStart(), m.YearStart() + 4, Digit, m.YearStart());
    RunLengthExact(s, m.MonthStart() + m.wordLen + m.dot, m.gap2, Space);
  }

  lemma MatchDateRestIs(s: string, m: DateMatch)
    requires m.MonthStart() + m.wordLen + m.dot + m.gap2 <= |s|
    requires RunLength(s, m.MonthStart(), Word) == m.wordLen
    requires m.dot == if m.MonthStart() + m.wordLen < |s| && s[m.MonthStart() + m.wordLen] == '.' then 1 else 0
    requires RunLength(s, m.MonthStart() + m.wordLen + m.dot, Space) == m.gap2
    ensures MatchDateRest(s, m.start, m.dayLen, m.gap1) == CheckDate(s, m)
  {
  }

  /** `re.search` with the date pattern from position `p` on: the leftmost match, if any. */
  function SearchDate(s: string, p: nat): (r: Option<(nat, DateMatch)>)
    ensures r.Some? ==> p <= r.value.0 && MatchDateAt(s, r.value.0) == Some(r.value.1)
                        && forall q :: p <= q < r.value.0 ==> MatchDateAt(s, q).None?
    ensures r.None? ==> forall q :: p <= q ==> MatchDateAt(s, q).None?
    decreases |s| - p
  {
    if p > |s| then None
    else match MatchDateAt(s, p)
      case Some(m) => Some((p, m))
      case None => SearchDate(s, p + 1)
  }

  /** The Russian month names `_convert_date_to_datetime` recognises: bare abbreviation and genitive form, January first. */
  const MonthNames: seq<(string, string)> := [
    ("янв", "января"), ("февр", "февраля"), ("мар", "марта"), ("апр", "апреля"),
    ("май", "мая"), ("июн", "июня"), ("июл", "июля"), ("авг", "августа"),
    ("сент", "сентября"), ("окт", "октября"), ("нояб", "ноября"), ("дек", "декабря")]

  const MonthMap: map<string, string> := map[
    "янв" := "01", "янв." := "01", "января" := "01",
    "февр" := "02", "февр." := "02", "февраля" := "02",
    "мар" := "03", "мар." := "03", "марта" := "03",
    "апр" := "04", "апр." := "04", "апреля" := "04",
    "май" := "05", "май." := "05", "мая" := "05",
    "июн" := "06", "июн." := "06", "июня" := "06",
    "июл" := "07", "июл." := "07", "июля" := "07",
    "авг" := "08", "авг." := "08", "августа" := "08",
    "сент" := "09", "сент." := "09", "сентября" := "09",
    "окт" := "10", "окт." := "10", "октября" := "10",
    "нояб" := "11", "нояб." := "11", "ноября" := "11",
    "дек" := "12", "дек." := "12", "декабря" := "12"]

  /** Form `f` of month `i` (0-based): 0 the bare abbreviation, 1 it with a period, 2 the genitive. */
  function MonthForm(i: nat, f: nat): string
    requires i < 12 && f < 3
  {
    if f == 0 then MonthNames[i].0 else if f == 1 then MonthNames[i].0 + "." else MonthNames[i].1
  }

  /** The two-digit month number "01" .. "12" of month `k`. */
  function TwoDigits(k: nat): (r: string)
    requires 1 <= k <= 12
    ensures |r| == 2 && AllDigits(r) && ParseNat(r) == k
  {
    ParseNatToString(k);
    if k < 10 then "0" + NatToString(k) else NatToString(k)
  }

  /** `str.zfill(2)`: left-pad with '0' to two characters. */
  function ZFill2(d: string): (r: string)
    ensures |d| < 2 ==> r == seq(2 - |d|, _ => '0') + d
    ensures |d| >= 2 ==> r == d
    decreases 2 - |d|
  {
    if |d| >= 2 then d else ZFill2("0" + d)
  }

  /** The ISO date built from a match, or the input itself when the month is unknown. */
  function Reformat(s: string, m: DateMatch): Option<string>
    requires m.YearStart() + 4 <= |s|
  {
    var key := Lower(Month(s, m));
    if key in MonthMap then Some(Year(s, m) + "-" + MonthMap[key] + "-" + ZFill2(Day(s, m)))
    else Some(s)
  }

  /** `_convert_date_to_datetime`: None only for a missing or empty input. */
  function ConvertDateToIso(date: Option<string>): (r: Option<string>)
    ensures r.None? <==> date.None? || date.value == ""
  {
    if date.None? || date.value == "" then None
    else match SearchDate(date.value, 0)
      case None => date
      case Some((_, m)) => Reformat(date.value, m)
  }

  /** The search returns the leftmost match of the pattern, and nothing exactly when there is none. */
  lemma SearchDateLeftmost(s: string)
    ensures SearchDate(s, 0).None? <==> forall m :: !DatePattern(s, m)
    ensures SearchDate(s, 0).Some? ==>
      var (p, m) := SearchDate(s, 0).value;
      p == m.start && DatePattern(s, m) && forall m' :: DatePattern(s, m') ==> m.start <= m'.start
  {
    var r := SearchDate(s, 0);
    if r.Some? {
      MatchDateAtSound(s, r.value.0);
    }
    forall m' | DatePattern(s, m')
      ensures r.Some? && r.value.0 <= m'.start
    {
      MatchDateAtComplete(s, m');
    }
  }

  /** A date string without any match of the pattern comes back unchanged. */
  lemma DateWithoutMatch(s: string)
    requires s != ""
    requires forall m :: !DatePattern(s, m)
    ensures ConvertDateToIso(Some(s)) == Some(s)
  {
    SearchDateLeftmost(s);
  }

  /**
   * Only the leftmost match counts: its month decides, and when that month is
   * unknown the input comes back unchanged even if a later match would convert.
   */
  lemma DateLeftmostDecides(s: string, m: DateMatch)
    requires s != "" && DatePattern(s, m)
    requires forall m' :: DatePattern(s, m') ==> m.start <= m'.start
    ensures ConvertDateToIso(Some(s)) == Reformat(s, m)
  {
    SearchDateLeftmost(s);
    var (p, n) := SearchDate(s, 0).value;
    assert n.start == m.start;
    MatchDateAtComplete(s, m);
    MatchDateAtComplete(s, n);
    assert n == m;
    ConvertDateSearches(s);
  }

  lemma ConvertDateSearches(s: string)
    requires s != "" && SearchDate(s, 0).Some?
    ensures ConvertDateToIso(Some(s)) == Reformat(s, SearchDate(s, 0).value.1)
  {
  }

  /** All three spellings of a month look up the same two-digit month number. */
  lemma MonthFormsAgree(i: nat, f: nat)
    requires i < 12 && f < 3
    ensures MonthForm(i, f) in MonthMap && MonthMap[MonthForm(i, f)] == TwoDigits(i + 1)
  {
    match i
    case 0 => MonthEntries1(i, f);
    case 1 => MonthEntries2(i, f);
    case 2 => MonthEntries3(i, f);
    case 3 => MonthEntries4(i, f);
    case 4 => MonthEntries5(i, f);
    case 5 => MonthEntries6(i, f);
    case 6 => MonthEntries7(i, f);
    case 7 => MonthEntries8(i, f);
    case 8 => MonthEntries9(i, f);
    case 9 => MonthEntries10(i, f);
    case 10 => MonthEntries11(i, f);
    case _ => MonthEntries12(i, f);
  }

  lemma MonthEntries1(i: nat, f: nat)
    requires i == 0 && f < 3
    ensures MonthForm(i, f) in MonthMap && MonthMap[MonthForm(i, f)] == TwoDigits(i + 1)
  {
    MonthFacts1();
    MonthKeys1();
    if f == 0 {
    } else if f == 1 {
    } else {
    }
  }

  lemma MonthFacts1()
    ensures MonthForm(0, 0) == "янв" && MonthForm(0, 1) == "янв." && MonthForm(0, 2) == "января"
    ensures TwoDigits(1) == "01"
  {
  }

  lemma MonthKeys1()
    ensures "янв" in MonthMap && MonthMap["янв"] == "01"
    ensures "янв." in MonthMap && MonthMap["янв."] == "01"
    ensures "января" in MonthMap && MonthMap["января"] == "01"
  {
  }

  lemma MonthEntries2(i: nat, f: nat)
    requires i == 1 && f < 3
    ensures MonthForm(i, f) in MonthMap && MonthMap[MonthForm(i, f)] == TwoDigits(i + 1)
  {
    MonthFacts2();
    MonthKeys2();
    if f == 0 {
    } else if f == 1 {
    } else {
    }
  }

  lemma MonthFacts2()
    ensures MonthForm(1, 0) == "февр" && MonthForm(1, 1) == "февр." && MonthForm(1, 2) == "февраля"
    ensures TwoDigits(2) == "02"
  {
  }

  lemma MonthKeys2()
    ensures "февр" in MonthMap && MonthMap["февр"] == "02"
    ensures "февр." in MonthMap && MonthMap["февр."] == "02"
    ensures "февраля" in MonthMap && MonthMap["февраля"] == "02"
  {
  }

  lemma MonthEntries3(i: nat, f: nat)
    requires i == 2 && f < 3
    ensures MonthForm(i, f) in MonthMap && MonthMap[MonthForm(i, f)] == TwoDigits(i + 1)
  {
    MonthFacts3();
    MonthKeys3();
    if f == 0 {
    } else if f == 1 {
    } else {
    }
  }

  lemma MonthFacts3()
    ensures MonthForm(2, 0) == "мар" && MonthForm(2, 1) == "мар." && MonthForm(2, 2) == "марта"
    ensures TwoDigits(3) == "03"
  {
  }

  lemma MonthKeys3()
    ensures "мар" in MonthMap && MonthMap["мар"] == "03"
    ensures "мар." in MonthMap && MonthMap["мар."] == "03"
    ensures "марта" in MonthMap && MonthMap["марта"] == "03"
  {
  }

  lemma MonthEntries4(i: nat, f: nat)
    requires i == 3 && f < 3
    ensures MonthForm(i, f) in MonthMap && MonthMap[MonthForm(i, f)] == TwoDigits(i + 1)
  {
    MonthFacts4();
    MonthKeys4();
    if f == 0 {
    } else if f == 1 {
    } else {
    }
  }

  lemma MonthFacts4()
    ensures MonthForm(3, 0) == "апр" && MonthForm(3, 1) == "апр." && MonthForm(3, 2) == "апреля"
    ensures TwoDigits(4) == "04"
  {
  }

  lemma MonthKeys4()
    ensures "апр" in MonthMap && MonthMap["апр"] == "04"
    ensures "апр." in MonthMap && MonthMap["апр."] == "04"
    ensures "апреля" in MonthMap && MonthMap["апреля"] == "04"
  {
  }

  lemma MonthEntries5(i: nat, f: nat)
    requires i == 4 && f < 3
    ensures MonthForm(i, f) in MonthMap && MonthMap[MonthForm(i, f)] == TwoDigits(i + 1)
  {
    MonthFacts5();
    MonthKeys5();
    if f == 0 {
    } else if f == 1 {
    } else {
    }
  }

  lemma MonthFacts5()
    ensures MonthForm(4, 0) == "май" && MonthForm(4, 1) == "май." && MonthForm(4, 2) == "мая"
    ensures TwoDigits(5) == "05"
  {
  }

  lemma MonthKeys5()
    ensures "май" in MonthMap && MonthMap["май"] == "05"
    ensures "май." in MonthMap && MonthMap["май."] == "05"
    ensures "мая" in MonthMap && MonthMap["мая"] == "05"
  {
  }

  lemma MonthEntries6(i: nat, f: nat)
    requires i == 5 && f < 3
    ensures MonthForm(i, f) in MonthMap && MonthMap[MonthForm(i, f)] == TwoDigits(i + 1)
  {
    MonthFacts6();
    MonthKeys6();
    if f == 0 {
    } else if f == 1 {
    } else {
    }
  }

  lemma MonthFacts6()
    ensures MonthForm(5, 0) == "июн" && MonthForm(5, 1) == "июн." && MonthForm(5, 2) == "июня"
    ensures TwoDigits(6) == "06"
  {
  }

  lemma MonthKeys6()
    ensures "июн" in MonthMap && MonthMap["июн"] == "06"
    ensures "июн." in MonthMap && MonthMap["июн."] == "06"
    ensures "июня" in MonthMap && MonthMap["июня"] == "06"
  {
  }

  lemma MonthEntries7(i: nat, f: nat)
    requires i == 6 && f < 3
    ensures MonthForm(i, f) in MonthMap && MonthMap[MonthForm(i, f)] == TwoDigits(i + 1)
  {
    MonthFacts7();
    MonthKeys7();
    if f == 0 {
    } else if f == 1 {
    } else {
    }
  }

  lemma MonthFacts7()
    ensures MonthForm(6, 0) == "июл" && MonthForm(6, 1) == "июл." && MonthForm(6, 2) == "июля"
    ensures TwoDigits(7) == "07"
  {
  }

  lemma MonthKeys7()
    ensures "июл" in MonthMap && MonthMap["июл"] == "07"
    ensures "июл." in MonthMap && MonthMap["июл."] == "07"
    ensures "июля" in MonthMap && MonthMap["июля"] == "07"
  {
  }

  lemma MonthEntries8(i: nat, f: nat)
    requires i == 7 && f < 3
    ensures MonthForm(i, f) in MonthMap && MonthMap[MonthForm(i, f)] == TwoDigits(i + 1)
  {
    MonthFacts8();
    MonthKeys8();
    if f == 0 {
    } else if f == 1 {
    } else {
    }
  }

  lemma MonthFacts8()
    ensures MonthForm(7, 0) == "авг" && MonthForm(7, 1) == "авг." && MonthForm(7, 2) == "августа"
    ensures TwoDigits(8) == "08"
  {
  }

  lemma MonthKeys8()
    ensures "авг" in MonthMap && MonthMap["авг"] == "08"
    ensures "авг." in MonthMap && MonthMap["авг."] == "08"
    ensures "августа" in MonthMap && MonthMap["августа"] == "08"
  {
  }

  lemma MonthEntries9(i: nat, f: nat)
    requires i == 8 && f < 3
    ensures MonthForm(i, f) in MonthMap && MonthMap[MonthForm(i, f)] == TwoDigits(i + 1)
  {
    MonthFacts9();
    MonthKeys9();
    if f == 0 {
    } else if f == 1 {
    } else {
    }
  }

  lemma MonthFacts9()
    ensures MonthForm(8, 0) == "сент" && MonthForm(8, 1) == "сент." && MonthForm(8, 2) == "сентября"
    ensures TwoDigits(9) == "09"
  {
  }

  lemma MonthKeys9()
    ensures "сент" in MonthMap && MonthMap["сент"] == "09"
    ensures "сент." in MonthMap && MonthMap["сент."] == "09"
    ensures "сентября" in MonthMap && MonthMap["сентября"] == "09"
  {
  }

  lemma MonthEntries10(i: nat, f: nat)
    requires i == 9 && f < 3
    ensures MonthForm(i, f) in MonthMap && MonthMap[MonthForm(i, f)] == TwoDigits(i + 1)
  {
    MonthFacts10();
    MonthKeys10();
    if f == 0 {
    } else if f == 1 {
    } else {
    }
  }

  lemma MonthFacts10()
    ensures MonthForm(9, 0) == "окт" && MonthForm(9, 1) == "окт." && MonthForm(9, 2) == "октября"
    ensures TwoDigits(10) == "10"
  {
  }

  lemma MonthKeys10()
    ensures "окт" in MonthMap && MonthMap["окт"] == "10"
    ensures "окт." in MonthMap && MonthMap["окт."] == "10"
    ensures "октября" in MonthMap && MonthMap["октября"] == "10"
  {
  }

  lemma MonthEntries11(i: nat, f: nat)
    requires i == 10 && f < 3
    ensures MonthForm(i, f) in MonthMap && MonthMap[MonthForm(i, f)] == TwoDigits(i + 1)
  {
    MonthFacts11();
    MonthKeys11();
    if f == 0 {
    } else if f == 1 {
    } else {
    }
  }

  lemma MonthFacts11()
    ensures MonthForm(10, 0) == "нояб" && MonthForm(10, 1) == "нояб." && MonthForm(10, 2) == "ноября"
    ensures TwoDigits(11) == "11"
  {
  }

  lemma MonthKeys11()
    ensures "нояб" in MonthMap && MonthMap["нояб"] == "11"
    ensures "нояб." in MonthMap && MonthMap["нояб."] == "11"
    ensures "ноября" in MonthMap && MonthMap["ноября"] == "11"
  {
  }

  lemma MonthEntries12(i: nat, f: nat)
    requires i == 11 && f < 3
    ensures MonthForm(i, f) in MonthMap && MonthMap[MonthForm(i, f)] == TwoDigits(i + 1)
  {
    MonthFacts12();
    MonthKeys12();
    if f == 0 {
    } else if f == 1 {
    } else {
    }
  }

  lemma MonthFacts12()
    ensures MonthForm(11, 0) == "дек" && MonthForm(11, 1) == "дек." && MonthForm(11, 2) == "декабря"
    ensures TwoDigits(12) == "12"
  {
  }

  lemma MonthKeys12()
    ensures "дек" in MonthMap && MonthMap["дек"] == "12"
    ensures "дек." in MonthMap && MonthMap["дек."] == "12"
    ensures "декабря" in MonthMap && MonthMap["декабря"] == "12"
  {
  }

  /** Every month name is a non-empty lower-case Cyrillic word. */
  lemma MonthNamesLower(i: nat)
    requires i < 12
    ensures |MonthNames[i].0| > 0 && SmallCyrillic(MonthNames[i].0)
    ensures |MonthNames[i].1| > 0 && SmallCyrillic(MonthNames[i].1)
  {
    AbbreviationsLower(i);
    GenitivesLower(i);
  }

  lemma AbbreviationsLower(i: nat)
    requires i < 12
    ensures |MonthNames[i].0| > 0 && SmallCyrillic(MonthNames[i].0)
  {
  }

  lemma GenitivesLower(i: nat)
    requires i < 12
    ensures |MonthNames[i].1| > 0 && SmallCyrillic(MonthNames[i].1)
  {
    if i < 3 {
      GenitivesLowerWinter(i);
    } else if i < 6 {
      GenitivesLowerSpring(i);
    } else if i < 9 {
      GenitivesLowerSummer(i);
    } else {
      GenitivesLowerAutumn(i);
    }
  }

  lemma GenitivesLowerWinter(i: nat)
    requires i < 3
    ensures |MonthNames[i].1| > 0 && SmallCyrillic(MonthNames[i].1)
  {
  }

  lemma GenitivesLowerSpring(i: nat)
    requires 3 <= i < 6
    ensures |MonthNames[i].1| > 0 && SmallCyrillic(MonthNames[i].1)
  {
  }

  lemma GenitivesLowerSummer(i: nat)
    requires 6 <= i < 9
    ensures |MonthNames[i].1| > 0 && SmallCyrillic(MonthNames[i].1)
  {
  }

  lemma GenitivesLowerAutumn(i: nat)
    requires 9 <= i < 12
    ensures |MonthNames[i].1| > 0 && SmallCyrillic(MonthNames[i].1)
  {
  }

  /** Lower-casing leaves every spelling of a month name as it is. */
  lemma LowerMonthForm(i: nat, f: nat)
    requires i < 12 && f < 3
    ensures Lower(MonthForm(i, f)) == MonthForm(i, f)
  {
    MonthNamesLower(i);
    var w := MonthForm(i, f);
    if f == 1 {
      var a := MonthNames[i].0;
      SmallCyrillicIsLowerWord(a);
      assert w == a + ".";
      assert forall j :: 0 <= j < |w| ==> Lower(w)[j] == w[j] by {
        forall j | 0 <= j < |w| ensures Lower(w)[j] == w[j] {
          if j < |a| {
            assert Lower(a)[j] == LowerChar(a[j]);
          }
        }
      }
    } else {
      SmallCyrillicIsLowerWord(w);
    }
  }

  lemma {:induction false} AllInFromIndices(s: string, a: nat, b: nat, k: CharClass)
    requires a <= b <= |s|
    requires forall i :: a <= i < b ==> InClass(s[i], k)
    ensures AllIn(s, a, b, k)
    decreases b - a
  {
    if a < b {
      AllInFromIndices(s, a + 1, b, k);
    }
  }

  /** A date written the way the pattern expects: day, one space, month, one space, year. */
  function DateText(day: string, month: string, year: string): string {
    day + " " + month + " " + year
  }

  /** Such a text matches at its start, with the three groups being its three parts. */
  lemma DateTextMatches(day: string, word: string, dot: nat, month: string, year: string)
    requires 1 <= |day| <= 2 && AllDigits(day) && |year| == 4 && AllDigits(year)
    requires |word| >= 1 && forall j :: 0 <= j < |word| ==> IsWordChar(word[j])
    requires dot <= 1 && month == word + (if dot == 1 then "." else "")
    ensures DatePattern(DateText(day, month, year), DateMatch(0, |day|, 1, |word|, dot, 1))
    ensures Day(DateText(day, month, year), DateMatch(0, |day|, 1, |word|, dot, 1)) == day
    ensures Year(DateText(day, month, year), DateMatch(0, |day|, 1, |word|, dot, 1)) == year
    ensures Month(DateText(day, month, year), DateMatch(0, |day|, 1, |word|, dot, 1)) == month
  {
    DateTextParts(day, word, dot, month, year);
    DatePatternFromParts(DateText(day, month, year), DateMatch(0, |day|, 1, |word|, dot, 1), day, word, year);
  }

  /** A text whose stretches at the match's positions are a day, spaces, a word, a period and a year matches. */
  lemma DatePatternFromParts(s: string, m: DateMatch, day: string, word: string, year: string)
    requires 1 <= m.dayLen <= 2 && m.gap1 == 1 && m.wordLen >= 1 && m.dot <= 1 && m.gap2 == 1
    requires m.YearStart() + 4 <= |s| && m.dayLen == |day| && m.wordLen == |word|
    requires AllDigits(day) && AllDigits(year) && |year| == 4
    requires forall j :: 0 <= j < |word| ==> IsWordChar(word[j])
    requires s[m.start..m.start + m.dayLen] == day && s[m.start + m.dayLen..m.MonthStart()] == " "
    requires s[m.MonthStart()..m.MonthStart() + m.wordLen] == word
    requires m.dot == 1 ==> s[m.MonthStart() + m.wordLen] == '.'
    requires s[m.MonthStart() + m.wordLen + m.dot..m.YearStart()] == " "
    requires s[m.YearStart()..m.YearStart() + 4] == year
    ensures DatePattern(s, m)
  {
    var w, y := m.MonthStart(), m.YearStart();
    AllInPart(s, m.start, m.start + m.dayLen, day, Digit);
    AllInPart(s, m.start + m.dayLen, w, " ", Space);
    AllInPart(s, w, w + m.wordLen, word, Word);
    AllInPart(s, w + m.wordLen + m.dot, y, " ", Space);
    AllInPart(s, y, y + 4, year, Digit);
  }

  /** Where the parts of a date text sit, in the positions the match names. */
  lemma DateTextParts(day: string, word: string, dot: nat, month: string, year: string)
    requires dot <= 1 && month == word + (if dot == 1 then "." else "") && |year| == 4
    ensures var s := DateText(day, month, year);
      var m := DateMatch(0, |day|, 1, |word|, dot, 1);
      var w := m.MonthStart();
      var y := m.YearStart();
      && y + 4 == |s|
      && s[m.start..m.start + m.dayLen] == day && s[m.start + m.dayLen..w] == " "
      && s[w..w + m.wordLen] == word && (m.dot == 1 ==> s[w + m.wordLen] == '.')
      && s[w + m.wordLen + m.dot..y] == " " && s[y..y + 4] == year
      && Day(s, m) == day && Month(s, m) == month && Year(s, m) == year
  {
    var s := DateText(day, month, year);
    var w := |day| + 1;
    var y := w + |month| + 1;
    assert s == day + " " + month + " " + year;
    assert s[w..w + |month|] == month;
    assert s[w..w + |word|] == month[..|word|];
  }

  /** A stretch `a..b` of `s` that equals `part`, whose characters are all of class `k`, is a run of that class. */
  lemma AllInPart(s: string, a: nat, b: nat, part: string, k: CharClass)
    requires b == a + |part| && b <= |s| && s[a..b] == part
    requires forall j :: 0 <= j < |part| ==> InClass(part[j], k)
    ensures AllIn(s, a, b, k)
  {
    forall i | a <= i < b
      ensures InClass(s[i], k)
    {
      assert s[i] == part[i - a];
    }
    AllInFromIndices(s, a, b, k);
  }

  /** A spelling of a month is a word, followed by a period in the abbreviated form with one. */
  lemma MonthFormParts(i: nat, f: nat) returns (word: string, dot: nat)
    requires i < 12 && f < 3
    ensures |word| >= 1 && (forall j :: 0 <= j < |word| ==> IsWordChar(word[j])) && dot <= 1
    ensures MonthForm(i, f) == word + (if dot == 1 then "." else "")
  {
    MonthNamesLower(i);
    word := if f == 2 then MonthNames[i].1 else MonthNames[i].0;
    dot := if f == 1 then 1 else 0;
    SmallCyrillicIsLowerWord(word);
  }

  /** A match whose month group is a known spelling is reformatted with that month's number. */
  lemma ReformatKnownMonth(s: string, m: DateMatch, i: nat, f: nat)
    requires m.YearStart() + 4 <= |s| && i < 12 && f < 3 && Month(s, m) == MonthForm(i, f)
    ensures Reformat(s, m) == Some(Year(s, m) + "-" + TwoDigits(i + 1) + "-" + ZFill2(Day(s, m)))
  {
    LowerMonthForm(i, f);
    MonthFormsAgree(i, f);
  }

  /**
   * Every recognised spelling converts: "d month yyyy" with a one- or two-digit
   * day and a four-digit year becomes "yyyy-MM-dd", the day padded to two digits.
   */
  lemma DateRoundTrip(day: string, i: nat, f: nat, year: string)
    requires 1 <= |day| <= 2 && AllDigits(day) && |year| == 4 && AllDigits(year)
    requires i < 12 && f < 3
    ensures ConvertDateToIso(Some(DateText(day, MonthForm(i, f), year)))
      == Some(year + "-" + TwoDigits(i + 1) + "-" + ZFill2(day))
  {
    var word, dot := MonthFormParts(i, f);
    DateTextMatches(day, word, dot, MonthForm(i, f), year);
    var s := DateText(day, MonthForm(i, f), year);
    var m := DateMatch(0, |day|, 1, |word|, dot, 1);
    DateLeftmostDecides(s, m);
    ReformatKnownMonth(s, m, i, f);
  }

  lemma AugustSpellings()
    ensures MonthForm(7, 1) == "авг." && MonthForm(7, 2) == "августа" && TwoDigits(8) == "08"
  {
  }

  lemma ExampleDigits()
    ensures AllDigits("1") && AllDigits("28") && AllDigits("2025")
  {
  }

  lemma ExampleTexts(a: string, b: string)
    requires a == "28 авг. 2025" && b == "1 августа 2025"
    ensures a == DateText("28", MonthForm(7, 1), "2025") && b == DateText("1", MonthForm(7, 2), "2025")
  {
    AugustSpellings();
  }

  lemma ExampleIsoTexts()
    ensures "2025" + "-" + TwoDigits(8) + "-" + ZFill2("28") == "2025-08-28"
    ensures "2025" + "-" + TwoDigits(8) + "-" + ZFill2("1") == "2025-08-01"
  {
    AugustSpellings();
    assert ZFill2("1") == "01";
  }

  /** "28 авг. 2025" becomes "2025-08-28", and "1 августа 2025" becomes "2025-08-01" (the day is padded). */
  lemma DateExamples(a: string, b: string)
    requires a == "28 авг. 2025" && b == "1 августа 2025"
    ensures ConvertDateToIso(Some(a)) == Some("2025-08-28")
    ensures ConvertDateToIso(Some(b)) == Some("2025-08-01")
  {
    ExampleDigits();
    ExampleTexts(a, b);
    ExampleIsoTexts();
    DateRoundTrip("28", 7, 1, "2025");
    DateRoundTrip("1", 7, 2, "2025");
  }

  // ---------------------------------------------------------------------------
  // Age restriction: the pattern (\d+)\+
  // ---------------------------------------------------------------------------

  lemma AllInDigits(s: string, a: nat, b: nat)
    requires a <= b <= |s| && AllIn(s, a, b, Digit)
    ensures AllDigits(s[a..b])
  {
    forall i | 0 <= i < b - a
      ensures IsDigit(s[a..b][i])
    {
      AllInAt(s, a, b, Digit, a + i);
    }
  }

  /** `s[p..p + n]` is a run of digits directly followed by '+'. */
  ghost predicate AgePattern(s: string, p: nat, n: nat) {
    n >= 1 && p + n < |s| && AllDigits(s[p..p + n]) && s[p + n] == '+'
  }

  /**
   * The regex engine's attempt at position `p`: the greedy digit run, then '+'.
   * Giving digits back never helps, since the next character would be a digit.
   */
  function MatchAgeAt(s: string, p: nat): (r: Option<nat>)
    ensures r.Some? ==> p + r.value < |s| && AllDigits(s[p..p + r.value])
  {
    if p > |s| then None
    else
      var n := RunLength(s, p, Digit);
      RunLengthMaximal(s, p, Digit);
      AllInDigits(s, p, p + n);
      if n >= 1 && p + n < |s| && s[p + n] == '+' then Some(n) else None
  }

  lemma MatchAgeAtSound(s: string, p: nat)
    ensures MatchAgeAt(s, p).Some? ==> AgePattern(s, p, MatchAgeAt(s, p).value)
  {
    if p <= |s| {
      RunLengthMaximal(s, p, Digit);
      AllInDigits(s, p, p + RunLength(s, p, Digit));
    }
  }

  lemma MatchAgeAtComplete(s: string, p: nat, n: nat)
    requires AgePattern(s, p, n)
    ensures MatchAgeAt(s, p) == Some(n)
  {
    AllInFromIndices(s, p, p + n, Digit);
    RunLengthExact(s, p, n, Digit);
  }

  /** `re.search` with the age pattern from position `p` on: the leftmost match, if any. */
  function SearchAge(s: string, p: nat): (r: Option<(nat, nat)>)
    ensures r.Some? ==> p <= r.value.0 && MatchAgeAt(s, r.value.0) == Some(r.value.1)
                        && forall q :: p <= q < r.value.0 ==> MatchAgeAt(s, q).None?
    ensures r.None? ==> forall q :: p <= q ==> MatchAgeAt(s, q).None?
    decreases |s| - p
  {
    if p > |s| then None
    else match MatchAgeAt(s, p)
      case Some(n) => Some((p, n))
      case None => SearchAge(s, p + 1)
  }

  /**
   * `_extract_age_from_restriction`: `int` of the first digit run followed by
   * '+'; a run too long for `int()` raises, and the bare `except` gives `None`.
   */
  function ExtractAgeFromRestriction(restriction: Option<string>): (r: Option<int>)
    ensures r.Some? ==> r.value >= 0
  {
    if restriction.None? || restriction.value == "" then None
    else match SearchAge(restriction.value, 0)
      case None => None
      case Some((p, n)) => if n > MaxStrDigits then None else Some(ParseNat(restriction.value[p..p + n]))
  }

  /** The search returns the leftmost match, and nothing exactly when there is none. */
  lemma SearchAgeLeftmost(s: string)
    ensures SearchAge(s, 0).None? <==> forall p, n :: !AgePattern(s, p, n)
    ensures SearchAge(s, 0).Some? ==>
      var (p, n) := SearchAge(s, 0).value;
      AgePattern(s, p, n) && forall p', n' :: AgePattern(s, p', n') ==> p <= p'
  {
    var r := SearchAge(s, 0);
    if r.Some? {
      MatchAgeAtSound(s, r.value.0);
    }
    forall p', n' | AgePattern(s, p', n')
      ensures r.Some? && r.value.0 <= p'
    {
      MatchAgeAtComplete(s, p', n');
    }
  }

  /** No digit run followed by '+' means no age. */
  lemma AgeWithoutMatch(s: string)
    requires forall p, n :: !AgePattern(s, p, n)
    ensures ExtractAgeFromRestriction(Some(s)) == None
  {
    SearchAgeLeftmost(s);
  }

  /**
   * The leftmost digit run followed by '+' decides the age; it starts a maximal
   * run, so "12 16+" gives 16 and "a123+" gives 123, never a suffix of the digits.
   */
  lemma AgeLeftmostDecides(s: string, p: nat, n: nat)
    requires AgePattern(s, p, n)
    requires forall p', n' :: AgePattern(s, p', n') ==> p <= p'
    ensures ExtractAgeFromRestriction(Some(s)) == if n <= MaxStrDigits then Some(ParseNat(s[p..p + n])) else None
    ensures p == 0 || !IsDigit(s[p - 1])
  {
    SearchAgeLeftmost(s);
    var (q, k) := SearchAge(s, 0).value;
    MatchAgeAtComplete(s, p, n);
    MatchAgeAtComplete(s, q, k);
    assert q == p && k == n;
    AgeExtendsLeft(s, p, n);
  }

  /** A digit just before a match would start a longer match one place to the left. */
  lemma AgeExtendsLeft(s: string, p: nat, n: nat)
    requires AgePattern(s, p, n)
    ensures p > 0 && IsDigit(s[p - 1]) ==> AgePattern(s, p - 1, n + 1)
  {
    if p > 0 {
      assert s[p - 1..p + n] == [s[p - 1]] + s[p..p + n];
    }
  }

  /** A number written after text without digits and followed by '+' is read back, up to `int()`'s digit limit. */
  lemma AgeRoundTrip(prefix: string, n: nat, rest: string)
    requires !HasDigit(prefix)
    ensures ExtractAgeFromRestriction(Some(prefix + NatToString(n) + "+" + rest))
         == if |NatToString(n)| <= MaxStrDigits then Some(n) else None
  {
    ParseNatToString(n);
    AgeDigitsRead(prefix, NatToString(n), rest);
    ConcatAssoc(prefix, NatToString(n), "+", rest);
  }

  /** Digits after text without digits and followed by '+' are the age. */
  lemma AgeDigitsRead(prefix: string, digits: string, rest: string)
    requires !HasDigit(prefix) && |digits| >= 1 && AllDigits(digits)
    ensures ExtractAgeFromRestriction(Some(prefix + (digits + "+" + rest)))
         == if |digits| <= MaxStrDigits then Some(ParseNat(digits)) else None
  {
    var s := prefix + (digits + "+" + rest);
    var p, n := |prefix|, |digits|;
    assert s[p..p + n] == digits && AgePattern(s, p, n) by {
      AgeDigitsAfter(prefix, digits, rest);
    }
    assert ExtractAgeFromRestriction(Some(s)) == if n <= MaxStrDigits then Some(ParseNat(s[p..p + n])) else None by {
      AgeNothingBefore(prefix, digits + "+" + rest);
      AgeLeftmostDecides(s, p, n);
    }
  }

  lemma ConcatAssoc(a: string, b: string, c: string, d: string)
    ensures a + b + c + d == a + (b + c + d)
  {
  }

  lemma AgeDigitsAfter(prefix: string, digits: string, rest: string)
    requires |digits| >= 1 && AllDigits(digits)
    ensures var s := prefix + (digits + "+" + rest);
      AgePattern(s, |prefix|, |digits|) && s[|prefix|..|prefix| + |digits|] == digits
  {
    var s := prefix + (digits + "+" + rest);
    var p := |prefix|;
    assert s[p..p + |digits|] == digits;
    assert s[p + |digits|] == '+';
  }

  lemma AgeNothingBefore(prefix: string, rest: string)
    requires !HasDigit(prefix)
    ensures forall p, n :: AgePattern(prefix + rest, p, n) ==> |prefix| <= p
  {
    var s := prefix + rest;
    forall p: nat, n: nat | AgePattern(s, p, n)
      ensures |prefix| <= p
    {
      assert IsDigit(s[p..p + n][0]);
    }
  }

  lemma AgeExampleSpelling(a: string)
    requires a == "16+"
    ensures a == "" + NatToString(16) + "+" + ""
  {
  }

  lemma AgeExampleLater(b: string)
    requires b == "12 16+"
    ensures AgePattern(b, 3, 2) && b[3..5] == NatToString(16)
    ensures forall p, n :: AgePattern(b, p, n) ==> 3 <= p
  {
    assert b[0] == '1' && b[1] == '2' && b[2] == ' ' && b[3] == '1' && b[4] == '6' && b[5] == '+';
    assert b[3..5] == "16" && NatToString(16) == "16";
  }

  /** "16+" gives 16, and so does "12 16+": the "12" is not followed by '+'. */
  lemma AgeExamples(a: string, b: string)
    requires a == "16+" && b == "12 16+"
    ensures ExtractAgeFromRestriction(Some(a)) == Some(16)
    ensures ExtractAgeFromRestriction(Some(b)) == Some(16)
  {
    AgeExampleSpelling(a);
    assert !HasDigit("");
    AgeRoundTrip("", 16, "");
    AgeExampleLater(b);
    AgeLeftmostDecides(b, 3, 2);
    ParseNatToString(16);
  }
}
