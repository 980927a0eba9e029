/**
 * Character classes and decimal numerals used by the value converters and by
 * the retry loop's failure message.
 *
 * Python's `\d`, `\s`, `\w` and `str.lower()` are Unicode-aware; this module
 * approximates them: digits are ASCII digits, whitespace is exactly the set
 * `str.isspace()` accepts, word characters are ASCII letters and digits, `_`
 * and the Cyrillic letters, and lower-casing covers ASCII and the Cyrillic block.
 */
module Text {

  predicate IsDigit(c: char) {
    '0' <= c <= '9'
  }

  predicate AllDigits(s: string) {
    forall i :: 0 <= i < |s| ==> IsDigit(s[i])
  }

  function DigitValue(c: char): (d: nat)
    requires IsDigit(c)
    ensures d < 10
  {
    (c as int) - ('0' as int)
  }

  function DigitChar(d: nat): (c: char)
    requires d < 10
    ensures IsDigit(c) && DigitValue(c) == d
  {
    (('0' as int) + d) as char
  }

  /** `int(s)` for a non-empty string of digits, read left to right. */
  function ParseNat(s: string): nat
    requires AllDigits(s)
  {
    if s == [] then 0 else ParseNat(s[..|s| - 1]) * 10 + DigitValue(s[|s| - 1])
  }

  /**
   * The most digits `int()` accepts in a decimal string; a longer one raises
   * `ValueError` (`sys.int_info.default_max_str_digits`, Python 3.11 and the
   * 3.10.7 and 3.9.14 security releases).
   */
  const MaxStrDigits: nat := 4300

  /** `str(n)` for a non-negative integer: its decimal digits, no leading zero. */
  function NatToString(n: nat): (s: string)
    ensures |s| > 0 && AllDigits(s)
    ensures |s| > 1 ==> s[0] != '0'
  {
    if n < 10 then [DigitChar(n)] else NatToString(n / 10) + [DigitChar(n % 10)]
  }

  /** Reading back the decimal string of `n` gives `n`. */
  lemma {:induction false} ParseNatToString(n: nat)
    ensures ParseNat(NatToString(n)) == n
  {
    var s := NatToString(n);
    if n >= 10 {
      ParseNatToString(n / 10);
      assert s[..|s| - 1] == NatToString(n / 10);
    }
  }

  /** Exactly the characters Python's `str.isspace()` (and so the regex `\s`) accepts. */
  predicate IsSpace(c: char) {
    ('\U{0009}' <= c <= '\U{000D}') || ('\U{001C}' <= c <= '\U{0020}') || c == '\U{0085}'
    || c == '\U{00A0}' || c == '\U{1680}' || ('\U{2000}' <= c <= '\U{200A}')
    || c == '\U{2028}' || c == '\U{2029}' || c == '\U{202F}' || c == '\U{205F}' || c == '\U{3000}'
  }

  predicate IsCyrillicLetter(c: char) {
    ('\U{0400}' <= c <= '\U{0481}') || ('\U{048A}' <= c <= '\U{04FF}')
  }

  /** The regex `\w`: letters (ASCII and Cyrillic), digits and the underscore. */
  predicate IsWordChar(c: char) {
    ('a' <= c <= 'z') || ('A' <= c <= 'Z') || IsDigit(c) || c == '_' || IsCyrillicLetter(c)
  }

  /** `str.lower()` on one character of the ASCII or Cyrillic range; others are kept. */
  function LowerChar(c: char): (l: char)
    ensures IsWordChar(c) <==> IsWordChar(l)
    ensures IsSpace(l) <==> IsSpace(c)
    ensures l == '.' <==> c == '.'
  {
    var n := c as int;
    if 'A' <= c <= 'Z' then (n + 32) as char
    else if '\U{0400}' <= c <= '\U{040F}' then (n + 0x50) as char
    else if '\U{0410}' <= c <= '\U{042F}' then (n + 0x20) as char
    else if c == '\U{04C0}' then '\U{04CF}'
    else if ('\U{0460}' <= c <= '\U{0481}' || '\U{048A}' <= c <= '\U{04BF}' || '\U{04D0}' <= c <= '\U{04FF}') && n % 2 == 0 then (n + 1) as char
    else if '\U{04C1}' <= c <= '\U{04CE}' && n % 2 == 1 then (n + 1) as char
    else c
  }

  function Lower(s: string): (r: string)
    ensures |r| == |s|
    ensures forall i :: 0 <= i < |s| ==> r[i] == LowerChar(s[i])
  {
    if s == [] then [] else [LowerChar(s[0])] + Lower(s[1..])
  }

  /** Small Cyrillic letters а..я, each of which lower-casing leaves alone. */
  predicate SmallCyrillic(s: string) {
    s == [] || ('а' <= s[0] <= 'я' && SmallCyrillic(s[1..]))
  }

  lemma {:induction false} SmallCyrillicIsLowerWord(s: string)
    requires SmallCyrillic(s)
    ensures Lower(s) == s
    ensures forall i :: 0 <= i < |s| ==> IsWordChar(s[i]) && s[i] != '.' && !IsSpace(s[i])
  {
    if s != [] {
      SmallCyrillicIsLowerWord(s[1..]);
    }
  }
}
