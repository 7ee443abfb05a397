/**
 * The `YYYY-MM-DD` text of a date (the `full-date` production of section 5.6 of
 * RFC 3339): reading it as `new Date(text)` does for date-only strings, and writing
 * it as `date.toISOString().split("T")[0]` does.
 */
module IsoDate {
  import opened Basics
  import opened Calendar

  predicate IsDigit(c: char) {
    '0' <= c <= '9'
  }

  predicate AllDigits(s: string) {
    forall i :: 0 <= i < |s| ==> IsDigit(s[i])
  }

  function DigitValue(c: char): (n: int)
    requires IsDigit(c)
    ensures 0 <= n <= 9
  {
    c as int - '0' as int
  }

  function DigitChar(n: int): (c: char)
    requires 0 <= n <= 9
    ensures IsDigit(c) && DigitValue(c) == n
  {
    ('0' as int + n) as char
  }

  function Pow10(w: nat): (p: nat)
    ensures p >= 1
  {
    if w == 0 then 1 else 10 * Pow10(w - 1)
  }

  /** The last `width` decimal digits of n, most significant first. */
  function Digits(n: nat, width: nat): (s: string)
    ensures |s| == width && AllDigits(s)
  {
    if width == 0 then [] else Digits(n / 10, width - 1) + [DigitChar(n % 10)]
  }

  /** The number a string of decimal digits denotes. */
  function Value(s: string): nat
    requires AllDigits(s)
  {
    if s == [] then 0 else 10 * Value(s[..|s| - 1]) + DigitValue(s[|s| - 1])
  }

  lemma {:induction false} ValueOfDigits(n: nat, width: nat)
    requires n < Pow10(width)
    ensures Value(Digits(n, width)) == n
  {
    if width > 0 {
      var s := Digits(n, width);
      var init, last := Digits(n / 10, width - 1), DigitChar(n % 10);
      assert s == init + [last];
      assert s[..|s| - 1] == init && s[|s| - 1] == last;
      ValueOfDigits(n / 10, width - 1);
      assert Value(s) == 10 * Value(init) + DigitValue(last);
    }
  }

  lemma {:induction false} DigitsOfValue(s: string)
    requires AllDigits(s)
    ensures Value(s) < Pow10(|s|)
    ensures Digits(Value(s), |s|) == s
  {
    if s != [] {
      var init := s[..|s| - 1];
      DigitsOfValue(init);
      assert Value(s) / 10 == Value(init) && Value(s) % 10 == DigitValue(s[|s| - 1]);
      assert s == init + [s[|s| - 1]];
    }
  }

  /** How toISOString writes a year: four digits, or a sign and six digits outside 0..9999. */
  function YearText(y: int): string {
    if 0 <= y <= 9999 then Digits(y, 4)
    else if y > 9999 then "+" + Digits(y, 6)
    else "-" + Digits(-y, 6)
  }

  /** `date.toISOString().split("T")[0]` for a date at UTC midnight. */
  function Format(d: Date): (r: string)
    requires IsValid(d)
    ensures 0 <= d.year <= 9999 ==> |r| == 10 && r[4] == '-' && r[7] == '-'
    ensures d.year > 9999 ==> |r| == 13 && r[0] == '+'
    ensures d.year < 0 ==> |r| == 13 && r[0] == '-'
  {
    YearText(d.year) + "-" + Digits(d.month, 2) + "-" + Digits(d.day, 2)
  }

  /** The numeric fields of a ten-character `DDDD-DD-DD` string, without range checks. */
  function Fields(s: string): Option<(nat, nat, nat)> {
    if |s| == 10 && s[4] == '-' && s[7] == '-'
       && AllDigits(s[..4]) && AllDigits(s[5..7]) && AllDigits(s[8..])
    then Some((Value(s[..4]), Value(s[5..7]), Value(s[8..])))
    else None
  }

  /** `new Date(s)` for a date-only string: a valid calendar date, or an invalid Date (None). */
  function Parse(s: string): (r: Option<Date>)
    ensures r.Some? ==> IsValid(r.value) && 0 <= r.value.year <= 9999
  {
    match Fields(s)
    case Some((y, m, d)) =>
      DigitsOfValue(s[..4]);
      if IsValid(Date(y, m, d)) then Some(Date(y, m, d)) else None
    case None => None
  }

  /** Where the three fields of a written date sit. */
  lemma FormatShape(d: Date)
    requires IsValid(d) && 0 <= d.year <= 9999
    ensures var s := Format(d);
            |s| == 10 && s[4] == '-' && s[7] == '-'
            && s[..4] == Digits(d.year, 4) && s[5..7] == Digits(d.month, 2) && s[8..] == Digits(d.day, 2)
  {
    var y, m, n := Digits(d.year, 4), Digits(d.month, 2), Digits(d.day, 2);
    assert Format(d) == y + "-" + m + "-" + n;
  }

  /** Reading back what was written gives the same date. */
  lemma ParseFormat(d: Date)
    requires IsValid(d) && 0 <= d.year <= 9999
    ensures Parse(Format(d)) == Some(d)
  {
    var s := Format(d);
    FormatShape(d);
    ValueOfDigits(d.year, 4);
    ValueOfDigits(d.month, 2);
    ValueOfDigits(d.day, 2);
    assert Fields(s) == Some((d.year, d.month, d.day));
  }

  /** A string with fields is its three digit runs joined by dashes. */
  lemma FieldsSplit(s: string)
    requires Fields(s).Some?
    ensures |s| == 10 && s == s[..4] + "-" + s[5..7] + "-" + s[8..]
    ensures AllDigits(s[..4]) && AllDigits(s[5..7]) && AllDigits(s[8..])
    ensures Fields(s).value == (Value(s[..4]), Value(s[5..7]), Value(s[8..]))
  {
  }

  /** A date whose fields are written as y, m and n is written as `y-m-n`. */
  lemma FormatOfDigits(d: Date, y: string, m: string, n: string)
    requires IsValid(d) && 0 <= d.year <= 9999
    requires Digits(d.year, 4) == y && Digits(d.month, 2) == m && Digits(d.day, 2) == n
    ensures Format(d) == y + "-" + m + "-" + n
  {
  }

  /** Every string that reads as a date is exactly how that date is written. */
  lemma FormatParse(s: string)
    requires Parse(s).Some?
    ensures Format(Parse(s).value) == s
  {
    var d := Parse(s).value;
    FieldsSplit(s);
    var y, m, n := s[..4], s[5..7], s[8..];
    assert d == Date(Value(y), Value(m), Value(n));
    DigitsOfValue(y);
    DigitsOfValue(m);
    DigitsOfValue(n);
    FormatOfDigits(d, y, m, n);
  }
}
