/**
 * The date normalisation of `format_date`: `Time.parse` is library code that
 * is not part of this model and stays a parameter; `strftime('%Y-%m-%d')` is
 * written out, together with a reader that recovers the date from its output.
 */
module DateFormat {
  import opened Wrappers

  datatype CalendarDate = CalendarDate(year: int, month: int, day: int)

  /** A day as `Time.parse` yields it: month and day within range. */
  type Date = d: CalendarDate | 1 <= d.month <= 12 && 1 <= d.day <= 31
    witness CalendarDate(1970, 1, 1)

  /** `Time.parse`: the day it reads from a string, or None where it raises ArgumentError. */
  type TimeParser = string -> Option<Date>

  predicate IsDigit(c: char) {
    '0' <= c <= '9'
  }

  predicate AllDigits(s: string) {
    forall i :: 0 <= i < |s| ==> IsDigit(s[i])
  }

  function DigitChar(n: nat): (c: char)
    requires n < 10
    ensures IsDigit(c)
  {
    (48 + n) as char
  }

  function DigitValue(c: char): (n: nat)
    requires IsDigit(c)
    ensures n < 10 && DigitChar(n) == c
  {
    c as int - 48
  }

  /** The number a string of decimal digits denotes, most significant digit first. */
  function ValueOf(s: string): nat
    requires AllDigits(s)
  {
    if s == [] then 0 else ValueOf(s[..|s| - 1]) * 10 + DigitValue(s[|s| - 1])
  }

  /** The decimal digits of `n` without leading zeros. */
  function Decimal(n: nat): (s: string)
    ensures 1 <= |s| && AllDigits(s)
    ensures n < 10 ==> |s| == 1
    ensures n < 100 ==> |s| <= 2
    ensures n < 10000 ==> |s| <= 4
  {
    if n < 10 then [DigitChar(n)] else Decimal(n / 10) + [DigitChar(n % 10)]
  }

  /** `s` with zeros in front up to `width` characters, as strftime pads a field. */
  function ZeroPad(s: string, width: nat): (r: string)
    ensures |r| == if |s| < width then width else |s|
  {
    if |s| < width then seq(width - |s|, _ => '0') + s else s
  }

  /** The `%Y` field: at least four digits, a minus sign in front of a negative year. */
  function YearField(year: int): string {
    if year >= 0 then ZeroPad(Decimal(year), 4) else "-" + ZeroPad(Decimal(-year), 4)
  }

  /** `strftime('%Y-%m-%d')`. */
  function Strftime(d: Date): string {
    YearField(d.year) + "-" + ZeroPad(Decimal(d.month), 2) + "-" + ZeroPad(Decimal(d.day), 2)
  }

  /** Reads a `%Y` field back: an optional minus sign, then at least four digits. */
  function ReadYear(y: string): Option<int> {
    if y != [] && y[0] == '-' then
      (if |y| >= 5 && AllDigits(y[1..]) then Some(0 - ValueOf(y[1..])) else None)
    else if |y| >= 4 && AllDigits(y) then Some(ValueOf(y) as int)
    else None
  }

  /** Reads a two-digit field back, within `lo..hi`. */
  function ReadField(f: string, lo: int, hi: int): Option<int> {
    if |f| == 2 && AllDigits(f) && lo <= ValueOf(f) <= hi then Some(ValueOf(f) as int) else None
  }

  /** Reads a day back from the form `Strftime` writes; None for anything else. */
  function ParseYmd(s: string): Option<Date> {
    if |s| < 10 || s[|s| - 6] != '-' || s[|s| - 3] != '-' then None
    else
      var year, month, day := ReadYear(s[..|s| - 6]), ReadField(s[|s| - 5..|s| - 3], 1, 12), ReadField(s[|s| - 2..], 1, 31);
      if year.Some? && month.Some? && day.Some? then Some(CalendarDate(year.value, month.value, day.value)) else None
  }

  lemma ValueOfSnoc(s: string, c: char)
    requires AllDigits(s) && IsDigit(c)
    ensures AllDigits(s + [c]) && ValueOf(s + [c]) == ValueOf(s) * 10 + DigitValue(c)
  {
    assert (s + [c])[..|s|] == s;
  }

  /** Reading the digits `Decimal` writes gives the number back. */
  lemma {:induction false} ValueOfDecimal(n: nat)
    ensures ValueOf(Decimal(n)) == n
  {
    if n >= 10 {
      ValueOfDecimal(n / 10);
      ValueOfSnoc(Decimal(n / 10), DigitChar(n % 10));
    }
  }

  lemma {:induction false} ValueOfZeros(k: nat)
    ensures AllDigits(seq(k, _ => '0')) && ValueOf(seq(k, _ => '0')) == 0
  {
    if k > 0 {
      ValueOfZeros(k - 1);
      assert seq(k, _ => '0')[..k - 1] == seq(k - 1, _ => '0');
    }
  }

  /** Leading zeros do not change the value of a digit string. */
  lemma {:induction false} ValueOfLeadingZeros(k: nat, s: string)
    requires AllDigits(s)
    ensures AllDigits(seq(k, _ => '0') + s) && ValueOf(seq(k, _ => '0') + s) == ValueOf(s)
  {
    var z := seq(k, _ => '0');
    if s == [] {
      ValueOfZeros(k);
      assert z + s == z;
    } else {
      var init := s[..|s| - 1];
      ValueOfLeadingZeros(k, init);
      assert z + s == (z + init) + [s[|s| - 1]];
      assert s == init + [s[|s| - 1]];
      ValueOfSnoc(z + init, s[|s| - 1]);
      ValueOfSnoc(init, s[|s| - 1]);
    }
  }

  /** A zero-padded field reads back as the number it was written from. */
  lemma PaddedValue(n: nat, width: nat)
    ensures AllDigits(ZeroPad(Decimal(n), width)) && ValueOf(ZeroPad(Decimal(n), width)) == n
  {
    var s := Decimal(n);
    ValueOfDecimal(n);
    if |s| < width {
      ValueOfLeadingZeros(width - |s|, s);
    }
  }

  lemma ReadYearField(year: int)
    ensures ReadYear(YearField(year)) == Some(year)
  {
    if year >= 0 {
      var y := ZeroPad(Decimal(year), 4);
      PaddedValue(year, 4);
      assert IsDigit(y[0]);
      assert ReadYear(y) == Some(ValueOf(y) as int);
    } else {
      var digits := ZeroPad(Decimal(-year), 4);
      var y := "-" + digits;
      PaddedValue(-year, 4);
      assert y[0] == '-' && y[1..] == digits;
      assert ReadYear(y) == Some(0 - ValueOf(digits));
    }
  }

  lemma ReadPaddedField(n: nat, lo: int, hi: int)
    requires n < 100 && lo <= n <= hi
    ensures ReadField(ZeroPad(Decimal(n), 2), lo, hi) == Some(n)
  {
    PaddedValue(n, 2);
  }

  /** A string made of a year, a month and a day field reads as those three fields. */
  lemma ParseFields(y: string, m: string, d: string)
    requires |y| >= 4 && |m| == 2 && |d| == 2
    ensures var year, month, day := ReadYear(y), ReadField(m, 1, 12), ReadField(d, 1, 31);
      ParseYmd(y + "-" + m + "-" + d) ==
        if year.Some? && month.Some? && day.Some? then Some(CalendarDate(year.value, month.value, day.value)) else None
  {
    var s := y + "-" + m + "-" + d;
    assert s[|s| - 6] == '-' && s[|s| - 3] == '-';
    assert s[..|s| - 6] == y && s[|s| - 5..|s| - 3] == m && s[|s| - 2..] == d;
  }

  /** Reading back what `strftime('%Y-%m-%d')` writes gives the same day. */
  lemma StrftimeRoundTrip(d: Date)
    ensures ParseYmd(Strftime(d)) == Some(d)
  {
    ReadYearField(d.year);
    ReadPaddedField(d.month, 1, 12);
    ReadPaddedField(d.day, 1, 31);
    ParseFields(YearField(d.year), ZeroPad(Decimal(d.month), 2), ZeroPad(Decimal(d.day), 2));
  }

  /** For years 0 to 9999 the result is exactly `YYYY-MM-DD`: ten characters, digits around two dashes. */
  lemma StrftimeShape(d: Date)
    requires 0 <= d.year <= 9999
    ensures var s := Strftime(d);
      && |s| == 10 && s[4] == '-' && s[7] == '-'
      && AllDigits(s[..4]) && AllDigits(s[5..7]) && AllDigits(s[8..])
  {
    var s := Strftime(d);
    var y := YearField(d.year);
    var m := ZeroPad(Decimal(d.month), 2);
    var dd := ZeroPad(Decimal(d.day), 2);
    assert s == y + "-" + m + "-" + dd;
    assert |y| == 4 && |m| == 2 && |dd| == 2;
    PaddedValue(d.year, 4);
    PaddedValue(d.month, 2);
    PaddedValue(d.day, 2);
    assert s[..4] == y && s[5..7] == m && s[8..] == dd;
  }

  /** 15 March 2024 is written `2024-03-15`. */
  lemma StrftimeExample()
    ensures Strftime(CalendarDate(2024, 3, 15)) == "2024-03-15"
  {
    assert Decimal(2024) == "2024";
    assert Decimal(3) == "3";
    assert Decimal(15) == "15";
  }
}
