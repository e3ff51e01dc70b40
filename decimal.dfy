/**
 * Decimal text of integers, as Python's f-strings render them (`f"{year}"`),
 * its inverse, and `date.strftime("%Y-%m-%d")` for the default date.
 */
module Decimal {
  import opened Results
  import Text

  predicate IsDigit(c: char) {
    '0' <= c <= '9'
  }

  predicate AllDigits(s: string) {
    forall k :: 0 <= k < |s| ==> IsDigit(s[k])
  }

  function Digit(d: nat): char
    requires d < 10
  {
    ('0' as int + d) as char
  }

  function DigitValue(c: char): nat
    requires IsDigit(c)
  {
    c as int - '0' as int
  }

  /** The decimal digits of `n`, most significant first, without leading zeros. */
  function NatToString(n: nat): string
    decreases n
  {
    if n < 10 then [Digit(n)] else NatToString(n / 10) + [Digit(n % 10)]
  }

  /** `str(i)` for a Python int: a leading '-' for negative values. */
  function IntToString(i: int): string {
    if i < 0 then "-" + NatToString(-i) else NatToString(i)
  }

  /** The value of a non-empty string of digits. */
  function DigitsValue(s: string): nat
    requires |s| > 0 && AllDigits(s)
    decreases |s|
  {
    if |s| == 1 then DigitValue(s[0])
    else 10 * DigitsValue(s[..|s| - 1]) + DigitValue(s[|s| - 1])
  }

  /** Reads back exactly the texts `IntToString` produces. */
  function ParseInt(s: string): Option<int> {
    var negative := |s| > 0 && s[0] == '-';
    var digits := if negative then s[1..] else s;
    if |digits| == 0 || !AllDigits(digits) then None
    else
      var n: int := if negative then 0 - DigitsValue(digits) as int else DigitsValue(digits);
      if IntToString(n) == s then Some(n) else None
  }

  /** The rendering of a natural number is a non-empty digit string whose value is that number. */
  lemma {:induction false} NatToStringDigits(n: nat)
    ensures |NatToString(n)| >= 1 && AllDigits(NatToString(n))
    ensures DigitsValue(NatToString(n)) == n
    decreases n
  {
    if n >= 10 {
      NatToStringDigits(n / 10);
      var s := NatToString(n);
      assert s[..|s| - 1] == NatToString(n / 10);
    }
  }

  /** Digit strings never contain a separator character used by the server. */
  lemma NoSeparatorInDigits(n: nat)
    ensures '-' !in NatToString(n) && '/' !in NatToString(n)
  {
    NatToStringDigits(n);
  }

  /** Every integer's text reads back as that integer. */
  lemma ParseIntToString(i: int)
    ensures ParseInt(IntToString(i)) == Some(i)
  {
    var s := IntToString(i);
    if i < 0 {
      NatToStringDigits(-i);
      assert s[0] == '-' && s[1..] == NatToString(-i);
      assert 0 - DigitsValue(s[1..]) as int == i;
    } else {
      NatToStringDigits(i);
      assert s == NatToString(i) && s[0] != '-';
      assert DigitsValue(s) == i;
    }
  }

  /** The year 2024 renders as "2024", one digit at a time. */
  lemma IntToString2024()
    ensures IntToString(2024) == "2024"
  {
    assert Digit(2) == '2' && Digit(0) == '0' && Digit(4) == '4';
    assert NatToString(2) == "2";
    assert NatToString(20) == NatToString(2) + [Digit(0)] == "20";
    assert NatToString(202) == NatToString(20) + [Digit(2)] == "202";
    assert NatToString(2024) == NatToString(202) + [Digit(4)] == "2024";
  }

  /** The text of an integer never contains '/'. */
  lemma NoSlashInInt(i: int)
    ensures '/' !in IntToString(i)
  {
    if i < 0 {
      NoSeparatorInDigits(-i);
      assert IntToString(i) == ['-'] + NatToString(-i);
    } else {
      NoSeparatorInDigits(i);
    }
  }

  // ---------------------------------------------------------------- calendar dates

  /** A calendar date as `date.today()` returns it. */
  datatype Date = Date(year: int, month: int, day: int)

  /**
   * A date whose `%Y` rendering is four digits: strftime pads smaller years
   * differently across platforms, and no clock reading of the present is below 1000.
   */
  predicate ValidToday(d: Date) {
    1000 <= d.year <= 9999 && 1 <= d.month <= 12 && 1 <= d.day <= 31
  }

  /** `%m` / `%d`: two digits, zero-padded. */
  function Pad2(n: nat): string
    requires n < 100
  {
    if n < 10 then "0" + NatToString(n) else NatToString(n)
  }

  /** `d.strftime("%Y-%m-%d")`. */
  function FormatDate(d: Date): string
    requires ValidToday(d)
  {
    NatToString(d.year) + "-" + Pad2(d.month) + "-" + Pad2(d.day)
  }

  lemma Pad2Digits(n: nat)
    requires n < 100
    ensures |Pad2(n)| == 2 && '-' !in Pad2(n) && '/' !in Pad2(n)
  {
    NoSeparatorInDigits(n);
    if n < 10 {
      assert Pad2(n) == ['0'] + NatToString(n);
    } else {
      assert NatToString(n) == NatToString(n / 10) + [Digit(n % 10)];
    }
  }

  /** The formatted date splits on '-' into a four-digit year and two-digit month and day. */
  lemma {:induction false} FormatDateSplit(d: Date)
    requires ValidToday(d)
    ensures Text.Split(FormatDate(d), '-') == [NatToString(d.year), Pad2(d.month), Pad2(d.day)]
    ensures |NatToString(d.year)| == 4
  {
    var y, m, dd := NatToString(d.year), Pad2(d.month), Pad2(d.day);
    NoSeparatorInDigits(d.year);
    Pad2Digits(d.month);
    Pad2Digits(d.day);
    assert FormatDate(d) == y + ['-'] + (m + ['-'] + dd);
    Text.SplitCons(y, '-', m + ['-'] + dd);
    Text.SplitCons(m, '-', dd);
    assert Text.Split(dd, '-') == [dd];
    FourDigitYear(d.year);
  }

  /** A year in 1000..9999 has four digits. */
  lemma FourDigitYear(y: nat)
    requires 1000 <= y <= 9999
    ensures |NatToString(y)| == 4
  {
    var c := y / 10;
    var b := c / 10;
    var a := b / 10;
    assert 100 <= c < 1000 && 10 <= b < 100 && 1 <= a < 10;
    assert |NatToString(b)| == 2;
    assert |NatToString(c)| == 3;
  }
}
