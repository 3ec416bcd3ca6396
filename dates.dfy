/**
 * Calendar dates as Go's time package handles the layout "2006-01-02":
 * parsing, formatting, the successor day that AddDate(0, 0, 1) gives for a
 * time at midnight, and Time.IsZero for such a time. A date parsed with this
 * layout carries no clock part, so a Go time is modelled here by its date.
 */
module Dates {
  import opened Wrappers
  import opened Text

  datatype Date = Date(year: int, month: int, day: int)

  /** January 1 of year 1, which is what Go's zero time.Time is at midnight. */
  const Zero := Date(1, 1, 1)

  /** Time.IsZero for a time at midnight UTC. */
  predicate IsZero(d: Date) { d == Zero }

  /** Gregorian leap years, as Go's isLeap (year 0 is a leap year). */
  predicate IsLeap(y: int) { y % 4 == 0 && (y % 100 != 0 || y % 400 == 0) }

  function DaysIn(month: int, year: int): (n: int)
    requires 1 <= month <= 12
    ensures 28 <= n <= 31
  {
    if month == 2 then (if IsLeap(year) then 29 else 28)
    else if month == 4 || month == 6 || month == 9 || month == 11 then 30
    else 31
  }

  predicate ValidDate(d: Date) {
    1 <= d.month <= 12 && 1 <= d.day <= DaysIn(d.month, d.year)
  }

  /** A date that the four-digit layout can write. */
  predicate Writable(d: Date) { ValidDate(d) && 0 <= d.year <= 9999 }

  /** The shape "dddd-dd-dd" that the layout accepts before any range check. */
  predicate Shaped(s: string) {
    |s| == 10 && s[4] == '-' && s[7] == '-'
    && IsDigit(s[0]) && IsDigit(s[1]) && IsDigit(s[2]) && IsDigit(s[3])
    && IsDigit(s[5]) && IsDigit(s[6]) && IsDigit(s[8]) && IsDigit(s[9])
  }

  /**
   * time.Parse("2006-01-02", s): a four-digit year, exactly two digits of
   * month in 1..12 and two of day in 1..days of that month, separated by '-',
   * and no text after the day.
   */
  function ParseDate(s: string): (r: Option<Date>)
    ensures r.Some? ==> Writable(r.value)
    ensures r.Some? ==> Shaped(s)
  {
    if !Shaped(s) then None
    else
      var y := 1000 * DigitValue(s[0]) + 100 * DigitValue(s[1]) + 10 * DigitValue(s[2]) + DigitValue(s[3]);
      var m := 10 * DigitValue(s[5]) + DigitValue(s[6]);
      var d := 10 * DigitValue(s[8]) + DigitValue(s[9]);
      if 1 <= m <= 12 && 1 <= d <= DaysIn(m, y) then Some(Date(y, m, d)) else None
  }

  function Digits2(n: nat): (s: string)
    requires n < 100
    ensures |s| == 2 && IsDigit(s[0]) && IsDigit(s[1])
    ensures 10 * DigitValue(s[0]) + DigitValue(s[1]) == n
  {
    [DigitChar(n / 10), DigitChar(n % 10)]
  }

  /** Time.Format("2006-01-02"). */
  function FormatDate(d: Date): (s: string)
    requires Writable(d)
    ensures Shaped(s)
  {
    Digits2(d.year / 100) + Digits2(d.year % 100) + "-" + Digits2(d.month) + "-" + Digits2(d.day)
  }

  lemma ParseFormat(d: Date)
    requires Writable(d)
    ensures ParseDate(FormatDate(d)) == Some(d)
  {
    var s := FormatDate(d);
    var hi := Digits2(d.year / 100);
    var lo := Digits2(d.year % 100);
    assert s[0] == hi[0] && s[1] == hi[1] && s[2] == lo[0] && s[3] == lo[1];
    assert 1000 * DigitValue(s[0]) + 100 * DigitValue(s[1]) == 100 * (d.year / 100);
  }

  lemma Digits2OfDigits(a: char, b: char)
    requires IsDigit(a) && IsDigit(b)
    ensures Digits2(10 * DigitValue(a) + DigitValue(b)) == [a, b]
  {
    var n := 10 * DigitValue(a) + DigitValue(b);
    assert n / 10 == DigitValue(a) && n % 10 == DigitValue(b);
  }

  lemma FormatParse(s: string)
    requires ParseDate(s).Some?
    ensures FormatDate(ParseDate(s).value) == s
  {
    var d := ParseDate(s).value;
    var hi := 10 * DigitValue(s[0]) + DigitValue(s[1]);
    var lo := 10 * DigitValue(s[2]) + DigitValue(s[3]);
    assert d.year == 100 * hi + lo;
    assert d.year / 100 == hi && d.year % 100 == lo;
    Digits2OfDigits(s[0], s[1]);
    Digits2OfDigits(s[2], s[3]);
    Digits2OfDigits(s[5], s[6]);
    Digits2OfDigits(s[8], s[9]);
    assert FormatDate(d) == [s[0], s[1]] + [s[2], s[3]] + "-" + [s[5], s[6]] + "-" + [s[8], s[9]];
    assert s == s[0..2] + s[2..4] + s[4..5] + s[5..7] + s[7..8] + s[8..10];
  }

  /** Strict chronological order of dates. */
  predicate Before(a: Date, b: Date) {
    a.year < b.year
    || (a.year == b.year && (a.month < b.month || (a.month == b.month && a.day < b.day)))
  }

  /** AddDate(0, 0, 1) on a time at midnight: the next calendar day. */
  function NextDay(d: Date): (n: Date)
    requires ValidDate(d)
    ensures ValidDate(n) && Before(d, n)
  {
    if d.day < DaysIn(d.month, d.year) then Date(d.year, d.month, d.day + 1)
    else if d.month < 12 then Date(d.year, d.month + 1, 1)
    else Date(d.year + 1, 1, 1)
  }

  /** No valid date lies strictly between a date and its successor. */
  lemma NextDayIsSuccessor(d: Date, x: Date)
    requires ValidDate(d) && ValidDate(x)
    ensures Before(x, NextDay(d)) <==> !Before(d, x)
  {
  }

  /** The only date whose successor is Go's zero time is 0000-12-31. */
  lemma NextDayZero(d: Date)
    requires ValidDate(d)
    ensures IsZero(NextDay(d)) <==> d == Date(0, 12, 31)
  {
  }

  lemma ParseLastDayOfYearZero()
    ensures ParseDate("0000-12-31") == Some(Date(0, 12, 31))
  {
  }
}
