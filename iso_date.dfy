/**
  Calendar dates in the ISO 8601 extended form `YYYY-MM-DD`, the form the
  transaction's date field documents and the filter dialog's date editors print.
  Dates follow the proleptic Gregorian calendar with years 1 through 9999,
  the range of Python's `datetime`.
 */
module IsoDate {
  import opened Wrappers

  datatype CalendarDate = CalendarDate(year: int, month: int, day: int)

  /** Gregorian leap years: divisible by 4, except centuries not divisible by 400. */
  predicate IsLeapYear(y: int) {
    y % 4 == 0 && (y % 100 != 0 || y % 400 == 0)
  }

  function DaysInMonth(y: int, m: int): (n: int)
    requires 1 <= m <= 12
    ensures 28 <= n <= 31
    ensures n == 31 <==> m in {1, 3, 5, 7, 8, 10, 12}
    ensures n == 30 <==> m in {4, 6, 9, 11}
    ensures m == 2 ==> (n == 29 <==> IsLeapYear(y))
  {
    if m == 2 then (if IsLeapYear(y) then 29 else 28)
    else if m == 4 || m == 6 || m == 9 || m == 11 then 30
    else 31
  }

  /** A real day of the calendar that `datetime` can represent. */
  predicate ValidDate(d: CalendarDate) {
    1 <= d.year <= 9999 && 1 <= d.month <= 12 && 1 <= d.day <= DaysInMonth(d.year, d.month)
  }

  /** An ASCII decimal digit. */
  predicate IsDigit(c: char) {
    '0' <= c <= '9'
  }

  function DigitValue(c: char): (v: int)
    requires IsDigit(c)
    ensures 0 <= v <= 9
  {
    c as int - '0' as int
  }

  function DigitChar(v: int): (c: char)
    requires 0 <= v <= 9
    ensures IsDigit(c) && DigitValue(c) == v
  {
    ('0' as int + v) as char
  }

  /** The string has the shape `DDDD-DD-DD`, with D an ASCII digit. */
  predicate IsDateShaped(s: string) {
    |s| == 10 && s[4] == '-' && s[7] == '-' &&
    IsDigit(s[0]) && IsDigit(s[1]) && IsDigit(s[2]) && IsDigit(s[3]) &&
    IsDigit(s[5]) && IsDigit(s[6]) && IsDigit(s[8]) && IsDigit(s[9])
  }

  /** The numbers the three digit fields of a date-shaped string spell. */
  function Fields(s: string): CalendarDate
    requires IsDateShaped(s)
  {
    CalendarDate(
      DigitValue(s[0]) * 1000 + DigitValue(s[1]) * 100 + DigitValue(s[2]) * 10 + DigitValue(s[3]),
      DigitValue(s[5]) * 10 + DigitValue(s[6]),
      DigitValue(s[8]) * 10 + DigitValue(s[9]))
  }

  /** The date a `YYYY-MM-DD` string names, or `None` when the string is not in
      that form or names no day of the calendar (such as `2025-02-30`). */
  function ParseIsoDate(s: string): (r: Option<CalendarDate>)
    ensures r.Some? ==> ValidDate(r.value)
  {
    if IsDateShaped(s) && ValidDate(Fields(s)) then Some(Fields(s)) else None
  }

  /** The string names a valid calendar date in `YYYY-MM-DD` form. */
  predicate IsIsoDate(s: string) {
    ParseIsoDate(s).Some?
  }

  /** The date printed as `yyyy-MM-dd`, each field zero-padded to its width. */
  function FormatIsoDate(d: CalendarDate): (s: string)
    requires ValidDate(d)
    ensures IsDateShaped(s)
  {
    [DigitChar(d.year / 10 / 10 / 10), DigitChar(d.year / 10 / 10 % 10),
     DigitChar(d.year / 10 % 10), DigitChar(d.year % 10), '-',
     DigitChar(d.month / 10), DigitChar(d.month % 10), '-',
     DigitChar(d.day / 10), DigitChar(d.day % 10)]
  }

  /** A number below 10000 is the sum of its four decimal digits times their
      place values, the digits taken off one division by ten at a time. */
  lemma FourDigitPlaces(n: int)
    requires 0 <= n < 10000
    ensures n == n / 10 / 10 / 10 * 1000 + n / 10 / 10 % 10 * 100 + n / 10 % 10 * 10 + n % 10
    ensures 0 <= n / 10 / 10 / 10 <= 9
  {
    var q1 := n / 10;
    var q2 := q1 / 10;
    var q3 := q2 / 10;
    assert n == q1 * 10 + n % 10;
    assert q1 == q2 * 10 + q1 % 10;
    assert q2 == q3 * 10 + q2 % 10;
  }

  /** Every printed date parses back to itself. */
  lemma ParseFormat(d: CalendarDate)
    requires ValidDate(d)
    ensures ParseIsoDate(FormatIsoDate(d)) == Some(d)
  {
    FourDigitPlaces(d.year);
    assert Fields(FormatIsoDate(d)) == d;
  }

  /** Digits times their place values spell a number whose digits they are. */
  lemma DigitsOfFourDigitNumber(a: int, b: int, c: int, e: int)
    requires 0 <= a <= 9 && 0 <= b <= 9 && 0 <= c <= 9 && 0 <= e <= 9
    ensures var n := a * 1000 + b * 100 + c * 10 + e;
      n / 10 / 10 / 10 == a && n / 10 / 10 % 10 == b && n / 10 % 10 == c && n % 10 == e
  {
    var n := a * 1000 + b * 100 + c * 10 + e;
    assert n / 10 == a * 100 + b * 10 + c;
    assert n / 10 / 10 == a * 10 + b;
  }

  /** Every string that parses is the printed form of the date it names:
      `YYYY-MM-DD` strings and dates correspond one to one. */
  lemma FormatParse(s: string)
    requires IsIsoDate(s)
    ensures FormatIsoDate(ParseIsoDate(s).value) == s
  {
    var d := Fields(s);
    assert ParseIsoDate(s).value == d;
    var t := FormatIsoDate(d);
    FieldDigits(s);
    DigitCharOf(s[0]); DigitCharOf(s[1]); DigitCharOf(s[2]); DigitCharOf(s[3]);
    DigitCharOf(s[5]); DigitCharOf(s[6]); DigitCharOf(s[8]); DigitCharOf(s[9]);
    assert forall i | 0 <= i < 10 :: t[i] == s[i];
  }

  /** Printing the value of a digit gives the digit back. */
  lemma DigitCharOf(c: char)
    requires IsDigit(c)
    ensures DigitChar(DigitValue(c)) == c
  {
  }

  /** The digits of the fields' values are the digits of the string. */
  lemma FieldDigits(s: string)
    requires IsDateShaped(s)
    ensures var d := Fields(s);
      d.year / 10 / 10 / 10 == DigitValue(s[0]) && d.year / 10 / 10 % 10 == DigitValue(s[1]) &&
      d.year / 10 % 10 == DigitValue(s[2]) && d.year % 10 == DigitValue(s[3]) &&
      d.month / 10 == DigitValue(s[5]) && d.month % 10 == DigitValue(s[6]) &&
      d.day / 10 == DigitValue(s[8]) && d.day % 10 == DigitValue(s[9])
  {
    DigitsOfFourDigitNumber(DigitValue(s[0]), DigitValue(s[1]), DigitValue(s[2]), DigitValue(s[3]));
  }

  /** A leap day and a day in December parse to the days they name. */
  lemma ValidDateExamples()
    ensures ParseIsoDate("2024-02-29") == Some(CalendarDate(2024, 2, 29))
    ensures ParseIsoDate("2025-12-01") == Some(CalendarDate(2025, 12, 1))
  {
  }

  /** The 29th of February of a common year, the 30th of February, a month 13
      and a string that is no date at all are rejected. */
  lemma InvalidDateExamples()
    ensures ParseIsoDate("2025-02-29") == None
    ensures ParseIsoDate("2025-02-30") == None
    ensures ParseIsoDate("2025-13-01") == None
    ensures !IsIsoDate("not-a-date")
  {
  }
}
