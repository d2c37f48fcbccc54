/** Dates as the screens handle them: ISO "yyyy-mm-dd" strings, produced by
    `toISOString().split("T")[0]`, read back with `new Date(s)`, compared as
    strings, and bucketed by calendar month. */
module Dates {
  import opened Wrappers
  import opened Text

  datatype Date = Date(year: int, month: int, day: int)

  /** A calendar month; `month` counts from 1. */
  datatype YearMonth = YearMonth(year: int, month: int)

  predicate IsLeapYear(y: int) {
    y % 4 == 0 && (y % 100 != 0 || y % 400 == 0)
  }

  function DaysInMonth(y: int, m: int): int {
    if m == 2 then (if IsLeapYear(y) then 29 else 28)
    else if m == 4 || m == 6 || m == 9 || m == 11 then 30
    else 31
  }

  /** A Gregorian date with a four-digit year. */
  predicate ValidDate(d: Date) {
    0 <= d.year <= 9999 && 1 <= d.month <= 12 && 1 <= d.day <= DaysInMonth(d.year, d.month)
  }

  predicate ValidMonth(ym: YearMonth) {
    0 <= ym.year <= 9999 && 1 <= ym.month <= 12
  }

  /** Calendar order on dates. */
  predicate DateLe(a: Date, b: Date) {
    a.year < b.year || (a.year == b.year && (a.month < b.month || (a.month == b.month && a.day <= b.day)))
  }

  // ------------------------------------------------------------- formatting

  function Digit(n: int): char {
    ('0' as int + n % 10) as char
  }

  function Pad2(n: int): string {
    [Digit(n / 10), Digit(n)]
  }

  function Pad4(n: int): string {
    Pad2(n / 100 % 100) + Pad2(n % 100)
  }

  /** `toISOString().split("T")[0]` of the date: "yyyy-mm-dd". */
  function Iso(d: Date): string {
    Pad4(d.year) + ("-" + (Pad2(d.month) + ("-" + Pad2(d.day))))
  }

  // ---------------------------------------------------------------- parsing

  predicate IsDigit(c: char) {
    '0' <= c <= '9'
  }

  function DigitValue(c: char): int {
    c as int - '0' as int
  }

  function Value2(a: char, b: char): int {
    10 * DigitValue(a) + DigitValue(b)
  }

  predicate IsoShaped(s: string) {
    |s| == 10 && s[4] == '-' && s[7] == '-' &&
    IsDigit(s[0]) && IsDigit(s[1]) && IsDigit(s[2]) && IsDigit(s[3]) &&
    IsDigit(s[5]) && IsDigit(s[6]) && IsDigit(s[8]) && IsDigit(s[9])
  }

  /** `new Date(s)` for a date-only ISO string; `None` is an Invalid Date. */
  function ParseIso(s: string): Option<Date> {
    if IsoShaped(s) then
      var d := Date(100 * Value2(s[0], s[1]) + Value2(s[2], s[3]), Value2(s[5], s[6]), Value2(s[8], s[9]));
      if ValidDate(d) then Some(d) else None
    else None
  }

  lemma Pad2Digits(n: int)
    requires 0 <= n < 100
    ensures IsDigit(Pad2(n)[0]) && IsDigit(Pad2(n)[1])
    ensures Value2(Pad2(n)[0], Pad2(n)[1]) == n
  {
  }

  lemma DigitsPad2(a: char, b: char)
    requires IsDigit(a) && IsDigit(b)
    ensures 0 <= Value2(a, b) < 100
    ensures Pad2(Value2(a, b)) == [a, b]
  {
    var v := Value2(a, b);
    assert v / 10 == DigitValue(a);
    assert v % 10 == DigitValue(b);
  }

  lemma SplitCentury(hi: int, lo: int)
    requires 0 <= hi < 100 && 0 <= lo < 100
    ensures (100 * hi + lo) / 100 == hi && (100 * hi + lo) / 100 % 100 == hi && (100 * hi + lo) % 100 == lo
  {
  }

  /** Reading back a formatted valid date gives the date. */
  lemma ParseIsoOfIso(d: Date)
    requires ValidDate(d)
    ensures ParseIso(Iso(d)) == Some(d)
  {
    var s := Iso(d);
    var hi, lo := d.year / 100, d.year % 100;
    assert hi % 100 == hi;
    Pad2Digits(hi);
    Pad2Digits(lo);
    Pad2Digits(d.month);
    Pad2Digits(d.day);
    assert s == Pad2(hi) + Pad2(lo) + ['-'] + Pad2(d.month) + ['-'] + Pad2(d.day);
    assert s[0] == Pad2(hi)[0] && s[1] == Pad2(hi)[1];
    assert s[2] == Pad2(lo)[0] && s[3] == Pad2(lo)[1];
    assert s[5] == Pad2(d.month)[0] && s[6] == Pad2(d.month)[1];
    assert s[8] == Pad2(d.day)[0] && s[9] == Pad2(d.day)[1];
    assert IsoShaped(s);
    assert 100 * Value2(s[0], s[1]) + Value2(s[2], s[3]) == d.year;
    assert Date(100 * Value2(s[0], s[1]) + Value2(s[2], s[3]), Value2(s[5], s[6]), Value2(s[8], s[9])) == d;
  }

  /** A string that reads as a valid date is that date's formatted form:
      there is exactly one spelling of each date. */
  lemma IsoOfParseIso(s: string)
    requires ParseIso(s).Some?
    ensures ValidDate(ParseIso(s).value)
    ensures Iso(ParseIso(s).value) == s
  {
    var d := ParseIso(s).value;
    var hi, lo := Value2(s[0], s[1]), Value2(s[2], s[3]);
    DigitsPad2(s[0], s[1]);
    DigitsPad2(s[2], s[3]);
    DigitsPad2(s[5], s[6]);
    DigitsPad2(s[8], s[9]);
    assert d.year == 100 * hi + lo;
    SplitCentury(hi, lo);
    assert Pad4(d.year) == Pad2(hi) + Pad2(lo);
    assert Pad4(d.year) == [s[0], s[1], s[2], s[3]];
    assert Iso(d) == [s[0], s[1], s[2], s[3], '-', s[5], s[6], '-', s[8], s[9]];
  }

  /** Parsing and formatting are inverse on valid dates. */
  lemma ParseIsoIffIso(s: string, d: Date)
    ensures ParseIso(s) == Some(d) <==> ValidDate(d) && s == Iso(d)
  {
    if ParseIso(s) == Some(d) {
      IsoOfParseIso(s);
    }
    if ValidDate(d) && s == Iso(d) {
      ParseIsoOfIso(d);
    }
  }

  // --------------------------------------------------------------- ordering

  lemma Pad2Order(x: int, y: int)
    requires 0 <= x < 100 && 0 <= y < 100
    ensures LexLe(Pad2(x), Pad2(y)) <==> x <= y
    ensures Pad2(x) == Pad2(y) <==> x == y
  {
    Pad2Digits(x);
    Pad2Digits(y);
    assert Pad2(x)[1..] == [Digit(x)] && Pad2(y)[1..] == [Digit(y)];
    assert LexLe(Pad2(x)[1..], Pad2(y)[1..]) <==> x % 10 <= y % 10;
  }

  lemma HundredsOrder(x: int, y: int)
    requires 0 <= x && 0 <= y
    ensures x <= y <==> x / 100 < y / 100 || (x / 100 == y / 100 && x % 100 <= y % 100)
    ensures x == y <==> x / 100 == y / 100 && x % 100 == y % 100
  {
    var hx, lx, hy, ly := x / 100, x % 100, y / 100, y % 100;
    assert x == 100 * hx + lx && y == 100 * hy + ly;
    assert 0 <= lx < 100 && 0 <= ly < 100;
  }

  lemma Pad4Order(x: int, y: int)
    requires 0 <= x < 10000 && 0 <= y < 10000
    ensures LexLe(Pad4(x), Pad4(y)) <==> x <= y
    ensures Pad4(x) == Pad4(y) <==> x == y
  {
    assert x / 100 % 100 == x / 100 && y / 100 % 100 == y / 100;
    HundredsOrder(x, y);
    Pad2Order(x / 100, y / 100);
    Pad2Order(x % 100, y % 100);
    LexLeConcat(Pad2(x / 100), Pad2(x % 100), Pad2(y / 100), Pad2(y % 100));
    if Pad4(x) == Pad4(y) {
      assert Pad4(x)[..2] == Pad2(x / 100) && Pad4(y)[..2] == Pad2(y / 100);
      assert Pad4(x)[2..] == Pad2(x % 100) && Pad4(y)[2..] == Pad2(y % 100);
    }
  }

  /** On valid dates, comparing the ISO strings compares the dates. This is
      why the screens may filter and bucket dates with string `>=` and `<=`. */
  lemma IsoOrder(a: Date, b: Date)
    requires ValidDate(a) && ValidDate(b)
    ensures LexLe(Iso(a), Iso(b)) <==> DateLe(a, b)
  {
    var ra := Pad2(a.month) + ("-" + Pad2(a.day));
    var rb := Pad2(b.month) + ("-" + Pad2(b.day));
    Pad4Order(a.year, b.year);
    Pad2Order(a.month, b.month);
    Pad2Order(a.day, b.day);
    LexLeConcat(Pad4(a.year), "-" + ra, Pad4(b.year), "-" + rb);
    LexLeConcat("-", ra, "-", rb);
    LexLeConcat(Pad2(a.month), "-" + Pad2(a.day), Pad2(b.month), "-" + Pad2(b.day));
    LexLeConcat("-", Pad2(a.day), "-", Pad2(b.day));
  }

  lemma IsoInjective(a: Date, b: Date)
    requires ValidDate(a) && ValidDate(b)
    ensures Iso(a) == Iso(b) <==> a == b
  {
    if Iso(a) == Iso(b) {
      ParseIsoOfIso(a);
      ParseIsoOfIso(b);
    }
  }

  /** For a string that reads as a date, `s >= Iso(start)` on strings is
      "on or after `start`" on dates. */
  lemma OnOrAfterIsDateLe(s: string, start: Date)
    requires ParseIso(s).Some?
    requires ValidDate(start)
    ensures LexLe(Iso(start), s) <==> DateLe(start, ParseIso(s).value)
  {
    IsoOfParseIso(s);
    IsoOrder(start, ParseIso(s).value);
  }

  // ---------------------------------------------------------- month buckets

  function MonthStart(ym: YearMonth): Date {
    Date(ym.year, ym.month, 1)
  }

  /** `new Date(y, m + 1, 0)`: the last day of the month. */
  function MonthEnd(ym: YearMonth): Date {
    Date(ym.year, ym.month, DaysInMonth(ym.year, ym.month))
  }

  /** `d = new Date(s)` falls in the month: `d.getMonth()` and `d.getFullYear()` match. */
  predicate InMonth(s: string, ym: YearMonth) {
    ParseIso(s).Some? && ParseIso(s).value.year == ym.year && ParseIso(s).value.month == ym.month
  }

  /** `lo <= s && s <= hi` on the ISO strings of `lo` and `hi`. */
  predicate InRange(s: string, lo: Date, hi: Date) {
    LexLe(Iso(lo), s) && LexLe(s, Iso(hi))
  }

  /** For a string that reads as a date, lying between the first and the last
      day of a month (inclusive, as strings) is the same as lying in that
      calendar month. */
  lemma MonthRangeIsMonth(s: string, ym: YearMonth)
    requires ParseIso(s).Some?
    requires ValidMonth(ym)
    ensures InRange(s, MonthStart(ym), MonthEnd(ym)) <==> InMonth(s, ym)
  {
    var d := ParseIso(s).value;
    IsoOfParseIso(s);
    IsoOrder(MonthStart(ym), d);
    IsoOrder(d, MonthEnd(ym));
  }

  /** `new Date(y, m - i, 1)`: the month `i` months before `ym`, with the year
      carried as JavaScript normalises an out-of-range month. */
  function MonthsBefore(ym: YearMonth, i: int): (r: YearMonth)
    ensures 1 <= r.month <= 12
    ensures r.year * 12 + r.month == ym.year * 12 + ym.month - i
  {
    var t := ym.year * 12 + (ym.month - 1) - i;
    YearMonth(t / 12, t % 12 + 1)
  }

  /** Months are told apart by their running count. */
  lemma MonthsBeforeInjective(ym: YearMonth, i: int, j: int)
    requires i != j
    ensures MonthsBefore(ym, i) != MonthsBefore(ym, j)
  {
  }

  /** The first month of the quarter holding month `m`: `Math.floor(m0 / 3) * 3` on 0-based months. */
  function QuarterStartMonth(m: int): (q: int)
    ensures 1 <= m <= 12 ==> (q == 1 || q == 4 || q == 7 || q == 10) && q <= m < q + 3
  {
    (m - 1) / 3 * 3 + 1
  }

  /** The first day of the selected period ("month", "quarter" or "year")
      that contains `today`; `None` for any other period. */
  function PeriodStartDate(period: string, today: Date): Option<Date> {
    if period == "month" then Some(Date(today.year, today.month, 1))
    else if period == "quarter" then Some(Date(today.year, QuarterStartMonth(today.month), 1))
    else if period == "year" then Some(Date(today.year, 1, 1))
    else None
  }

  /** The period start is a real date on or before today, in today's year,
      and the three periods nest: year start, then quarter start, then month start. */
  lemma PeriodStartBeforeToday(period: string, today: Date)
    requires ValidDate(today)
    ensures PeriodStartDate(period, today).Some? <==> period == "month" || period == "quarter" || period == "year"
    ensures PeriodStartDate(period, today).Some? ==>
      var d := PeriodStartDate(period, today).value;
      ValidDate(d) && d.year == today.year && d.day == 1 && DateLe(d, today)
    ensures DateLe(PeriodStartDate("year", today).value, PeriodStartDate("quarter", today).value)
    ensures DateLe(PeriodStartDate("quarter", today).value, PeriodStartDate("month", today).value)
  {
  }
}
