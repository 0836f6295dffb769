/** Calendar dates as Python's `datetime.date` has them: proleptic Gregorian,
    years 1..9999, compared chronologically, with an ordinal day number
    (`date.toordinal()`) whose difference gives `timedelta.days`. */
module Dates {

  const MinYear := 1
  const MaxYear := 9999

  /** A year-month-day triple, not yet checked. */
  datatype Ymd = Ymd(year: int, month: int, day: int)

  predicate IsLeapYear(y: int) {
    y % 4 == 0 && (y % 100 != 0 || y % 400 == 0)
  }

  function DaysInMonth(y: int, m: int): (n: int)
    requires 1 <= m <= 12
    ensures 28 <= n <= 31
    ensures m == 2 ==> (n == 29 <==> IsLeapYear(y))
  {
    if m == 2 then (if IsLeapYear(y) then 29 else 28)
    else if m == 4 || m == 6 || m == 9 || m == 11 then 30
    else 31
  }

  /** The triples the `date(year, month, day)` constructor accepts. */
  predicate IsValid(d: Ymd) {
    MinYear <= d.year <= MaxYear && 1 <= d.month <= 12 && 1 <= d.day <= DaysInMonth(d.year, d.month)
  }

  /** A `datetime.date` value. */
  type Date = d: Ymd | IsValid(d) witness Ymd(2020, 1, 1)

  /** Chronological order, which for `date` is the order of (year, month, day). */
  predicate Before(a: Ymd, b: Ymd) {
    a.year < b.year || (a.year == b.year && (a.month < b.month || (a.month == b.month && a.day < b.day)))
  }

  predicate NotAfter(a: Ymd, b: Ymd) {
    a == b || Before(a, b)
  }

  /** The earlier of two dates, as `min` of a date column picks it. */
  function Earlier(a: Date, b: Date): (r: Date)
    ensures r == a || r == b
    ensures NotAfter(r, a) && NotAfter(r, b)
  {
    if Before(b, a) then b else a
  }

  /** Days in the years 1 .. y-1 (Python's `_days_before_year`). */
  function DaysBeforeYear(y: int): int {
    var p := y - 1;
    p * 365 + p / 4 - p / 100 + p / 400
  }

  /** Days in the months 1 .. m-1 of year y (Python's `_days_before_month`). */
  function DaysBeforeMonth(y: int, m: int): (n: int)
    requires 1 <= m <= 13
    ensures n >= 0
  {
    if m == 1 then 0 else DaysBeforeMonth(y, m - 1) + DaysInMonth(y, m - 1)
  }

  /** `date.toordinal()`: 0001-01-01 is day 1. */
  function Ordinal(d: Date): int {
    DaysBeforeYear(d.year) + DaysBeforeMonth(d.year, d.month) + d.day
  }

  /** `(later - earlier).days` for two dates. */
  function DaysBetween(earlier: Date, later: Date): int {
    Ordinal(later) - Ordinal(earlier)
  }

  lemma YearLength(y: int)
    ensures DaysBeforeMonth(y, 13) == if IsLeapYear(y) then 366 else 365
  {
    var leap := if IsLeapYear(y) then 1 else 0;
    assert DaysBeforeMonth(y, 1) == 0;
    assert DaysBeforeMonth(y, 2) == 31;
    assert DaysBeforeMonth(y, 3) == 59 + leap;
    assert DaysBeforeMonth(y, 4) == 90 + leap;
    assert DaysBeforeMonth(y, 5) == 120 + leap;
    assert DaysBeforeMonth(y, 6) == 151 + leap;
    assert DaysBeforeMonth(y, 7) == 181 + leap;
    assert DaysBeforeMonth(y, 8) == 212 + leap;
    assert DaysBeforeMonth(y, 9) == 243 + leap;
    assert DaysBeforeMonth(y, 10) == 273 + leap;
    assert DaysBeforeMonth(y, 11) == 304 + leap;
    assert DaysBeforeMonth(y, 12) == 334 + leap;
    assert DaysBeforeMonth(y, 13) == 365 + leap;
  }

  lemma YearStep(y: int)
    requires y >= 1
    ensures DaysBeforeYear(y + 1) == DaysBeforeYear(y) + DaysBeforeMonth(y, 13)
  {
    YearLength(y);
    var p := y - 1;
    var a, b, c := y % 4 == 0, y % 100 == 0, y % 400 == 0;
    assert p / 4 + (if a then 1 else 0) == y / 4;
    assert p / 100 + (if b then 1 else 0) == y / 100;
    assert p / 400 + (if c then 1 else 0) == y / 400;
    assert IsLeapYear(y) <==> a && (!b || c);
    assert DaysBeforeYear(y + 1) - DaysBeforeYear(y)
      == 365 + (if a then 1 else 0) - (if b then 1 else 0) + (if c then 1 else 0);
    assert c ==> b && a;
    assert b ==> a;
  }

  /** Days before year y grow by at least a full year per year. */
  lemma {:induction false} YearsIncrease(y: int, z: int)
    requires 1 <= y < z
    ensures DaysBeforeYear(y) + DaysBeforeMonth(y, 13) <= DaysBeforeYear(z)
    decreases z - y
  {
    YearStep(y);
    if y + 1 < z {
      YearsIncrease(y + 1, z);
      YearLength(y + 1);
    }
  }

  /** A month starts after all earlier months of its year have ended. */
  lemma {:induction false} MonthsIncrease(y: int, m: int, n: int)
    requires 1 <= m < n <= 13
    ensures DaysBeforeMonth(y, m) + DaysInMonth(y, m) <= DaysBeforeMonth(y, n)
    decreases n
  {
    if m + 1 < n {
      MonthsIncrease(y, m, n - 1);
    }
  }

  /** A date's ordinal lies within its year. */
  lemma OrdinalInYear(d: Date)
    ensures DaysBeforeYear(d.year) < Ordinal(d) <= DaysBeforeYear(d.year) + DaysBeforeMonth(d.year, 13)
  {
    if d.month < 12 {
      MonthsIncrease(d.year, d.month, 13);
    }
  }

  /** The ordinal number follows chronological order: `date` comparison and
      day counting agree. */
  lemma {:induction false} OrdinalOrder(a: Date, b: Date)
    ensures Before(a, b) <==> Ordinal(a) < Ordinal(b)
    ensures a == b <==> Ordinal(a) == Ordinal(b)
  {
    OrdinalInYear(a);
    OrdinalInYear(b);
    if a.year < b.year {
      YearsIncrease(a.year, b.year);
    } else if b.year < a.year {
      YearsIncrease(b.year, a.year);
    } else if a.month < b.month {
      MonthsIncrease(a.year, a.month, b.month);
    } else if b.month < a.month {
      MonthsIncrease(a.year, b.month, a.month);
    }
  }

  /** The days from `earlier` to `later` are never negative when `earlier`
      is not after `later`, and are zero only for the same date. */
  lemma DaysBetweenSign(earlier: Date, later: Date)
    ensures NotAfter(earlier, later) <==> DaysBetween(earlier, later) >= 0
    ensures DaysBetween(earlier, later) == 0 <==> earlier == later
  {
    OrdinalOrder(earlier, later);
    OrdinalOrder(later, earlier);
  }
}
