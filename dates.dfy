/** Civil calendar dates with the Gregorian leap-year rule, standing in for the
    date part of .NET's System.DateTime (time of day is always midnight here). */
module Dates {

  datatype Date = Date(year: int, month: int, day: int)

  predicate IsLeapYear(y: int) {
    y % 4 == 0 && (y % 100 != 0 || y % 400 == 0)
  }

  function DaysInMonth(y: int, m: int): int {
    if m == 2 then (if IsLeapYear(y) then 29 else 28)
    else if m == 4 || m == 6 || m == 9 || m == 11 then 30
    else 31
  }

  /** A date that exists in the calendar. */
  predicate Valid(d: Date) {
    1 <= d.month <= 12 && 1 <= d.day <= DaysInMonth(d.year, d.month)
  }

  /** Chronological order, DateTime's `<`. */
  predicate Before(a: Date, b: Date) {
    || a.year < b.year
    || (a.year == b.year && (a.month < b.month || (a.month == b.month && a.day < b.day)))
  }

  /** DateTime's `<=`. */
  predicate AtOrBefore(a: Date, b: Date) {
    !Before(b, a)
  }

  /** Months elapsed since January of year 0. */
  function MonthIndex(d: Date): int {
    d.year * 12 + (d.month - 1)
  }

  /** A month index names one year and month. */
  lemma MonthIndexInjective(a: Date, b: Date)
    requires 1 <= a.month <= 12 && 1 <= b.month <= 12
    requires MonthIndex(a) == MonthIndex(b)
    ensures a.year == b.year && a.month == b.month
  {
  }

  /** `new DateTime(d.Year, d.Month, 1)`. */
  function FirstOfMonth(d: Date): (r: Date)
    ensures r.day == 1 && r.year == d.year && r.month == d.month
    ensures 1 <= d.month <= 12 ==> Valid(r)
    ensures Valid(d) ==> AtOrBefore(r, d)
  {
    Date(d.year, d.month, 1)
  }

  /** `DateTime.AddMonths(n)`: move n calendar months and keep the day of the
      month, clamped to the last day of the target month. */
  function AddMonths(d: Date, n: int): (r: Date)
    ensures 1 <= r.month <= 12
    ensures MonthIndex(r) == MonthIndex(d) + n
    ensures r.day <= d.day
    ensures r.day == d.day || r.day == DaysInMonth(r.year, r.month) < d.day
    ensures Valid(d) ==> Valid(r)
  {
    var t := MonthIndex(d) + n;
    var y, m := t / 12, t % 12 + 1;
    var last := DaysInMonth(y, m);
    Date(y, m, if d.day <= last then d.day else last)
  }

  /** The calendar day after d. */
  function NextDay(d: Date): Date {
    if d.day < DaysInMonth(d.year, d.month) then Date(d.year, d.month, d.day + 1)
    else if d.month < 12 then Date(d.year, d.month + 1, 1)
    else Date(d.year + 1, 1, 1)
  }

  /** `DateTime.AddDays(n)` for a whole, non-negative number of days. */
  function AddDays(d: Date, n: nat): Date
    decreases n
  {
    if n == 0 then d else AddDays(NextDay(d), n - 1)
  }

  // ---------------------------------------------------------------------------
  // An independent reference: the proleptic Gregorian day count behind
  // DateTime.Ticks (0001-01-01 is day 0).

  function DaysBeforeYear(y: int): int {
    var p := y - 1;
    365 * p + p / 4 - p / 100 + p / 400
  }

  function DaysBeforeMonth(y: int, m: int): int
    requires 1 <= m <= 12
  {
    [0, 31, 59, 90, 120, 151, 181, 212, 243, 273, 304, 334][m - 1]
    + (if m > 2 && IsLeapYear(y) then 1 else 0)
  }

  function YearLength(y: int): int {
    if IsLeapYear(y) then 366 else 365
  }

  function DayNumber(d: Date): int
    requires 1 <= d.month <= 12
  {
    DaysBeforeYear(d.year) + DaysBeforeMonth(d.year, d.month) + d.day - 1
  }

  lemma FloorStep(p: int, k: int)
    requires k == 4 || k == 100 || k == 400
    ensures (p + 1) / k - p / k == if (p + 1) % k == 0 then 1 else 0
  {
    var q, r := p / k, p % k;
    assert p == q * k + r && 0 <= r < k;
    if r + 1 == k {
      assert p + 1 == (q + 1) * k;
    } else {
      assert p + 1 == q * k + (r + 1) && 0 <= r + 1 < k;
    }
  }

  /** A multiple of k times m is a multiple of m, for the divisors of the leap rule. */
  lemma MultipleOf(y: int, k: int, m: int)
    requires (m == 100 && k == 4) || (m == 4 && k == 25)
    requires y % (k * m) == 0
    ensures y % m == 0
  {
    var t := y / (k * m);
    assert y == m * (k * t);
    var q, r := y / m, y % m;
    assert y == m * q + r && 0 <= r < m;
    assert m * (k * t - q) == r;
  }

  /** Consecutive year starts are one year length apart. */
  lemma YearStep(y: int)
    ensures DaysBeforeYear(y + 1) == DaysBeforeYear(y) + YearLength(y)
  {
    FloorStep(y - 1, 4);
    FloorStep(y - 1, 100);
    FloorStep(y - 1, 400);
    if y % 400 == 0 {
      MultipleOf(y, 4, 100);
    }
    if y % 100 == 0 {
      MultipleOf(y, 25, 4);
    }
    assert DaysBeforeYear(y + 1) - DaysBeforeYear(y)
        == 365 + (y / 4 - (y - 1) / 4) - (y / 100 - (y - 1) / 100) + (y / 400 - (y - 1) / 400);
  }

  lemma {:induction false} YearStartsIncrease(y1: int, y2: int)
    requires y1 <= y2
    ensures DaysBeforeYear(y1) + 365 * (y2 - y1) <= DaysBeforeYear(y2)
    decreases y2 - y1
  {
    if y1 < y2 {
      YearStep(y1);
      YearStartsIncrease(y1 + 1, y2);
    }
  }

  lemma MonthStartsIncrease(y: int, m1: int, m2: int)
    requires 1 <= m1 <= m2 <= 12
    ensures DaysBeforeMonth(y, m1) + (m2 - m1) * 28 <= DaysBeforeMonth(y, m2)
    ensures m1 < m2 ==> DaysBeforeMonth(y, m1) + DaysInMonth(y, m1) <= DaysBeforeMonth(y, m2)
  {
  }

  lemma DayNumberInYear(d: Date)
    requires Valid(d)
    ensures DaysBeforeYear(d.year) <= DayNumber(d) < DaysBeforeYear(d.year + 1)
  {
    YearStep(d.year);
  }

  /** The day after a valid date is valid and is exactly one day later. */
  lemma NextDayNumber(d: Date)
    requires Valid(d)
    ensures Valid(NextDay(d))
    ensures DayNumber(NextDay(d)) == DayNumber(d) + 1
  {
    if d.day == DaysInMonth(d.year, d.month) && d.month == 12 {
      YearStep(d.year);
    }
  }

  /** AddDays(d, n) is the valid date n days after d in the day count. */
  lemma {:induction false} AddDaysNumber(d: Date, n: nat)
    requires Valid(d)
    ensures Valid(AddDays(d, n))
    ensures DayNumber(AddDays(d, n)) == DayNumber(d) + n
    decreases n
  {
    if n > 0 {
      NextDayNumber(d);
      AddDaysNumber(NextDay(d), n - 1);
    }
  }

  /** The field-by-field order on dates is the order of their day numbers. */
  lemma BeforeIsDayOrder(a: Date, b: Date)
    requires Valid(a) && Valid(b)
    ensures Before(a, b) <==> DayNumber(a) < DayNumber(b)
    ensures a == b <==> DayNumber(a) == DayNumber(b)
  {
    DayNumberInYear(a);
    DayNumberInYear(b);
    if a.year < b.year {
      YearStartsIncrease(a.year + 1, b.year);
    } else if b.year < a.year {
      YearStartsIncrease(b.year + 1, a.year);
    } else if a.month < b.month {
      MonthStartsIncrease(a.year, a.month, b.month);
    } else if b.month < a.month {
      MonthStartsIncrease(a.year, b.month, a.month);
    }
  }

  /** `AddDays(7)` of a valid date is the valid date one week later. */
  lemma AddWeek(d: Date)
    requires Valid(d)
    ensures Valid(AddDays(d, 7)) && Before(d, AddDays(d, 7))
    ensures DayNumber(AddDays(d, 7)) == DayNumber(d) + 7
  {
    AddDaysNumber(d, 7);
    BeforeIsDayOrder(d, AddDays(d, 7));
  }

  /** `AddMonths(1)` of a valid date is a valid, strictly later date in the next calendar month. */
  lemma AddMonthLater(d: Date)
    requires Valid(d)
    ensures Valid(AddMonths(d, 1)) && Before(d, AddMonths(d, 1))
    ensures MonthIndex(AddMonths(d, 1)) == MonthIndex(d) + 1
  {
  }

  /** The first day of the month after `FirstOfMonth(d)` is `AddMonths(FirstOfMonth(d), 1)`,
      and a valid date falls in the half-open range [first of month, first of next month)
      exactly when it lies in that calendar month. */
  lemma MonthRange(s: Date, d: Date)
    requires 1 <= s.month <= 12 && s.day == 1
    requires Valid(d)
    ensures AtOrBefore(s, d) && Before(d, AddMonths(s, 1))
        <==> d.year == s.year && d.month == s.month
  {
    var e := AddMonths(s, 1);
    assert e.day == 1;
    if s.month < 12 {
      assert e.year == s.year && e.month == s.month + 1;
    } else {
      assert e.year == s.year + 1 && e.month == 1;
    }
  }

  /** Moving a first-of-month date by a months and then b months is moving it a + b months. */
  lemma AddMonthsCompose(s: Date, a: int, b: int)
    requires s.day == 1
    ensures AddMonths(AddMonths(s, a), b) == AddMonths(s, a + b)
    ensures AddMonths(s, a).day == 1
  {
    var x, y := AddMonths(AddMonths(s, a), b), AddMonths(s, a + b);
    assert MonthIndex(x) == MonthIndex(y);
    assert x.year == MonthIndex(x) / 12 && y.year == MonthIndex(y) / 12;
  }

  /** The end-of-month clamping case: January 31 plus one month is the last day of February. */
  lemma JanuaryThirtyFirstPlusOneMonth()
    ensures AddMonths(Date(2024, 1, 31), 1) == Date(2024, 2, 29)
    ensures AddMonths(Date(2025, 1, 31), 1) == Date(2025, 2, 28)
    ensures AddMonths(Date(2025, 12, 31), 1) == Date(2026, 1, 31)
  {
  }
}
