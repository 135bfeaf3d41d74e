/**
 * Gregorian calendar arithmetic on day numbers (days since 1970-01-01, a
 * Thursday), instants in milliseconds, and the month and week boundaries the
 * planner takes from date-fns. Local time is taken to be UTC.
 */
module Calendar {
  import opened Types

  const MsPerDay: int := 86_400_000

  /** The calendar day an instant falls on (`isSameDay` compares these). */
  function Day(t: Instant): int {
    t / MsPerDay
  }

  predicate IsLeap(y: int) {
    y % 4 == 0 && (y % 100 != 0 || y % 400 == 0)
  }

  function DaysInYear(y: int): int {
    if IsLeap(y) then 366 else 365
  }

  /** Days in month `m` (1-12) of year `y`. */
  function DaysInMonth(y: int, m: int): (r: int)
    requires 1 <= m <= 12
    ensures 28 <= r <= 31
  {
    if m == 2 then (if IsLeap(y) then 29 else 28)
    else if m == 4 || m == 6 || m == 9 || m == 11 then 30
    else 31
  }

  /** Leap years among 1..n (proleptic, extended to n <= 0 by floor division). */
  function LeapsThrough(n: int): int {
    n / 4 - n / 100 + n / 400
  }

  /** Day number of January 1st of year `y`. */
  function YearStart(y: int): int {
    365 * (y - 1970) + LeapsThrough(y - 1) - LeapsThrough(1969)
  }

  /** Days of year `y` before the first of month `m`. */
  function DaysBeforeMonth(y: int, m: int): int
    requires 1 <= m <= 12
  {
    [0, 31, 59, 90, 120, 151, 181, 212, 243, 273, 304, 334][m - 1]
      + (if m > 2 && IsLeap(y) then 1 else 0)
  }

  /** Day number of day `d` of month `m` (1-12) of year `y`. */
  function DayNumber(y: int, m: int, d: int): int
    requires 1 <= m <= 12
  {
    YearStart(y) + DaysBeforeMonth(y, m) + d - 1
  }

  /** Weekday of a day number, Monday = 0 ... Sunday = 6 (day 0 is a Thursday). */
  function Weekday(n: int): (r: int)
    ensures 0 <= r < 7
  {
    (n + 3) % 7
  }

  /** Consecutive years abut: the next January 1st follows the last day of the year. */
  lemma YearLength(y: int)
    ensures YearStart(y + 1) == YearStart(y) + DaysInYear(y)
  {
    StepDiv4(y);
    StepDiv100(y);
    StepDiv400(y);
    MultiplesNest(y);
    var steps := (y / 4 - (y - 1) / 4) - (y / 100 - (y - 1) / 100) + (y / 400 - (y - 1) / 400);
    assert steps == if IsLeap(y) then 1 else 0;
    assert YearStart(y + 1) - YearStart(y) == 365 + LeapsThrough(y) - LeapsThrough(y - 1);
  }

  /** A multiple of 400 is one of 100, and a multiple of 100 is one of 4. */
  lemma MultiplesNest(y: int)
    ensures y % 400 == 0 ==> y % 100 == 0
    ensures y % 100 == 0 ==> y % 4 == 0
  {
    if y % 400 == 0 {
      MultipleOf100(4 * (y / 400));
    }
    if y % 100 == 0 {
      MultipleOf4(25 * (y / 100));
    }
  }

  lemma MultipleOf100(k: int)
    ensures (100 * k) % 100 == 0
  {
  }

  lemma MultipleOf4(k: int)
    ensures (4 * k) % 4 == 0
  {
  }

  /** Floor division by 4, 100 and 400 steps up exactly at the multiples. */
  lemma StepDiv4(y: int)
    ensures y / 4 - (y - 1) / 4 == if y % 4 == 0 then 1 else 0
  {
  }

  lemma StepDiv100(y: int)
    ensures y / 100 - (y - 1) / 100 == if y % 100 == 0 then 1 else 0
  {
  }

  lemma StepDiv400(y: int)
    ensures y / 400 - (y - 1) / 400 == if y % 400 == 0 then 1 else 0
  {
  }

  /** The month after month `m` of year `y`. */
  function NextMonth(y: int, m: int): (int, int)
    requires 1 <= m <= 12
  {
    if m == 12 then (y + 1, 1) else (y, m + 1)
  }

  /** Consecutive months abut: the first of the next month follows the last day of this one. */
  lemma MonthsAbut(y: int, m: int)
    requires 1 <= m <= 12
    ensures var (ny, nm) := NextMonth(y, m);
      DayNumber(ny, nm, 1) == DayNumber(y, m, DaysInMonth(y, m)) + 1
  {
    if m == 12 {
      YearLength(y);
    }
  }

  lemma DayNumberKnown()
    ensures DayNumber(1970, 1, 1) == 0
    ensures DayNumber(2000, 1, 1) == 10957
    ensures DayNumber(2024, 3, 1) == 19783
  {
  }

  /**
   * The weekday numbering starts on Monday: 1 January 1970 was a Thursday,
   * 3 March 2024 a Sunday and 4 March 2024 a Monday.
   */
  lemma WeekdayNumbering()
    ensures Weekday(DayNumber(1970, 1, 1)) == 3
    ensures Weekday(DayNumber(2024, 3, 3)) == 6
    ensures Weekday(DayNumber(2024, 3, 4)) == 0
  {
    DayNumberKnown();
  }

  /**
   * How `new Date(y, mi, 1)` reads its fields: a year from 0 to 99 means 1900
   * plus that year, and a month index outside 0..11 rolls into the neighbouring
   * years. The result is a year and a month from 1 to 12.
   */
  function DateFields(y: int, mi: int): (r: (int, int))
    ensures 1 <= r.1 <= 12
    ensures (r.0 * 12 + r.1 - 1) == (if 0 <= y <= 99 then 1900 + y else y) * 12 + mi
  {
    var fy := if 0 <= y <= 99 then 1900 + y else y;
    (fy + mi / 12, mi % 12 + 1)
  }

  /** `startOfMonth` of month `m` of year `y`, as an instant. */
  function MonthStart(y: int, m: int): Instant
    requires 1 <= m <= 12
  {
    DayNumber(y, m, 1) * MsPerDay
  }

  /** `endOfMonth` of month `m` of year `y`: 23:59:59.999 of its last day. */
  function MonthEnd(y: int, m: int): Instant
    requires 1 <= m <= 12
  {
    (DayNumber(y, m, DaysInMonth(y, m)) + 1) * MsPerDay - 1
  }

  /** There is one instant of a day within the month bounds exactly when that day lies in the month. */
  lemma MonthBoundsAreDays(y: int, m: int, t: Instant)
    requires 1 <= m <= 12
    ensures MonthStart(y, m) <= t <= MonthEnd(y, m)
      <==> DayNumber(y, m, 1) <= Day(t) <= DayNumber(y, m, DaysInMonth(y, m))
    ensures MonthStart(y, m) <= t <= MonthEnd(y, m)
      <==> exists d :: 1 <= d <= DaysInMonth(y, m) && Day(t) == DayNumber(y, m, d)
  {
    var first := DayNumber(y, m, 1);
    var last := DayNumber(y, m, DaysInMonth(y, m));
    assert first * MsPerDay <= t <==> first <= t / MsPerDay;
    assert t <= (last + 1) * MsPerDay - 1 <==> t / MsPerDay <= last;
    if first <= Day(t) <= last {
      var d := Day(t) - first + 1;
      assert Day(t) == DayNumber(y, m, d);
    }
  }

  /** A date as the grid holds it: a year, a 0-based month index as `getMonth` gives, and a day. */
  datatype CalDate = CalDate(year: int, month: int, day: int)

  ghost predicate ValidDate(d: CalDate) {
    0 <= d.month < 12 && 1 <= d.day <= DaysInMonth(d.year, d.month + 1)
  }

  /** Months since year 0 (the ordinal `addMonths` moves along). */
  function MonthOrdinal(d: CalDate): int {
    d.year * 12 + d.month
  }

  /**
   * date-fns `addMonths(d, n)`: the same day `n` months later (earlier for
   * negative `n`), clamped to the last day of a shorter target month.
   */
  function AddMonths(d: CalDate, n: int): (r: CalDate)
    requires ValidDate(d)
    ensures ValidDate(r)
    ensures MonthOrdinal(r) == MonthOrdinal(d) + n
    ensures r.day == if d.day <= DaysInMonth(r.year, r.month + 1) then d.day else DaysInMonth(r.year, r.month + 1)
  {
    var total := MonthOrdinal(d) + n;
    var y, mi := total / 12, total % 12;
    var dim := DaysInMonth(y, mi + 1);
    CalDate(y, mi, if d.day <= dim then d.day else dim)
  }

  /** Going one month forward and one back returns to the same month (the day may have been clamped). */
  lemma NextThenPrevSameMonth(d: CalDate)
    requires ValidDate(d)
    ensures MonthOrdinal(AddMonths(AddMonths(d, 1), -1)) == MonthOrdinal(d)
    ensures AddMonths(AddMonths(d, 1), -1).year == d.year
    ensures AddMonths(AddMonths(d, 1), -1).month == d.month
  {
  }
}
