/**
 * A small model of the proleptic Gregorian calendar as the .NET `DateTime`
 * type presents it: a civil date (year, month, day) plus a time of day in
 * 100-nanosecond ticks. Instants are ordered and subtracted by their tick
 * count since 0001-01-01T00:00, which is how `DateTime` compares values.
 *
 * `AddMonths` and `AddYears` follow the documented .NET rule that a day which
 * does not exist in the target month is clamped to that month's last day.
 * That rule belongs to the .NET library, not to this repository, and is an
 * assumption of the model.
 */
module Calendar {

  const TicksPerHour: int := 36_000_000_000
  const TicksPerDay: int := 864_000_000_000

  function Min(a: int, b: int): int { if a <= b then a else b }

  predicate IsLeapYear(year: int) {
    year % 4 == 0 && (year % 100 != 0 || year % 400 == 0)
  }

  function DaysInYear(year: int): int { if IsLeapYear(year) then 366 else 365 }

  function DaysInMonth(year: int, month: int): (n: int)
    requires 1 <= month <= 12
    ensures 28 <= n <= 31
  {
    if month == 2 then (if IsLeapYear(year) then 29 else 28)
    else if month == 4 || month == 6 || month == 9 || month == 11 then 30
    else 31
  }

  /** Days from 1 January of `year` to the first day of `month`. */
  function DaysBeforeMonth(year: int, month: int): int
    requires 1 <= month <= 12
  {
    var common :=
      if month == 1 then 0 else if month == 2 then 31 else if month == 3 then 59
      else if month == 4 then 90 else if month == 5 then 120 else if month == 6 then 151
      else if month == 7 then 181 else if month == 8 then 212 else if month == 9 then 243
      else if month == 10 then 273 else if month == 11 then 304 else 334;
    if month > 2 && IsLeapYear(year) then common + 1 else common
  }

  /** Days from 0001-01-01 to 1 January of `year`. */
  function DaysBeforeYear(year: int): int
    requires year >= 1
  {
    var y := year - 1;
    y * 365 + y / 4 - y / 100 + y / 400
  }

  datatype Civil = Civil(year: int, month: int, day: int, tickOfDay: int)

  predicate IsValid(c: Civil) {
    1 <= c.year && 1 <= c.month <= 12 && 1 <= c.day <= DaysInMonth(c.year, c.month)
    && 0 <= c.tickOfDay < TicksPerDay
  }

  /** A `DateTime` value. The upper bound of year 9999 is not modelled. */
  type DateTime = c: Civil | IsValid(c) witness Civil(1, 1, 1, 0)

  /** `default(DateTime)`, that is `DateTime.MinValue`. */
  const MinValue: DateTime := Civil(1, 1, 1, 0)

  /** Days since 0001-01-01. */
  function DayNumber(t: DateTime): int {
    DaysBeforeYear(t.year) + DaysBeforeMonth(t.year, t.month) + t.day - 1
  }

  /** `DateTime.Ticks`: 100-nanosecond ticks since 0001-01-01T00:00. */
  function Ticks(t: DateTime): int {
    DayNumber(t) * TicksPerDay + t.tickOfDay
  }

  /**
   * An order-preserving encoding of the calendar fields: day numbers below 32
   * and ticks below one day never carry into the next field. `AfterIsLaterInTicks`
   * shows that it orders instants exactly as `Ticks` does.
   */
  function Key(t: DateTime): int {
    ((t.year * 12 + t.month - 1) * 32 + t.day) * TicksPerDay + t.tickOfDay
  }

  /**
   * `a > b` on `DateTime`. .NET compares `Ticks`; `AfterIsLaterInTicks`
   * proves that this is the same order. It is stated on `Key` because `Key`
   * is linear in the fields, whereas `Ticks` goes through the leap-year day
   * count, which every proof about the billing loop would otherwise have to
   * unfold.
   */
  predicate After(a: DateTime, b: DateTime) {
    Key(a) > Key(b)
  }

  /** `a - b` on `DateTime`, a `TimeSpan` given in ticks. */
  function Subtract(a: DateTime, b: DateTime): int {
    Ticks(a) - Ticks(b)
  }

  /**
   * `span.TotalDays <= days` for a span given in ticks. `TotalDays` is a
   * double in .NET; here the comparison is exact.
   */
  predicate TotalDaysAtMost(span: int, days: int) {
    span <= days * TicksPerDay
  }

  /** Months since January of year 0, the scale on which `AddMonths` counts. */
  function MonthIndex(t: DateTime): int {
    t.year * 12 + t.month - 1
  }

  /**
   * `t.AddDays(n)` for a whole number of days up to 28, the length of the
   * shortest month, so that at most one month boundary is crossed.
   */
  function AddDays(t: DateTime, n: int): (r: DateTime)
    requires 0 <= n <= 28
    ensures n > 0 ==> After(r, t)
    ensures r.tickOfDay == t.tickOfDay
  {
    var length := DaysInMonth(t.year, t.month);
    if t.day + n <= length then
      t.(day := t.day + n)
    else if t.month < 12 then
      Civil(t.year, t.month + 1, t.day + n - length, t.tickOfDay)
    else
      Civil(t.year + 1, 1, t.day + n - length, t.tickOfDay)
  }

  /** `t.AddMonths(n)`: move `n` months on, clamping the day to the target month. */
  function AddMonths(t: DateTime, n: nat): (r: DateTime)
    ensures MonthIndex(r) == MonthIndex(t) + n
    ensures r.day == Min(t.day, DaysInMonth(r.year, r.month))
    ensures r.tickOfDay == t.tickOfDay
    ensures n > 0 ==> After(r, t)
  {
    var total := t.month - 1 + n;
    var year := t.year + total / 12;
    var month := total % 12 + 1;
    Civil(year, month, Min(t.day, DaysInMonth(year, month)), t.tickOfDay)
  }

  /** `t.AddYears(n)`: same month, clamping 29 February to 28 February. */
  function AddYears(t: DateTime, n: nat): (r: DateTime)
    ensures r.year == t.year + n && r.month == t.month
    ensures r.day == Min(t.day, DaysInMonth(r.year, r.month))
    ensures r.tickOfDay == t.tickOfDay
    ensures n > 0 ==> After(r, t)
  {
    Civil(t.year + n, t.month, Min(t.day, DaysInMonth(t.year + n, t.month)), t.tickOfDay)
  }

  // ---------------------------------------------------------------------------
  // Facts about the day count

  lemma DaysBeforeYearStep(year: int)
    requires year >= 1
    ensures DaysBeforeYear(year + 1) == DaysBeforeYear(year) + DaysInYear(year)
  {
    var y := year - 1;
    assert (y + 1) / 4 - y / 4 == if year % 4 == 0 then 1 else 0;
    assert (y + 1) / 100 - y / 100 == if year % 100 == 0 then 1 else 0;
    assert (y + 1) / 400 - y / 400 == if year % 400 == 0 then 1 else 0;
  }

  lemma DaysBeforeMonthStep(year: int, month: int)
    requires 1 <= month < 12
    ensures DaysBeforeMonth(year, month + 1) == DaysBeforeMonth(year, month) + DaysInMonth(year, month)
  {
  }

  lemma {:induction false} DaysBeforeYearMonotone(y1: int, y2: int)
    requires 1 <= y1 < y2
    ensures DaysBeforeYear(y1) + DaysInYear(y1) <= DaysBeforeYear(y2)
    decreases y2 - y1
  {
    DaysBeforeYearStep(y1);
    if y1 + 1 < y2 {
      DaysBeforeYearMonotone(y1 + 1, y2);
    }
  }

  lemma {:induction false} DaysBeforeMonthMonotone(year: int, m1: int, m2: int)
    requires 1 <= m1 < m2 <= 12
    ensures DaysBeforeMonth(year, m1) + DaysInMonth(year, m1) <= DaysBeforeMonth(year, m2)
    decreases m2 - m1
  {
    DaysBeforeMonthStep(year, m1);
    if m1 + 1 < m2 {
      DaysBeforeMonthMonotone(year, m1 + 1, m2);
    }
  }

  /** A date in a later month has more ticks, whatever the days and times of day. */
  lemma LaterMonthHasMoreTicks(a: DateTime, b: DateTime)
    requires MonthIndex(a) < MonthIndex(b)
    ensures Ticks(b) > Ticks(a)
  {
    if a.year == b.year {
      DaysBeforeMonthMonotone(a.year, a.month, b.month);
    } else {
      assert a.year < b.year;
      if a.month < 12 {
        DaysBeforeMonthMonotone(a.year, a.month, 12);
      }
      DaysBeforeYearMonotone(a.year, b.year);
    }
    assert DayNumber(a) + 1 <= DayNumber(b);
  }

  /** `AddYears(n)` is `AddMonths(12 * n)`. */
  lemma AddYearsIsTwelveMonths(t: DateTime, n: nat)
    ensures AddYears(t, n) == AddMonths(t, 12 * n)
  {
    var total := t.month - 1 + 12 * n;
    assert total / 12 == n && total % 12 == t.month - 1;
  }

  /** `AddDays(n)` adds exactly `n` days of ticks. */
  lemma AddDaysTicks(t: DateTime, n: int)
    requires 0 <= n <= 28
    ensures Ticks(AddDays(t, n)) == Ticks(t) + n * TicksPerDay
  {
    if t.day + n > DaysInMonth(t.year, t.month) {
      if t.month < 12 {
        DaysBeforeMonthStep(t.year, t.month);
      } else {
        DaysBeforeYearStep(t.year);
      }
    }
    assert DayNumber(AddDays(t, n)) == DayNumber(t) + n;
  }

  /** A date in a later month has a larger `Key`. */
  lemma LaterMonthHasLargerKey(a: DateTime, b: DateTime)
    requires MonthIndex(a) < MonthIndex(b)
    ensures Key(b) > Key(a)
  {
    assert Key(a) == (MonthIndex(a) * 32 + a.day) * TicksPerDay + a.tickOfDay;
    assert Key(b) == (MonthIndex(b) * 32 + b.day) * TicksPerDay + b.tickOfDay;
    assert MonthIndex(a) * 32 + a.day < MonthIndex(b) * 32 + b.day;
  }

  /** Within one month, `Key` and `Ticks` differ by the same amount. */
  lemma SameMonthDifference(a: DateTime, b: DateTime)
    requires MonthIndex(a) == MonthIndex(b)
    ensures a.year == b.year && a.month == b.month
    ensures Ticks(a) - Ticks(b) == (a.day - b.day) * TicksPerDay + a.tickOfDay - b.tickOfDay
    ensures Key(a) - Key(b) == (a.day - b.day) * TicksPerDay + a.tickOfDay - b.tickOfDay
  {
    assert DayNumber(a) - DayNumber(b) == a.day - b.day;
  }

  /** `After`, defined on the calendar fields, is the order of `Ticks`. */
  lemma AfterIsLaterInTicks(a: DateTime, b: DateTime)
    ensures After(a, b) <==> Ticks(a) > Ticks(b)
  {
    if MonthIndex(a) < MonthIndex(b) {
      LaterMonthHasMoreTicks(a, b);
      LaterMonthHasLargerKey(a, b);
    } else if MonthIndex(b) < MonthIndex(a) {
      LaterMonthHasMoreTicks(b, a);
      LaterMonthHasLargerKey(b, a);
    } else {
      SameMonthDifference(a, b);
    }
  }

  /** Equal tick counts mean the same calendar fields, so `==` on `DateTime` is field equality. */
  lemma SameTicksIsSameDate(a: DateTime, b: DateTime)
    ensures Ticks(a) == Ticks(b) <==> a == b
  {
    if MonthIndex(a) < MonthIndex(b) {
      LaterMonthHasMoreTicks(a, b);
    } else if MonthIndex(b) < MonthIndex(a) {
      LaterMonthHasMoreTicks(b, a);
    } else {
      SameMonthDifference(a, b);
      if a.day < b.day {
        assert Ticks(b) - Ticks(a) >= TicksPerDay - (a.tickOfDay - b.tickOfDay);
      } else if b.day < a.day {
        assert Ticks(a) - Ticks(b) >= TicksPerDay - (b.tickOfDay - a.tickOfDay);
      }
    }
  }
}
