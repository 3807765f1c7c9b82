/** UTC calendar arithmetic on millisecond time values, as ECMA-262 section 21.4.1 defines it
    for the Date methods the billing and usage code calls. Time values are unbounded integers. */
module UtcCalendar {
  const MS_PER_DAY: int := 86400000

  function Day(t: int): int { t / MS_PER_DAY }

  function TimeWithinDay(t: int): int { t % MS_PER_DAY }

  function MakeDate(day: int, time: int): int { day * MS_PER_DAY + time }

  predicate IsUtcDayBoundary(t: int) { TimeWithinDay(t) == 0 }

  function DayFromYear(y: int): int {
    365 * (y - 1970) + (y - 1969) / 4 - (y - 1901) / 100 + (y - 1601) / 400
  }

  predicate IsLeapYear(y: int) { y % 4 == 0 && (y % 100 != 0 || y % 400 == 0) }

  function DaysInYear(y: int): int { if IsLeapYear(y) then 366 else 365 }

  function DaysInMonth(y: int, m: int): int
    requires 0 <= m < 12
  {
    if m == 1 then (if IsLeapYear(y) then 29 else 28)
    else if m == 3 || m == 5 || m == 8 || m == 10 then 30
    else 31
  }

  /** Days of year y before month m (m == 12 gives the whole year). */
  function DaysBeforeMonth(y: int, m: int): (r: int)
    requires 0 <= m <= 12
    ensures 28 * m <= r <= 31 * m
    decreases m
  {
    if m == 0 then 0 else DaysBeforeMonth(y, m - 1) + DaysInMonth(y, m - 1)
  }

  /** The days before each month of a common year; a leap year has one more from March on. */
  lemma MonthTable(y: int, m: int)
    requires 0 <= m <= 12
    ensures var common := [0, 31, 59, 90, 120, 151, 181, 212, 243, 273, 304, 334, 365];
            DaysBeforeMonth(y, m) == common[m] + if m >= 2 && y % 4 == 0 && (y % 100 == 0 ==> y % 400 == 0) then 1 else 0
  {
    assert DaysBeforeMonth(y, 0) == 0;
    assert DaysBeforeMonth(y, 1) == 31;
    var february := DaysBeforeMonth(y, 2);
    assert DaysBeforeMonth(y, 3) == february + 31;
    assert DaysBeforeMonth(y, 4) == february + 61;
    assert DaysBeforeMonth(y, 5) == february + 92;
    assert DaysBeforeMonth(y, 6) == february + 122;
    assert DaysBeforeMonth(y, 7) == february + 153;
    assert DaysBeforeMonth(y, 8) == february + 184;
    assert DaysBeforeMonth(y, 9) == february + 214;
    assert DaysBeforeMonth(y, 10) == february + 245;
    assert DaysBeforeMonth(y, 11) == february + 275;
    assert DaysBeforeMonth(y, 12) == february + 306;
  }

  /** MakeDay: months outside 0..11 carry into the year, dates outside the month run on in days. */
  function MakeDay(year: int, month: int, date: int): int {
    DayFromYear(year + month / 12) + DaysBeforeMonth(year + month / 12, month % 12) + date - 1
  }

  lemma FourYearStep(y: int)
    ensures (y - 1968) / 4 == (y - 1969) / 4 + if y % 4 == 0 then 1 else 0
  {
  }

  lemma CenturyStep(y: int)
    ensures (y - 1900) / 100 == (y - 1901) / 100 + if y % 100 == 0 then 1 else 0
  {
  }

  lemma FourCenturyStep(y: int)
    ensures (y - 1600) / 400 == (y - 1601) / 400 + if y % 400 == 0 then 1 else 0
  {
  }

  lemma LeapRulesNest(y: int)
    ensures y % 100 == 0 ==> y % 4 == 0
    ensures y % 400 == 0 ==> y % 100 == 0
  {
    if y % 100 == 0 {
      assert y == 4 * (25 * (y / 100));
    }
    if y % 400 == 0 {
      assert y == 100 * (4 * (y / 400));
    }
  }

  lemma YearLength(y: int)
    ensures DayFromYear(y + 1) == DayFromYear(y) + DaysInYear(y)
  {
    FourYearStep(y);
    CenturyStep(y);
    FourCenturyStep(y);
    LeapRulesNest(y);
  }

  lemma MonthsFillYear(y: int)
    ensures DaysBeforeMonth(y, 12) == DaysInYear(y)
  {
    assert DaysBeforeMonth(y, 2) == DaysInMonth(y, 0) + DaysInMonth(y, 1);
    assert DaysBeforeMonth(y, 4) == DaysBeforeMonth(y, 2) + 61;
    assert DaysBeforeMonth(y, 6) == DaysBeforeMonth(y, 4) + 61;
    assert DaysBeforeMonth(y, 8) == DaysBeforeMonth(y, 6) + 62;
    assert DaysBeforeMonth(y, 10) == DaysBeforeMonth(y, 8) + 61;
    assert DaysBeforeMonth(y, 12) == DaysBeforeMonth(y, 10) + 61;
  }

  /** Every day of a year lies in one of its months. */
  lemma YearIsItsMonths(y: int)
    ensures DayFromYear(y + 1) == DayFromYear(y) + DaysBeforeMonth(y, 12)
  {
    YearLength(y);
    MonthsFillYear(y);
  }

  lemma {:induction false} YearsIncrease(y: int, z: int)
    requires y <= z
    ensures DayFromYear(y) + 365 * (z - y) <= DayFromYear(z)
    decreases z - y
  {
    if y < z {
      YearsIncrease(y, z - 1);
      YearLength(z - 1);
    }
  }

  function YearFromDay(day: int): (y: int)
    ensures DayFromYear(y) <= day < DayFromYear(y + 1)
  {
    if day >= DayFromYear(1970) then ClimbToYear(day, 1970) else DescendToYear(day, 1970)
  }

  function ClimbToYear(day: int, y: int): (r: int)
    requires DayFromYear(y) <= day
    ensures DayFromYear(r) <= day < DayFromYear(r + 1)
    decreases day - DayFromYear(y)
  {
    YearLength(y);
    if day < DayFromYear(y + 1) then y else ClimbToYear(day, y + 1)
  }

  function DescendToYear(day: int, y: int): (r: int)
    requires day < DayFromYear(y)
    ensures DayFromYear(r) <= day < DayFromYear(r + 1)
    decreases DayFromYear(y) - day
  {
    YearLength(y - 1);
    if DayFromYear(y - 1) <= day then y - 1 else DescendToYear(day, y - 1)
  }

  /** The month holding the given day of year y, searched upwards from month m. */
  function MonthFromDayOfYear(y: int, dayOfYear: int, m: int): (r: int)
    requires 0 <= m < 12
    requires DaysBeforeMonth(y, m) <= dayOfYear < DaysBeforeMonth(y, 12)
    ensures m <= r < 12
    ensures DaysBeforeMonth(y, r) <= dayOfYear < DaysBeforeMonth(y, r + 1)
    decreases 12 - m
  {
    if dayOfYear < DaysBeforeMonth(y, m + 1) then m else MonthFromDayOfYear(y, dayOfYear, m + 1)
  }

  function YearOf(t: int): int { YearFromDay(Day(t)) }

  function OffsetInYear(day: int, y: int): (d: int)
    requires DayFromYear(y) <= day < DayFromYear(y + 1)
    ensures 0 <= d < DaysBeforeMonth(y, 12)
  {
    YearIsItsMonths(y);
    day - DayFromYear(y)
  }

  function DayOfYear(t: int): (d: int)
    ensures 0 <= d < DaysBeforeMonth(YearOf(t), 12)
  {
    OffsetInYear(Day(t), YearOf(t))
  }

  function MonthOf(t: int): (m: int)
    ensures 0 <= m < 12
    ensures DaysBeforeMonth(YearOf(t), m) <= DayOfYear(t) < DaysBeforeMonth(YearOf(t), m + 1)
  {
    MonthFromDayOfYear(YearOf(t), DayOfYear(t), 0)
  }

  function DateOf(t: int): (d: int)
    ensures 1 <= d <= DaysInMonth(YearOf(t), MonthOf(t))
  {
    DayOfYear(t) - DaysBeforeMonth(YearOf(t), MonthOf(t)) + 1
  }

  function SetUtcDate(t: int, date: int): int {
    MakeDate(MakeDay(YearOf(t), MonthOf(t), date), TimeWithinDay(t))
  }

  function SetUtcMonth(t: int, month: int): int {
    MakeDate(MakeDay(YearOf(t), month, DateOf(t)), TimeWithinDay(t))
  }

  /** setUTCHours(0, 0, 0, 0) */
  function DayStart(t: int): (r: int)
    ensures IsUtcDayBoundary(r) && r % 86400000 == 0 && r <= t < r + 86400000
  {
    MakeDate(Day(t), 0)
  }

  function NextDayStart(t: int): int { SetUtcDate(DayStart(t), DateOf(DayStart(t)) + 1) }

  /** The calendar fields of a time rebuild it. */
  lemma FieldsRebuildDay(t: int)
    ensures MakeDay(YearOf(t), MonthOf(t), DateOf(t)) == Day(t)
  {
    MakeDayWithinYear(YearOf(t), MonthOf(t), DateOf(t));
  }

  /** Moving the date field moves time by whole days, across month and year ends alike. */
  lemma SetUtcDateShiftsByDays(t: int, days: int)
    ensures SetUtcDate(t, DateOf(t) + days) == t + days * 86400000
  {
    FieldsRebuildDay(t);
    assert MakeDay(YearOf(t), MonthOf(t), DateOf(t) + days) == Day(t) + days;
    assert (Day(t) + days) * MS_PER_DAY == Day(t) * MS_PER_DAY + days * MS_PER_DAY;
  }

  lemma DayAfterBoundary(t: int)
    requires IsUtcDayBoundary(t)
    ensures IsUtcDayBoundary(t + MS_PER_DAY)
  {
  }

  lemma NextDayStartIsOneDayOn(t: int)
    ensures NextDayStart(t) == DayStart(t) + 86400000
    ensures IsUtcDayBoundary(NextDayStart(t))
  {
    var start := DayStart(t);
    SetUtcDateShiftsByDays(start, 1);
    DayAfterBoundary(start);
  }

  lemma MakeDayWithinYear(y: int, m: int, d: int)
    requires 0 <= m < 12
    ensures MakeDay(y, m, d) == DayFromYear(y) + DaysBeforeMonth(y, m) + d - 1
  {
    assert m / 12 == 0 && m % 12 == m;
  }

  lemma MakeDayNextYear(y: int, d: int)
    ensures MakeDay(y, 12, d) == DayFromYear(y + 1) + d - 1
  {
    assert DaysBeforeMonth(y + 1, 0) == 0;
  }

  /** The first of the next month is the length of this month away, also over the year end. */
  lemma NextMonthStarts(y: int, m: int, d: int)
    requires 0 <= m < 12
    ensures MakeDay(y, m + 1, d) == MakeDay(y, m, d) + DaysInMonth(y, m)
  {
    MakeDayWithinYear(y, m, d);
    if m == 11 {
      MakeDayNextYear(y, d);
      YearIsItsMonths(y);
      assert DaysBeforeMonth(y, 12) == DaysBeforeMonth(y, 11) + DaysInMonth(y, 11);
    } else {
      MakeDayWithinYear(y, m + 1, d);
    }
  }

  /** setUTCMonth(getUTCMonth() + 1) moves time by exactly the length of the starting month. */
  lemma MonthAdvance(t: int)
    ensures SetUtcMonth(t, MonthOf(t) + 1) == t + DaysInMonth(YearOf(t), MonthOf(t)) * 86400000
  {
    FieldsRebuildDay(t);
    NextMonthStarts(YearOf(t), MonthOf(t), DateOf(t));
  }

  lemma {:induction false} MonthsIncrease(y: int, m: int, n: int)
    requires 0 <= m <= n <= 12
    ensures DaysBeforeMonth(y, m) + 28 * (n - m) <= DaysBeforeMonth(y, n)
    decreases n - m
  {
    if m < n {
      MonthsIncrease(y, m, n - 1);
    }
  }

  lemma YearIsUnique(day: int, y: int, z: int)
    requires DayFromYear(y) <= day < DayFromYear(y + 1)
    requires DayFromYear(z) <= day < DayFromYear(z + 1)
    ensures y == z
  {
    if z < y {
      YearsIncrease(z + 1, y);
    } else if y < z {
      YearsIncrease(y + 1, z);
    }
  }

  lemma MonthIsUnique(y: int, dayOfYear: int, m: int, n: int)
    requires 0 <= m < 12 && 0 <= n < 12
    requires DaysBeforeMonth(y, m) <= dayOfYear < DaysBeforeMonth(y, m + 1)
    requires DaysBeforeMonth(y, n) <= dayOfYear < DaysBeforeMonth(y, n + 1)
    ensures m == n
  {
    if n < m {
      MonthsIncrease(y, n + 1, m);
    } else if m < n {
      MonthsIncrease(y, m + 1, n);
    }
  }

  lemma YearIsReadBack(y: int, m: int, d: int, t: int)
    requires 0 <= m < 12 && 1 <= d <= DaysInMonth(y, m)
    requires Day(t) == DayFromYear(y) + DaysBeforeMonth(y, m) + d - 1
    ensures YearOf(t) == y
  {
    YearIsItsMonths(y);
    MonthsIncrease(y, m + 1, 12);
    YearIsUnique(Day(t), y, YearOf(t));
  }

  lemma DateLiesInMonth(y: int, m: int, d: int)
    requires 0 <= m < 12 && 1 <= d <= DaysInMonth(y, m)
    ensures DaysBeforeMonth(y, m) <= DaysBeforeMonth(y, m) + d - 1 < DaysBeforeMonth(y, m + 1)
  {
  }

  lemma MonthIsReadBack(m: int, t: int)
    requires 0 <= m < 12 && DaysBeforeMonth(YearOf(t), m) <= DayOfYear(t) < DaysBeforeMonth(YearOf(t), m + 1)
    ensures MonthOf(t) == m
  {
    MonthIsUnique(YearOf(t), DayOfYear(t), m, MonthOf(t));
  }

  /** A proper calendar date is read back from the day it denotes. */
  lemma FieldsAreUnique(y: int, m: int, d: int, t: int)
    requires 0 <= m < 12 && 1 <= d <= DaysInMonth(y, m)
    requires Day(t) == DayFromYear(y) + DaysBeforeMonth(y, m) + d - 1
    ensures YearOf(t) == y && MonthOf(t) == m && DateOf(t) == d
  {
    YearIsReadBack(y, m, d, t);
    DateLiesInMonth(y, m, d);
    MonthIsReadBack(m, t);
  }

  /** The clock starts on the first of January 1970. */
  lemma EpochFields(t: int)
    requires 0 <= t < 86400000
    ensures YearOf(t) == 1970 && MonthOf(t) == 0 && DateOf(t) == 1
  {
    FieldsAreUnique(1970, 0, 1, t);
  }

  lemma NextMonthDay(y: int, m: int, d: int)
    requires 0 <= m < 12
    ensures var (ny, nm) := FollowingMonth(y, m);
            MakeDay(y, m + 1, d) == DayFromYear(ny) + DaysBeforeMonth(ny, nm) + d - 1
  {
    if m == 11 {
      MakeDayNextYear(y, d);
    } else {
      MakeDayWithinYear(y, m + 1, d);
    }
  }

  lemma DayOfMadeDate(day: int, time: int)
    requires 0 <= time < MS_PER_DAY
    ensures Day(MakeDate(day, time)) == day
  {
  }

  lemma NextMonthFields(y: int, m: int, d: int, time: int, t: int)
    requires 0 <= m < 12 && 1 <= d <= DaysInMonth(y, m)
    requires 0 <= time < MS_PER_DAY
    requires t == MakeDate(MakeDay(y, m + 1, d), time)
    ensures MovesToMonthAfter(y, m, d, t)
  {
    NextMonthDay(y, m, d);
    DayOfMadeDate(MakeDay(y, m + 1, d), time);
    var (ny, nm) := FollowingMonth(y, m);
    OverflowFields(ny, nm, d, t);
  }

  /** t lies in the month after month m of year y on date d, or, when that month has no date d,
      as many days into the month after that as d overruns it. */
  predicate MovesToMonthAfter(y: int, m: int, d: int, t: int)
    requires 0 <= m < 12
  {
    var (ny, nm) := FollowingMonth(y, m);
    if d <= DaysInMonth(ny, nm)
    then YearOf(t) == ny && MonthOf(t) == nm && DateOf(t) == d
    else YearOf(t) == ny && MonthOf(t) == nm + 1 && DateOf(t) == d - DaysInMonth(ny, nm)
  }

  /** Fields of the d-th day counted from the first of month m, where d may run into the month after. */
  lemma OverflowFields(y: int, m: int, d: int, t: int)
    requires 0 <= m < 12 && 1 <= d <= 31
    requires m == 11 ==> d <= DaysInMonth(y, m)
    requires Day(t) == DayFromYear(y) + DaysBeforeMonth(y, m) + d - 1
    ensures if d <= DaysInMonth(y, m)
            then YearOf(t) == y && MonthOf(t) == m && DateOf(t) == d
            else YearOf(t) == y && MonthOf(t) == m + 1 && DateOf(t) == d - DaysInMonth(y, m)
  {
    if d <= DaysInMonth(y, m) {
      FieldsAreUnique(y, m, d, t);
    } else {
      assert DaysBeforeMonth(y, m + 1) == DaysBeforeMonth(y, m) + DaysInMonth(y, m);
      FieldsAreUnique(y, m + 1, d - DaysInMonth(y, m), t);
    }
  }

  /** The day of the month survives the step to the next month exactly when that month has it;
      otherwise the step overflows into the month after. */
  lemma MonthAdvanceKeepsDate(t: int)
    ensures MovesToMonthAfter(YearOf(t), MonthOf(t), DateOf(t), SetUtcMonth(t, MonthOf(t) + 1))
  {
    NextMonthFields(YearOf(t), MonthOf(t), DateOf(t), TimeWithinDay(t), SetUtcMonth(t, MonthOf(t) + 1));
  }

  function FollowingMonth(y: int, m: int): ((int, int))
    requires 0 <= m < 12
    ensures 0 <= FollowingMonth(y, m).1 < 12
  {
    if m == 11 then (y + 1, 0) else (y, m + 1)
  }
}
