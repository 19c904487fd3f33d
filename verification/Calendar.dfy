/**
 The proleptic Gregorian calendar behind Go's `time.Time` in UTC, at minute resolution,
 with unbounded years. `MinuteNumber` counts minutes from 0001-01-01 00:00.
 */
module Calendar {

  const MINUTES_PER_DAY := 1440
  const DAYS_PER_ERA := 146097

  predicate Leap(year: int) {
    year % 4 == 0 && (year % 100 != 0 || year % 400 == 0)
  }

  function DaysInMonth(year: int, month: int): (n: int)
    requires 1 <= month <= 12
    ensures 28 <= n <= 31
  {
    if month == 2 then (if Leap(year) then 29 else 28)
    else if month in {4, 6, 9, 11} then 30
    else 31
  }

  function DaysInYear(year: int): int {
    if Leap(year) then 366 else 365
  }

  function DaysBeforeYear(year: int): int {
    365 * (year - 1) + (year - 1) / 4 - (year - 1) / 100 + (year - 1) / 400
  }

  function DaysBeforeMonth(year: int, month: int): int
    requires 1 <= month <= 13
  {
    [0, 31, 59, 90, 120, 151, 181, 212, 243, 273, 304, 334, 365][month - 1] + (if month > 2 && Leap(year) then 1 else 0)
  }

  datatype Time = Time(year: int, month: int, day: int, hour: int, minute: int) {
    predicate Valid() {
      && 1 <= month <= 12
      && 1 <= day <= DaysInMonth(year, month)
      && 0 <= hour <= 23
      && 0 <= minute <= 59
    }

    function MinuteOfDay(): int { 60 * hour + minute }

    function DayNumber(): int
      requires Valid()
    {
      DaysBeforeYear(year) + DaysBeforeMonth(year, month) + day - 1
    }

    function MinuteNumber(): int
      requires Valid()
    {
      MINUTES_PER_DAY * DayNumber() + MinuteOfDay()
    }

    /** Sunday is 0; day 0 (0001-01-01) was a Monday. */
    function Weekday(): (w: int)
      requires Valid()
      ensures 0 <= w <= 6
    {
      (DayNumber() + 1) % 7
    }

    /** `time.Date(y, m+1, 1, 0, 0, ...)`: month 13 normalizes to January of the next year. */
    function FirstOfNextMonth(): Time {
      if month == 12 then Time(year + 1, 1, 1, 0, 0) else Time(year, month + 1, 1, 0, 0)
    }

    /** `AddDate(0, 0, 1)` followed by a truncation to midnight. */
    function NextMidnight(): Time
      requires Valid()
    {
      if day == DaysInMonth(year, month) then FirstOfNextMonth() else Time(year, month, day + 1, 0, 0)
    }

    /** `Add(time.Hour)` followed by a truncation to the hour. */
    function NextHour(): Time
      requires Valid()
    {
      if hour == 23 then NextMidnight() else Time(year, month, day, hour + 1, 0)
    }

    /** `Add(time.Minute)`. */
    function NextMinute(): Time
      requires Valid()
    {
      if minute == 59 then NextHour() else Time(year, month, day, hour, minute + 1)
    }
  }

  /** Field-by-field order. */
  predicate Earlier(a: Time, b: Time) {
    || a.year < b.year
    || (a.year == b.year && a.month < b.month)
    || (a.year == b.year && a.month == b.month && a.day < b.day)
    || (a.year == b.year && a.month == b.month && a.day == b.day && a.MinuteOfDay() < b.MinuteOfDay())
  }

  lemma MonthLength(year: int, month: int)
    requires 1 <= month <= 12
    ensures DaysBeforeMonth(year, month + 1) == DaysBeforeMonth(year, month) + DaysInMonth(year, month)
  {
  }

  /** Each quotient steps up exactly at its multiples. */
  lemma QuotientSteps(n: int)
    ensures n / 4 == (n - 1) / 4 + (if n % 4 == 0 then 1 else 0)
    ensures n / 100 == (n - 1) / 100 + (if n % 100 == 0 then 1 else 0)
    ensures n / 400 == (n - 1) / 400 + (if n % 400 == 0 then 1 else 0)
    ensures n % 100 == 0 ==> n % 4 == 0
    ensures n % 400 == 0 ==> n % 100 == 0
  {
  }

  lemma YearLength(year: int)
    ensures DaysBeforeYear(year + 1) == DaysBeforeYear(year) + DaysInYear(year)
  {
    QuotientSteps(year);
  }

  lemma {:induction false} YearsMonotone(a: int, b: int)
    requires a <= b
    ensures DaysBeforeYear(a) + 365 * (b - a) <= DaysBeforeYear(b) <= DaysBeforeYear(a) + 366 * (b - a)
    decreases b - a
  {
    if a < b {
      YearLength(a);
      YearsMonotone(a + 1, b);
    }
  }

  lemma {:induction false} MonthsMonotone(year: int, a: int, b: int)
    requires 1 <= a <= b <= 13
    ensures DaysBeforeMonth(year, a) + 28 * (b - a) <= DaysBeforeMonth(year, b)
    ensures a < b ==> DaysBeforeMonth(year, a) + DaysInMonth(year, a) <= DaysBeforeMonth(year, b)
    decreases b - a
  {
    if a < b {
      MonthLength(year, a);
      MonthsMonotone(year, a + 1, b);
    }
  }

  /** A day's number lies within its year. */
  lemma DayWithinYear(t: Time)
    requires t.Valid()
    ensures DaysBeforeYear(t.year) <= t.DayNumber() < DaysBeforeYear(t.year + 1)
  {
    MonthsMonotone(t.year, 1, t.month);
    MonthsMonotone(t.year, t.month, 13);
    YearLength(t.year);
  }

  /** The field order and the minute count agree, so the count determines the time. */
  lemma OrderAgrees(a: Time, b: Time)
    requires a.Valid() && b.Valid()
    ensures Earlier(a, b) <==> a.MinuteNumber() < b.MinuteNumber()
    ensures a.MinuteNumber() == b.MinuteNumber() ==> a == b
    ensures a.DayNumber() == b.DayNumber() <==> (a.year, a.month, a.day) == (b.year, b.month, b.day)
  {
    if Earlier(a, b) {
      EarlierCounts(a, b);
    } else if Earlier(b, a) {
      EarlierCounts(b, a);
    }
  }

  lemma EarlierCounts(a: Time, b: Time)
    requires a.Valid() && b.Valid() && Earlier(a, b)
    ensures a.MinuteNumber() < b.MinuteNumber()
    ensures (a.year, a.month, a.day) != (b.year, b.month, b.day) ==> a.DayNumber() < b.DayNumber()
  {
    if a.year < b.year {
      DayWithinYear(a);
      DayWithinYear(b);
      YearsMonotone(a.year + 1, b.year);
    } else if a.month < b.month {
      MonthsMonotone(a.year, a.month, b.month);
    }
  }

  /** Steps to a later day land on a valid midnight a known number of days ahead. */
  lemma DayStepsAdvance(t: Time)
    requires t.Valid()
    ensures t.NextMidnight().Valid() && t.NextMidnight().DayNumber() == t.DayNumber() + 1
    ensures t.FirstOfNextMonth().Valid()
    ensures t.FirstOfNextMonth().DayNumber() == t.DayNumber() - t.day + 1 + DaysInMonth(t.year, t.month)
  {
    hide DaysBeforeYear;
    YearLength(t.year);
    MonthLength(t.year, t.month);
  }

  /** Each calendar step lands on a valid time a known distance ahead. */
  lemma StepsAdvance(t: Time)
    requires t.Valid()
    ensures t.NextMidnight().Valid() && t.NextMidnight().MinuteNumber() == MINUTES_PER_DAY * (t.DayNumber() + 1)
    ensures t.NextMidnight().DayNumber() == t.DayNumber() + 1
    ensures t.NextHour().Valid() && t.NextHour().MinuteNumber() == t.MinuteNumber() - t.minute + 60
    ensures t.NextMinute().Valid() && t.NextMinute().MinuteNumber() == t.MinuteNumber() + 1
    ensures t.FirstOfNextMonth().Valid()
    ensures t.FirstOfNextMonth().DayNumber() == t.DayNumber() - t.day + 1 + DaysInMonth(t.year, t.month)
  {
    hide DaysBeforeYear, DaysBeforeMonth, Leap;
    DayStepsAdvance(t);
  }

  lemma EraStart(era: int)
    ensures DaysBeforeYear(400 * era + 1) == DAYS_PER_ERA * era
  {
  }

  lemma {:induction false} NthDayOfEra(era: int, n: nat) returns (t: Time)
    ensures t.Valid() && t.hour == t.minute == 0 && t.DayNumber() == DAYS_PER_ERA * era + n
  {
    if n == 0 {
      t := Time(400 * era + 1, 1, 1, 0, 0);
      EraStart(era);
    } else {
      var before := NthDayOfEra(era, n - 1);
      t := before.NextMidnight();
      StepsAdvance(before);
    }
  }

  /** Every minute of the time line, past or future, is the count of exactly one valid time. */
  lemma EveryMinuteIsATime(n: int) returns (t: Time)
    ensures t.Valid() && t.MinuteNumber() == n
    ensures forall u: Time | u.Valid() && u.MinuteNumber() == n :: u == t
  {
    var day, minute := n / MINUTES_PER_DAY, n % MINUTES_PER_DAY;
    var midnight := NthDayOfEra(day / DAYS_PER_ERA, day % DAYS_PER_ERA);
    t := midnight.(hour := minute / 60, minute := minute % 60);
    forall u: Time | u.Valid() && u.MinuteNumber() == n
      ensures u == t
    {
      OrderAgrees(u, t);
    }
  }

  /** How many days from day `n` to the next weekday `w`. */
  function WeekdayGap(n: int, w: int): (k: int)
    requires 0 <= w <= 6
    ensures 0 <= k <= 6 && (n + k) % 7 == w
  {
    (w - n) % 7
  }

  /** Seven consecutive days of one month cover every weekday. */
  lemma WeekdayInFirstWeek(year: int, month: int, weekday: int) returns (t: Time)
    requires 1 <= month <= 12 && 0 <= weekday <= 6
    ensures t.Valid() && t.year == year && t.month == month && t.day <= 7
    ensures t.Weekday() == weekday && t.hour == t.minute == 0
  {
    var first := Time(year, month, 1, 0, 0);
    t := Time(year, month, 1 + WeekdayGap(first.DayNumber() + 1, weekday), 0, 0);
    assert t.DayNumber() == first.DayNumber() + t.day - 1;
  }

  /** At most eight years separate a year from the next leap year. */
  lemma LeapYearWithinEight(year: int) returns (y: int)
    ensures year <= y < year + 8 && Leap(y)
  {
    y := year + (-year) % 4;
    if !Leap(y) {
      assert y % 100 == 0 && y % 400 != 0;
      y := y + 4;
    }
  }

  /** 1 January 1970 was a Thursday, and each midnight brings the next day of the week. */
  lemma WeekdaysRun(t: Time)
    requires t.Valid()
    ensures Time(1970, 1, 1, 0, 0).Weekday() == 4
    ensures t.NextMidnight().Valid() && t.NextMidnight().Weekday() == if t.Weekday() == 6 then 0 else t.Weekday() + 1
  {
    hide DaysBeforeMonth;
    DayStepsAdvance(t);
    assert DaysBeforeMonth(1970, 1) == 0 by { MonthStarts(1970); }
  }

  lemma MonthStarts(year: int)
    ensures DaysBeforeMonth(year, 1) == 0
  {
  }
}
