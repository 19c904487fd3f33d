/**
 `schedule.Next`: the search that skips whole months, days, hours and minutes, proved to find the
 least matching minute, and proved never to give up while a match is still to come.
 */
module CronNext {
  import opened Calendar

  const MAX_ITERATIONS := 1461 * 24 * 60
  const NANOS_PER_MINUTE := 60_000_000_000

  datatype Schedule = Schedule(
    minutes: seq<int>, hours: seq<int>, doms: seq<int>, months: seq<int>, dows: seq<int>,
    domIsWild: bool, dowIsWild: bool)

  /** A reference time: a whole minute and the nanoseconds past it. */
  datatype Instant = Instant(minute: Time, nanos: int) {
    predicate Valid() { minute.Valid() && 0 <= nanos < NANOS_PER_MINUTE }

    function Nanos(): int
      requires Valid()
    {
      NANOS_PER_MINUTE * minute.MinuteNumber() + nanos
    }
  }

  datatype NextResult = Found(time: Time) | NoMatch

  predicate HasValueIn(values: seq<int>, lo: int, hi: int) {
    exists v :: v in values && lo <= v <= hi
  }

  /** What `Parse` guarantees of every schedule it returns. */
  predicate Parsed(s: Schedule) {
    && HasValueIn(s.minutes, 0, 59)
    && HasValueIn(s.hours, 0, 23)
    && HasValueIn(s.months, 1, 12)
    && HasValueIn(s.dows, 0, 6)
  }

  predicate MatchDay(s: Schedule, t: Time)
    requires t.Valid()
  {
    var domMatch := t.day in s.doms;
    var dowMatch := t.Weekday() in s.dows;
    if s.domIsWild && s.dowIsWild then true
    else if s.domIsWild then dowMatch
    else if s.dowIsWild then domMatch
    else domMatch || dowMatch
  }

  /** The simple meaning of a schedule: which minutes it fires on. */
  predicate Matches(s: Schedule, t: Time)
    requires t.Valid()
  {
    t.month in s.months && MatchDay(s, t) && t.hour in s.hours && t.minute in s.minutes
  }

  predicate After(t: Time, from: Instant)
    requires t.Valid() && from.Valid()
  {
    NANOS_PER_MINUTE * t.MinuteNumber() > from.Nanos()
  }

  function LongestMonth(month: int): int {
    if month == 2 then 29 else if month in {4, 6, 9, 11} then 30 else 31
  }

  /** Some listed day exists in some listed month. */
  predicate ListedDayExists(s: Schedule) {
    exists m, d :: m in s.months && d in s.doms && 1 <= m <= 12 && 1 <= d <= LongestMonth(m)
  }

  /** False exactly when day-of-month alone decides the day and names none that exists. */
  predicate CanMatch(s: Schedule) {
    s.dowIsWild && !s.domIsWild ==> ListedDayExists(s)
  }

  // ---------- existence of a match ----------

  /** A bound, in days, on the wait for the next matching day: eight years and the one in progress. */
  const LONGEST_WAIT := 9 * 366

  lemma ClockOf(s: Schedule) returns (hour: int, minute: int)
    requires Parsed(s)
    ensures 0 <= hour <= 23 && hour in s.hours
    ensures 0 <= minute <= 59 && minute in s.minutes
  {
    hour :| hour in s.hours && 0 <= hour <= 23;
    minute :| minute in s.minutes && 0 <= minute <= 59;
  }

  lemma WithinWait(t: Time, w: Time)
    requires t.Valid() && w.Valid() && t.year < w.year <= t.year + 8
    ensures t.DayNumber() < w.DayNumber() < t.DayNumber() + LONGEST_WAIT
  {
    DayWithinYear(t);
    DayWithinYear(w);
    YearsMonotone(t.year, w.year + 1);
    YearsMonotone(t.year + 1, w.year);
  }

  lemma WeekdayMatch(s: Schedule, t: Time) returns (w: Time)
    requires Parsed(s) && t.Valid() && (s.domIsWild || !s.dowIsWild)
    ensures w.Valid() && w.month in s.months && MatchDay(s, w)
    ensures w.year == t.year + 1
  {
    var month :| month in s.months && 1 <= month <= 12;
    var weekday :| weekday in s.dows && 0 <= weekday <= 6;
    w := WeekdayInFirstWeek(t.year + 1, month, weekday);
  }

  lemma ListedDayMatch(s: Schedule, t: Time) returns (w: Time)
    requires t.Valid() && s.dowIsWild && !s.domIsWild && ListedDayExists(s)
    ensures w.Valid() && w.month in s.months && MatchDay(s, w)
    ensures t.year < w.year <= t.year + 8
  {
    var m, d :| m in s.months && d in s.doms && 1 <= m <= 12 && 1 <= d <= LongestMonth(m);
    var year := LeapYearWithinEight(t.year + 1);
    w := Time(year, m, d, 0, 0);
  }

  /** A schedule that can match does so within `LONGEST_WAIT` days of any time. */
  lemma MatchWithinWait(s: Schedule, t: Time) returns (w: Time)
    requires Parsed(s) && CanMatch(s) && t.Valid()
    ensures w.Valid() && Matches(s, w)
    ensures t.DayNumber() < w.DayNumber() < t.DayNumber() + LONGEST_WAIT
  {
    var day: Time;
    if s.domIsWild || !s.dowIsWild {
      day := WeekdayMatch(s, t);
    } else {
      day := ListedDayMatch(s, t);
    }
    var hour, minute := ClockOf(s);
    w := day.(hour := hour, minute := minute);
    assert w.Weekday() == day.Weekday();
    WithinWait(t, w);
  }

  lemma NeverMatches(s: Schedule, t: Time)
    requires !CanMatch(s) && t.Valid()
    ensures !Matches(s, t)
  {
    assert t.day <= LongestMonth(t.month);
  }

  // ---------- what each skip passes over ----------

  /** No minute from `a` up to, and not including, `b` matches. */
  ghost predicate NoMatchBetween(s: Schedule, a: Time, b: Time)
    requires a.Valid() && b.Valid()
  {
    forall t: Time | t.Valid() && a.MinuteNumber() <= t.MinuteNumber() < b.MinuteNumber() :: !Matches(s, t)
  }

  /** Times that share a candidate's month, day or hour share what that field decides. */
  lemma SkipMonth(s: Schedule, c: Time)
    requires c.Valid() && c.month !in s.months
    ensures c.FirstOfNextMonth().Valid() && NoMatchBetween(s, c, c.FirstOfNextMonth())
    ensures c.DayNumber() < c.FirstOfNextMonth().DayNumber()
  {
    hide DaysBeforeYear, DaysBeforeMonth, Leap;
    StepsAdvance(c);
    var next := c.FirstOfNextMonth();
    forall t: Time | t.Valid() && c.MinuteNumber() <= t.MinuteNumber() < next.MinuteNumber()
      ensures !Matches(s, t)
    {
      OrderAgrees(t, c);
      OrderAgrees(t, next);
    }
  }

  lemma SkipDay(s: Schedule, c: Time)
    requires c.Valid() && !MatchDay(s, c)
    ensures c.NextMidnight().Valid() && NoMatchBetween(s, c, c.NextMidnight())
    ensures c.NextMidnight().DayNumber() == c.DayNumber() + 1
  {
    hide Time.DayNumber, Time.NextMidnight, DaysInMonth;
    StepsAdvance(c);
    forall t: Time | t.Valid() && c.MinuteNumber() <= t.MinuteNumber() < c.NextMidnight().MinuteNumber()
      ensures !Matches(s, t)
    {
      OrderAgrees(t, c);
    }
  }

  lemma SkipHour(s: Schedule, c: Time)
    requires c.Valid() && c.hour !in s.hours
    ensures c.NextHour().Valid() && NoMatchBetween(s, c, c.NextHour())
    ensures c.MinuteNumber() < c.NextHour().MinuteNumber() <= MINUTES_PER_DAY * (c.DayNumber() + 1)
  {
    hide DaysBeforeYear, DaysBeforeMonth, Leap;
    StepsAdvance(c);
    forall t: Time | t.Valid() && c.MinuteNumber() <= t.MinuteNumber() < c.NextHour().MinuteNumber()
      ensures !Matches(s, t)
    {
      OrderAgrees(t, c);
      assert t.hour == c.hour;
    }
  }

  lemma SkipMinute(s: Schedule, c: Time)
    requires c.Valid() && c.minute !in s.minutes
    ensures c.NextMinute().Valid() && NoMatchBetween(s, c, c.NextMinute())
    ensures c.NextMinute().MinuteNumber() == c.MinuteNumber() + 1
  {
    hide DaysBeforeYear, DaysBeforeMonth, Leap;
    StepsAdvance(c);
    forall t: Time | t.Valid() && c.MinuteNumber() <= t.MinuteNumber() < c.NextMinute().MinuteNumber()
      ensures !Matches(s, t)
    {
      OrderAgrees(t, c);
    }
  }

  lemma NoMatchExtends(s: Schedule, a: Time, b: Time, c: Time)
    requires a.Valid() && b.Valid() && c.Valid()
    requires NoMatchBetween(s, a, b) && NoMatchBetween(s, b, c)
    ensures NoMatchBetween(s, a, c)
  {
  }

  // ---------- how many iterations the search has used ----------

  /**
   The iterations spent by the time the search stands at `c`: at most one per minute of the first
   day, then one per day passed over, then one per minute of the day it stands on. A later day is
   left at midnight or stays the candidate's day because it matches.
   */
  predicate WithinBudget(s: Schedule, start: Time, c: Time, used: int)
    requires start.Valid() && c.Valid()
  {
    var days := c.DayNumber() - start.DayNumber();
    if days == 0 then used <= c.MinuteOfDay()
    else
      && days > 0
      && used <= MINUTES_PER_DAY + days + c.MinuteOfDay()
      && (c.MinuteOfDay() > 0 ==> c.month in s.months && MatchDay(s, c))
  }

  /** A day that matches and was searched from midnight holds a match, so the search cannot leave it. */
  lemma MatchingDayIsNotLeft(s: Schedule, start: Time, c: Time, next: Time)
    requires Parsed(s) && start.Valid() && c.Valid() && next.Valid()
    requires c.month in s.months && MatchDay(s, c)
    requires start.DayNumber() < c.DayNumber() && NoMatchBetween(s, start, next)
    ensures next.MinuteNumber() < MINUTES_PER_DAY * (c.DayNumber() + 1)
  {
    var hour, minute := ClockOf(s);
    var hit := c.(hour := hour, minute := minute);
    assert hit.Weekday() == c.Weekday();
    assert Matches(s, hit);
  }

  /** A step to a later day costs one iteration and arrives at midnight. */
  lemma BudgetAfterDaySkip(s: Schedule, start: Time, c: Time, next: Time, used: int)
    requires start.Valid() && c.Valid() && next.Valid()
    requires WithinBudget(s, start, c, used)
    requires !(c.month in s.months && MatchDay(s, c))
    requires c.DayNumber() < next.DayNumber() && next.MinuteOfDay() == 0
    ensures WithinBudget(s, start, next, used + 1)
  {
  }

  /** A step within a matching day costs one iteration and gains at least one minute. */
  lemma BudgetAfterClockSkip(s: Schedule, start: Time, c: Time, next: Time, used: int)
    requires Parsed(s) && start.Valid() && c.Valid() && next.Valid()
    requires WithinBudget(s, start, c, used) && start.MinuteNumber() <= c.MinuteNumber()
    requires c.month in s.months && MatchDay(s, c)
    requires NoMatchBetween(s, start, next)
    requires c.MinuteNumber() < next.MinuteNumber() <= MINUTES_PER_DAY * (c.DayNumber() + 1)
    ensures WithinBudget(s, start, next, used + 1)
  {
    if start.DayNumber() < c.DayNumber() {
      MatchingDayIsNotLeft(s, start, c, next);
    }
    if next.DayNumber() == c.DayNumber() {
      OrderAgrees(next, c);
    }
  }

  // ---------- the search ----------

  /** Everything the search knows at `c`. */
  ghost predicate Searched(s: Schedule, start: Time, c: Time, used: int) {
    && start.Valid() && c.Valid() && start.MinuteNumber() <= c.MinuteNumber()
    && NoMatchBetween(s, start, c)
    && WithinBudget(s, start, c, used)
  }

  lemma SearchStarts(s: Schedule, from: Instant)
    requires from.Valid()
    ensures from.minute.NextMinute().Valid() && Searched(s, from.minute.NextMinute(), from.minute.NextMinute(), 0)
  {
    StepsAdvance(from.minute);
  }

  lemma SearchSkipsMonth(s: Schedule, start: Time, c: Time, used: int)
    requires c.Valid() && Searched(s, start, c, used) && c.month !in s.months
    ensures c.FirstOfNextMonth().Valid() && Searched(s, start, c.FirstOfNextMonth(), used + 1)
  {
    SkipMonth(s, c);
    NoMatchExtends(s, start, c, c.FirstOfNextMonth());
    BudgetAfterDaySkip(s, start, c, c.FirstOfNextMonth(), used);
  }

  lemma SearchSkipsDay(s: Schedule, start: Time, c: Time, used: int)
    requires c.Valid() && Searched(s, start, c, used) && !MatchDay(s, c)
    ensures c.NextMidnight().Valid() && Searched(s, start, c.NextMidnight(), used + 1)
  {
    SkipDay(s, c);
    NoMatchExtends(s, start, c, c.NextMidnight());
    BudgetAfterDaySkip(s, start, c, c.NextMidnight(), used);
  }

  lemma SearchSkipsHour(s: Schedule, start: Time, c: Time, used: int)
    requires Parsed(s) && c.Valid() && Searched(s, start, c, used)
    requires c.month in s.months && MatchDay(s, c) && c.hour !in s.hours
    ensures c.NextHour().Valid() && Searched(s, start, c.NextHour(), used + 1)
  {
    SkipHour(s, c);
    NoMatchExtends(s, start, c, c.NextHour());
    BudgetAfterClockSkip(s, start, c, c.NextHour(), used);
  }

  lemma SearchSkipsMinute(s: Schedule, start: Time, c: Time, used: int)
    requires Parsed(s) && c.Valid() && Searched(s, start, c, used)
    requires c.month in s.months && MatchDay(s, c) && c.minute !in s.minutes
    ensures c.NextMinute().Valid() && Searched(s, start, c.NextMinute(), used + 1)
  {
    SkipMinute(s, c);
    NoMatchExtends(s, start, c, c.NextMinute());
    BudgetAfterClockSkip(s, start, c, c.NextMinute(), used);
  }

  /** `t` is the answer the minute-by-minute search would give. */
  ghost predicate LeastMatchAfter(s: Schedule, from: Instant, t: Time)
    requires from.Valid()
  {
    && t.Valid() && Matches(s, t) && After(t, from)
    && forall u: Time | u.Valid() && Matches(s, u) && After(u, from) :: t.MinuteNumber() <= u.MinuteNumber()
  }

  lemma FoundIsLeast(s: Schedule, from: Instant, c: Time, used: int)
    requires from.Valid() && c.Valid() && Searched(s, from.minute.NextMinute(), c, used) && Matches(s, c)
    ensures LeastMatchAfter(s, from, c) && CanMatch(s)
  {
    StepsAdvance(from.minute);
    if !CanMatch(s) {
      NeverMatches(s, c);
    }
  }

  /** Spending every iteration takes the search past the longest wait, which a match would not allow. */
  lemma ExhaustedMeansUnmatchable(s: Schedule, start: Time, c: Time)
    requires Parsed(s) && Searched(s, start, c, MAX_ITERATIONS)
    ensures !CanMatch(s)
    ensures forall t: Time | t.Valid() :: !Matches(s, t)
  {
    if CanMatch(s) {
      var w := MatchWithinWait(s, start);
      assert false;
    }
    forall t: Time | t.Valid()
      ensures !Matches(s, t)
    {
      NeverMatches(s, t);
    }
  }

  /**
   `Next`: the least whole minute strictly after `from` that satisfies every field; and it reports
   no match exactly when no day can ever match, whatever `from` is.
   */
  method Next(s: Schedule, from: Instant) returns (r: NextResult)
    requires Parsed(s) && from.Valid()
    ensures r.Found? ==> LeastMatchAfter(s, from, r.time)
    ensures r.NoMatch? <==> !CanMatch(s)
    ensures r.NoMatch? ==> forall t: Time | t.Valid() :: !Matches(s, t)
  {
    hide MatchDay, CanMatch, LeastMatchAfter, Parsed, Searched, Time.NextMinute, Time.NextHour, Time.NextMidnight, Time.FirstOfNextMonth;
    SearchStarts(s, from);
    var candidate := from.minute.NextMinute();
    ghost var start := candidate;
    for i := 0 to MAX_ITERATIONS
      invariant candidate.Valid() && Searched(s, start, candidate, i)
    {
      if candidate.month !in s.months {
        SearchSkipsMonth(s, start, candidate, i);
        candidate := candidate.FirstOfNextMonth();
        continue;
      }
      if !MatchDay(s, candidate) {
        SearchSkipsDay(s, start, candidate, i);
        candidate := candidate.NextMidnight();
        continue;
      }
      if candidate.hour !in s.hours {
        SearchSkipsHour(s, start, candidate, i);
        candidate := candidate.NextHour();
        continue;
      }
      if candidate.minute !in s.minutes {
        SearchSkipsMinute(s, start, candidate, i);
        candidate := candidate.NextMinute();
        continue;
      }
      FoundIsLeast(s, from, candidate, i);
      return Found(candidate);
    }
    ExhaustedMeansUnmatchable(s, start, candidate);
    r := NoMatch;
  }

  // ---------- the two day fields ----------

  /** A schedule that restricts one day field fires on the days that field lists; one that restricts none, on every day. */
  lemma OneDayField(s: Schedule, t: Time)
    requires t.Valid()
    ensures MatchDay(s.(domIsWild := true, dowIsWild := true), t)
    ensures MatchDay(s.(domIsWild := false, dowIsWild := true), t) <==> t.day in s.doms
    ensures MatchDay(s.(domIsWild := true, dowIsWild := false), t) <==> t.Weekday() in s.dows
  {
  }

  /** A schedule that restricts both fires when either of the two that restrict one would. */
  lemma BothDayFields(s: Schedule, t: Time)
    requires t.Valid() && !s.domIsWild && !s.dowIsWild
    ensures Matches(s, t) <==> Matches(s.(dowIsWild := true), t) || Matches(s.(domIsWild := true), t)
  {
  }

  /** So its next time is the earlier of theirs, and the weekdays' alone when no listed day of the month exists. */
  lemma NextOfBoth(s: Schedule, from: Instant, t: Time, byDay: Time, byWeekday: Time)
    requires from.Valid() && !s.domIsWild && !s.dowIsWild && LeastMatchAfter(s, from, t)
    requires LeastMatchAfter(s.(domIsWild := true), from, byWeekday)
    requires LeastMatchAfter(s.(dowIsWild := true), from, byDay) || !CanMatch(s.(dowIsWild := true))
    ensures t == if CanMatch(s.(dowIsWild := true)) && byDay.Valid() && byDay.MinuteNumber() < byWeekday.MinuteNumber() then byDay else byWeekday
  {
    hide Matches, CanMatch;
    BothDayFields(s, t);
    BothDayFields(s, byWeekday);
    OrderAgrees(t, byWeekday);
    if !CanMatch(s.(dowIsWild := true)) {
      NeverMatches(s.(dowIsWild := true), t);
    } else {
      BothDayFields(s, byDay);
      OrderAgrees(t, byDay);
      OrderAgrees(byDay, byWeekday);
    }
  }
}
