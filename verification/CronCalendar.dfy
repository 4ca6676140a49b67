/**
 Why searching eight years is enough: in a zone with a fixed offset, a cron
 expression has an occurrence in reach of every instant, or none at all.
 Instants are counted from the beginning of year 1.
 */
module CronCalendar {
  import opened Options
  import opened Calendar
  import opened Cron
  import opened Sets
  import Schedules

  const DAY := 24 * 60

  // The local minute of an instant, counted like the instant.
  function LocalMinute(offset: int, t: int): int {
    (t + offset) / MINUTE
  }

  ghost function LocalTime(offset: int, t: int): Civil {
    var m := LocalMinute(offset, t);
    var n := m / DAY + 1;
    Civil(DateOf(n).month, DateOf(n).day, Weekday(n), m / 60 % 24, m % 60)
  }

  ghost function Occurs(e: Expression, offset: int): int -> bool {
    t => Matches(e, LocalTime(offset, t))
  }

  function LongestMonth(month: int): int
    requires 1 <= month <= 12
  {
    DaysInMonth(4, month)
  }

  // Some allowed day of an allowed month exists in some year.
  predicate DatePossible(e: Expression)
    requires WithinLimits(e)
  {
    exists month <- e.months, day <- e.days :: day <= LongestMonth(month)
  }

  predicate Possible(e: Expression)
    requires WithinLimits(e)
  {
    && e.minutes != {} && e.hours != {} && e.months != {}
    && if e.dayWildcard then e.weekdays != {}
       else if e.weekdayWildcard then DatePossible(e)
       else DatePossible(e) || e.weekdays != {}
  }

  ghost predicate DayOccurs(e: Expression, n: int) {
    DateOf(n).month in e.months && DayMatches(e, DateOf(n).day, Weekday(n))
  }

  /** Which days a weekday number means: days are counted from a Monday, Sunday is 0
      and Saturday 6; and how it combines with the day of the month. */
  lemma DayRule(e: Expression, n: int)
    ensures var dayOfMonth, dayOfWeek := DateOf(n).day in e.days, n % 7 in e.weekdays;
            DayMatches(e, DateOf(n).day, Weekday(n)) <==>
              match (e.dayWildcard, e.weekdayWildcard)
              case (true, _) => dayOfWeek
              case (false, true) => dayOfMonth
              case (false, false) => dayOfMonth || dayOfWeek
  {
    assert (n + 6) % 7 == n % 7 - 1 || ((n + 6) % 7 == 6 && n % 7 == 0);
  }

  /** An instant within the minute h:m of day n, in a zone east of Greenwich by an
      offset, is an occurrence exactly if the fields have all of these. */
  lemma OccursExactly(e: Expression, offset: int, n: int, h: int, m: int, rest: int)
    requires 0 <= h < 24 && 0 <= m < 60 && 0 <= rest < MINUTE
    ensures Occurs(e, offset)(((n - 1) * DAY + h * 60 + m) * MINUTE + rest - offset) <==>
              m in e.minutes && h in e.hours && DateOf(n).month in e.months && DayMatches(e, DateOf(n).day, Weekday(n))
  {
    var t := ((n - 1) * DAY + h * 60 + m) * MINUTE + rest - offset;
    ClockOf(n - 1, h, m);
    MinuteOf(offset, (n - 1) * DAY + h * 60 + m, rest);
    hide LocalMinute, DateOf, Weekday, DayMatches;
  }

  lemma MinuteOf(offset: int, minute: int, rest: int)
    requires 0 <= rest < MINUTE
    ensures LocalMinute(offset, minute * MINUTE + rest - offset) == minute
  {
  }

  // --- the next day of a kind ---

  lemma DateIs(date: Date)
    requires ValidDate(date)
    ensures DateOf(Ordinal(date)) == date
  {
    OneDatePerDay(DateOf(Ordinal(date)), date);
  }

  // A day of next year is at most two years away.
  lemma InNextYear(n: int, date: Date)
    requires ValidDate(date) && date.year == DateOf(n).year + 1
    ensures n < Ordinal(date) <= n + 732
  {
    hide DaysBeforeYear, DaysBeforeMonth, Leap;
    var y := DateOf(n).year;
    WithinYear(DateOf(n));
    WithinYear(date);
    YearsGrow(y, y + 2);
  }

  lemma NextLeapDay(n: int) returns (k: int)
    ensures n < k <= n + 2921 && DateOf(k).month == 2 && DateOf(k).day == 29
  {
    var today := DateOf(n);
    var y := today.year;
    WithinYear(today);
    YearLength(y);
    if Leap(y) && n < Ordinal(Date(y, 2, 29)) {
      MonthsOfYear(y);
      k := Ordinal(Date(y, 2, 29));
      DateIs(Date(y, 2, 29));
      LeapDay(y);
    } else {
      var j := NextLeap(y);
      k := Ordinal(Date(y + j, 2, 29));
      DateIs(Date(y + j, 2, 29));
      LeapDay(y + j);
      if Leap(y) { LeapDay(y); }
      hide DaysBeforeYear, Leap;
      YearsGrow(y + 1, y + j);
    }
  }

  lemma LeapDay(y: int)
    requires Leap(y)
    ensures Ordinal(Date(y, 2, 29)) == DaysBeforeYear(y) + 60
  {
    MonthsOfYear(y);
  }

  lemma NextDateOf(n: int, month: int, day: int) returns (k: int)
    requires 1 <= month <= 12 && 1 <= day <= LongestMonth(month)
    ensures n < k <= n + 2921 && DateOf(k).month == month && DateOf(k).day == day
  {
    if month == 2 && day == 29 {
      k := NextLeapDay(n);
    } else {
      var date := Date(DateOf(n).year + 1, month, day);
      k := Ordinal(date);
      DateIs(date);
      InNextYear(n, date);
    }
  }

  lemma WaitFor(first: int, weekday: int) returns (wait: int)
    requires 0 <= weekday <= 6
    ensures 0 <= wait <= 6 && (Weekday(first + wait) + 1) % 7 == weekday
  {
    wait := (weekday - first) % 7;
  }

  lemma NextWeekday(n: int, month: int, weekday: int) returns (k: int)
    requires 1 <= month <= 12 && 0 <= weekday <= 6
    ensures n < k <= n + 2921 && DateOf(k).month == month && (Weekday(k) + 1) % 7 == weekday
  {
    var first := Date(DateOf(n).year + 1, month, 1);
    hide Weekday, Leap;
    var wait := WaitFor(Ordinal(first), weekday);
    var date := first.(day := 1 + wait);
    k := Ordinal(date);
    assert k == Ordinal(first) + wait;
    DateIs(date);
    InNextYear(n, date);
  }

  lemma NextDay(e: Expression, n: int) returns (k: int)
    requires WithinLimits(e) && Possible(e)
    ensures n < k <= n + 2921 && DayOccurs(e, k)
  {
    if !e.dayWildcard && DatePossible(e) {
      var month, day :| month in e.months && day in e.days && day <= LongestMonth(month);
      k := NextDateOf(n, month, day);
    } else {
      var month, weekday := Member(e.months), Member(e.weekdays);
      k := NextWeekday(n, month, weekday);
    }
  }

  // --- instants ---

  // The whole instant that shows a given local minute.
  function InstantOf(offset: int, m: int): int {
    (m - offset / MINUTE) * MINUTE
  }

  lemma InstantShows(offset: int, m: int)
    ensures Whole(InstantOf(offset, m)) && LocalMinute(offset, InstantOf(offset, m)) == m
  {
    var q, r := offset / MINUTE, offset % MINUTE;
    assert InstantOf(offset, m) + offset == m * MINUTE + r;
  }

  lemma Reach(offset: int, after: int, m: int)
    requires LocalMinute(offset, Floor(after)) < m <= LocalMinute(offset, Floor(after)) + LIMIT
    ensures after < InstantOf(offset, m) <= Floor(after) + LIMIT * MINUTE
  {
    var q, r := offset / MINUTE, offset % MINUTE;
    var f := Floor(after) / MINUTE;
    assert Floor(after) == f * MINUTE;
    assert Floor(after) + offset == (f + q) * MINUTE + r;
    assert LocalMinute(offset, Floor(after)) == f + q;
  }

  lemma ClockOf(day: int, hour: int, minute: int)
    requires 0 <= hour < 24 && 0 <= minute < 60
    ensures var m := day * DAY + hour * 60 + minute; m / DAY == day && m / 60 % 24 == hour && m % 60 == minute
  {
    var m := day * DAY + hour * 60 + minute;
    assert m / 60 == day * 24 + hour;
  }

  lemma ClockBound(now: int, k: int, hour: int, minute: int)
    requires now / DAY + 1 < k <= now / DAY + 1 + 2921 && 0 <= hour < 24 && 0 <= minute < 60
    ensures now < (k - 1) * DAY + hour * 60 + minute <= now + LIMIT
  {
  }

  // A day of the right kind, at an allowed hour and minute, is an occurrence.
  lemma ShowsOccurrence(e: Expression, offset: int, k: int, hour: int, minute: int)
    requires WithinLimits(e) && DayOccurs(e, k) && hour in e.hours && minute in e.minutes
    ensures var t := InstantOf(offset, (k - 1) * DAY + hour * 60 + minute); Whole(t) && Occurs(e, offset)(t)
  {
    var m := (k - 1) * DAY + hour * 60 + minute;
    InstantShows(offset, m);
    ClockOf(k - 1, hour, minute);
    hide LocalMinute, InstantOf, Whole, DateOf, Weekday, DayMatches;
  }

  lemma NextOccurrence(e: Expression, offset: int, after: int) returns (t: int)
    requires WithinLimits(e) && Possible(e)
    ensures Whole(t) && after < t <= Floor(after) + LIMIT * MINUTE && Occurs(e, offset)(t)
  {
    var now := LocalMinute(offset, Floor(after));
    var k := NextDay(e, now / DAY + 1);
    var hour, minute := Member(e.hours), Member(e.minutes);
    t := InstantOf(offset, (k - 1) * DAY + hour * 60 + minute);
    hide LocalMinute, InstantOf, Floor, Possible, Whole, Occurs, DayOccurs;
    ShowsOccurrence(e, offset, k, hour, minute);
    ClockBound(now, k, hour, minute);
    Reach(offset, after, (k - 1) * DAY + hour * 60 + minute);
  }

  lemma ReachBack(offset: int, value: int, m: int)
    requires LocalMinute(offset, Floor(value)) - LIMIT < m <= LocalMinute(offset, Floor(value))
    ensures Floor(value) - LIMIT * MINUTE < InstantOf(offset, m) <= value
  {
    var q, r := offset / MINUTE, offset % MINUTE;
    var f := Floor(value) / MINUTE;
    assert Floor(value) == f * MINUTE;
    assert Floor(value) + offset == (f + q) * MINUTE + r;
    assert LocalMinute(offset, Floor(value)) == f + q;
  }

  lemma ClockBoundBack(now: int, k: int, hour: int, minute: int)
    requires now / DAY + 1 - 2922 < k <= now / DAY + 1 - 1 && 0 <= hour < 24 && 0 <= minute < 60
    ensures now - LIMIT < (k - 1) * DAY + hour * 60 + minute <= now
  {
  }

  // The day of the occurrence is at most 2921 days before the day of the instant.
  lemma EarlierOccurrence(e: Expression, offset: int, value: int) returns (t: int)
    requires WithinLimits(e) && Possible(e)
    ensures Whole(t) && Floor(value) - LIMIT * MINUTE < t <= value && Occurs(e, offset)(t)
  {
    var now := LocalMinute(offset, Floor(value));
    var k := NextDay(e, now / DAY + 1 - 2922);
    var hour, minute := Member(e.hours), Member(e.minutes);
    t := InstantOf(offset, (k - 1) * DAY + hour * 60 + minute);
    hide LocalMinute, InstantOf, Floor, Possible, Whole, Occurs, DayOccurs;
    ShowsOccurrence(e, offset, k, hour, minute);
    ClockBoundBack(now, k, hour, minute);
    ReachBack(offset, value, (k - 1) * DAY + hour * 60 + minute);
  }

  lemma OccurrenceIsPossible(e: Expression, offset: int, t: int)
    requires WithinLimits(e) && Occurs(e, offset)(t)
    ensures Possible(e)
  {
    var n := LocalMinute(offset, t) / DAY + 1;
    var date := DateOf(n);
    assert date.day <= LongestMonth(date.month);
    assert date.day in e.days ==> DatePossible(e);
  }

  /** The eight-year search is complete: from any instant it succeeds exactly when
      the fields allow some date at all, and when it fails there is no occurrence
      at any time. */
  lemma EightYearsSuffice(e: Expression, offset: int, after: int, r: Option<int>)
    requires WithinLimits(e) && NextIs(Occurs(e, offset), after, r)
    ensures r.Some? <==> Possible(e)
    ensures r.None? ==> forall t :: !Occurs(e, offset)(t)
  {
    if r.Some? { OccurrenceIsPossible(e, offset, r.value); }
    if Possible(e) { var t := NextOccurrence(e, offset, after); }
    forall t | Occurs(e, offset)(t) ensures Possible(e) {
      OccurrenceIsPossible(e, offset, t);
    }
  }

  /** The search into the past is complete in the same way. */
  lemma EightYearsBackSuffice(e: Expression, offset: int, value: int, r: Option<int>)
    requires WithinLimits(e) && PreviousIs(Occurs(e, offset), value, r)
    ensures r.Some? <==> Possible(e)
    ensures r.None? ==> forall t :: !Occurs(e, offset)(t)
  {
    if r.Some? { OccurrenceIsPossible(e, offset, r.value); }
    if Possible(e) { var t := EarlierOccurrence(e, offset, value); }
    forall t | Occurs(e, offset)(t) ensures Possible(e) {
      OccurrenceIsPossible(e, offset, t);
    }
  }

  /** The searches a job needs fail exactly when its expression allows no date at
      all.  A job whose next run is an occurrence never makes a tick fail. */
  lemma SearchesFailExactly(e: Expression, offset: int, now: int)
    requires WithinLimits(e)
    ensures Schedules.SearchFails(Schedules.CronSchedule(Occurs(e, offset)), now) <==> !Possible(e)
    ensures forall t :: Occurs(e, offset)(t) ==> !Schedules.SearchFails(Schedules.CronSchedule(Occurs(e, offset)), now)
  {
    forall t | Occurs(e, offset)(t) ensures Possible(e) { OccurrenceIsPossible(e, offset, t); }
    hide WithinLimits, Possible, NextIs, PreviousIs, Occurs;
    if NextIs(Occurs(e, offset), now, None) { EightYearsSuffice(e, offset, now, None); }
    forall t | PreviousIs(Occurs(e, offset), t, None) ensures !Possible(e) { EightYearsBackSuffice(e, offset, t, None); }
    if !Possible(e) { Impossible(e, offset, now); }
  }

  lemma Impossible(e: Expression, offset: int, now: int)
    requires WithinLimits(e) && !Possible(e)
    ensures NextIs(Occurs(e, offset), now, None)
  {
    forall t ensures !Occurs(e, offset)(t) {
      if Occurs(e, offset)(t) { OccurrenceIsPossible(e, offset, t); }
    }
  }
}
