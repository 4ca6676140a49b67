/**
 The proleptic Gregorian calendar by day numbers, day 1 being 1 January of
 year 1, a Monday.  Years are not limited to four digits.
 */
module Calendar {
  import opened Division

  datatype Date = Date(year: int, month: int, day: int)

  predicate Leap(y: int) {
    y % 4 == 0 && (y % 100 != 0 || y % 400 == 0)
  }

  function DaysBeforeYear(y: int): int {
    365 * (y - 1) + (y - 1) / 4 - (y - 1) / 100 + (y - 1) / 400
  }

  function DaysInMonth(y: int, month: int): int
    requires 1 <= month <= 12
  {
    if month == 2 then (if Leap(y) then 29 else 28)
    else if month == 4 || month == 6 || month == 9 || month == 11 then 30
    else 31
  }

  function DaysBeforeMonth(y: int, month: int): int
    requires 1 <= month <= 13
    decreases month
  {
    if month == 1 then 0 else DaysBeforeMonth(y, month - 1) + DaysInMonth(y, month - 1)
  }

  predicate ValidDate(date: Date) {
    1 <= date.month <= 12 && 1 <= date.day <= DaysInMonth(date.year, date.month)
  }

  function Ordinal(date: Date): int
    requires ValidDate(date)
  {
    DaysBeforeYear(date.year) + DaysBeforeMonth(date.year, date.month) + date.day
  }

  // Monday is 0.
  function Weekday(n: int): int {
    (n + 6) % 7
  }

  // --- lengths ---

  lemma Quotients(y: int)
    ensures y / 4 == (y - 1) / 4 + if y % 4 == 0 then 1 else 0
    ensures y / 100 == (y - 1) / 100 + if y % 100 == 0 then 1 else 0
    ensures y / 400 == (y - 1) / 400 + if y % 400 == 0 then 1 else 0
  {
    Quotient4(y);
    Quotient100(y);
    Quotient400(y);
  }

  lemma Quotient4(y: int)
    ensures y / 4 == (y - 1) / 4 + if y % 4 == 0 then 1 else 0
  {
  }

  lemma Quotient100(y: int)
    ensures y / 100 == (y - 1) / 100 + if y % 100 == 0 then 1 else 0
  {
  }

  lemma Quotient400(y: int)
    ensures y / 400 == (y - 1) / 400 + if y % 400 == 0 then 1 else 0
  {
  }

  lemma Centuries(y: int)
    ensures y % 400 == 0 ==> y % 100 == 0
    ensures y % 100 == 0 ==> y % 4 == 0
  {
    if y % 400 == 0 { Quotient(y, 100, 4 * (y / 400), 0); }
    if y % 100 == 0 { Quotient(y, 4, 25 * (y / 100), 0); }
  }

  lemma YearLength(y: int)
    ensures DaysBeforeYear(y + 1) == DaysBeforeYear(y) + 365 + if Leap(y) then 1 else 0
  {
    Quotients(y);
    Centuries(y);
  }

  lemma MonthsOfYear(y: int)
    ensures DaysBeforeMonth(y, 1) == 0
    ensures DaysBeforeMonth(y, 2) == 31
    ensures DaysBeforeMonth(y, 3) == 59 + if Leap(y) then 1 else 0
    ensures DaysBeforeMonth(y, 13) == 365 + if Leap(y) then 1 else 0
  {
    assert DaysBeforeMonth(y, 3) == 59 + if Leap(y) then 1 else 0;
    assert DaysBeforeMonth(y, 5) == DaysBeforeMonth(y, 3) + 61;
    assert DaysBeforeMonth(y, 7) == DaysBeforeMonth(y, 5) + 61;
    assert DaysBeforeMonth(y, 9) == DaysBeforeMonth(y, 7) + 62;
    assert DaysBeforeMonth(y, 11) == DaysBeforeMonth(y, 9) + 61;
    assert DaysBeforeMonth(y, 13) == DaysBeforeMonth(y, 11) + 61;
  }

  lemma {:induction false} MonthsGrow(y: int, a: int, b: int)
    requires 1 <= a <= b <= 13
    ensures DaysBeforeMonth(y, a) + 28 * (b - a) <= DaysBeforeMonth(y, b)
    decreases b
  {
    if a < b { MonthsGrow(y, a, b - 1); }
  }

  lemma {:induction false} YearsGrow(a: int, b: int)
    requires a <= b
    ensures DaysBeforeYear(a) + 365 * (b - a) <= DaysBeforeYear(b) <= DaysBeforeYear(a) + 366 * (b - a)
    decreases b - a
  {
    if a < b {
      YearsGrow(a, b - 1);
      YearLength(b - 1);
    }
  }

  lemma WithinYear(date: Date)
    requires ValidDate(date)
    ensures DaysBeforeYear(date.year) < Ordinal(date) <= DaysBeforeYear(date.year + 1)
  {
    MonthsGrow(date.year, 1, date.month);
    MonthsGrow(date.year, date.month + 1, 13);
    MonthsOfYear(date.year);
    YearLength(date.year);
  }

  // --- every day has one date ---

  lemma {:induction false} EveryDayHasADate(n: int) returns (date: Date)
    ensures ValidDate(date) && Ordinal(date) == n
    decreases if n >= 1 then n else 2 - n
  {
    if n == 1 {
      date := Date(1, 1, 1);
    } else if n > 1 {
      var eve := EveryDayHasADate(n - 1);
      date := NextDate(eve);
    } else {
      var morrow := EveryDayHasADate(n + 1);
      date := PreviousDate(morrow);
    }
  }

  lemma NextDate(d: Date) returns (next: Date)
    requires ValidDate(d)
    ensures ValidDate(next) && Ordinal(next) == Ordinal(d) + 1
  {
    YearLength(d.year);
    MonthsOfYear(d.year);
    if d.day < DaysInMonth(d.year, d.month) {
      next := d.(day := d.day + 1);
    } else if d.month < 12 {
      next := Date(d.year, d.month + 1, 1);
    } else {
      next := Date(d.year + 1, 1, 1);
    }
  }

  lemma PreviousDate(d: Date) returns (previous: Date)
    requires ValidDate(d)
    ensures ValidDate(previous) && Ordinal(previous) == Ordinal(d) - 1
  {
    YearLength(d.year - 1);
    MonthsOfYear(d.year - 1);
    if d.day > 1 {
      previous := d.(day := d.day - 1);
    } else if d.month > 1 {
      previous := Date(d.year, d.month - 1, DaysInMonth(d.year, d.month - 1));
    } else {
      previous := Date(d.year - 1, 12, 31);
    }
  }

  lemma SameYear(a: Date, b: Date)
    requires ValidDate(a) && ValidDate(b) && Ordinal(a) == Ordinal(b)
    ensures a.year <= b.year
  {
    hide Ordinal, DaysBeforeYear, ValidDate;
    WithinYear(a);
    WithinYear(b);
    if b.year < a.year { YearsGrow(b.year + 1, a.year); }
  }

  lemma SameMonth(a: Date, b: Date)
    requires ValidDate(a) && ValidDate(b) && a.year == b.year && Ordinal(a) == Ordinal(b)
    ensures a.month <= b.month
  {
    hide DaysBeforeYear, Leap;
    if b.month < a.month { MonthsGrow(a.year, b.month + 1, a.month); }
  }

  /** Distinct dates are distinct days. */
  lemma OneDatePerDay(a: Date, b: Date)
    requires ValidDate(a) && ValidDate(b) && Ordinal(a) == Ordinal(b)
    ensures a == b
  {
    hide DaysBeforeYear, DaysBeforeMonth, DaysInMonth;
    SameYear(a, b);
    SameYear(b, a);
    SameMonth(a, b);
    SameMonth(b, a);
  }

  lemma SomeDate(n: int)
    ensures exists date :: ValidDate(date) && Ordinal(date) == n
  {
    var date := EveryDayHasADate(n);
  }

  ghost function DateOf(n: int): (date: Date)
    ensures ValidDate(date) && Ordinal(date) == n
  {
    SomeDate(n);
    var date :| ValidDate(date) && Ordinal(date) == n;
    date
  }

  // --- leap years ---

  // The first leap year after y, at most eight years on.
  lemma NextLeap(y: int) returns (k: int)
    ensures 1 <= k <= 8 && Leap(y + k)
    ensures forall x :: y < x < y + k ==> !Leap(x)
    ensures !Leap(y) ==> k <= 7
    ensures DaysBeforeYear(y + k) == DaysBeforeYear(y) + 365 * k + if Leap(y) then 1 else 0
  {
    hide Leap, DaysBeforeYear;
    var m := LeapWithinEight(y);
    var w := LeapWithinEight(y - 1);
    k := 1;
    YearLength(y);
    while !Leap(y + k)
      invariant 1 <= k <= m && (!Leap(y) ==> k < w)
      invariant forall x :: y < x < y + k ==> !Leap(x)
      invariant DaysBeforeYear(y + k) == DaysBeforeYear(y) + 365 * k + if Leap(y) then 1 else 0
      decreases m - k
    {
      YearLength(y + k);
      k := k + 1;
    }
  }

  // Of two consecutive multiples of four, one is a leap year.
  lemma LeapWithinEight(y: int) returns (m: int)
    ensures 1 <= m <= 8 && Leap(y + m)
  {
    m := 4 - y % 4;
    assert (y + m) % 4 == 0;
    if !Leap(y + m) {
      FourYearsLater(y + m);
      m := m + 4;
    }
  }

  lemma FourYearsLater(c: int)
    requires c % 4 == 0 && c % 100 == 0
    ensures Leap(c + 4)
  {
    Quotient(c + 4, 4, c / 4 + 1, 0);
    Quotient(c + 4, 100, c / 100, 4);
  }

  // --- days one can look up ---

  /** The first days of the months of 2023, a leap day, and two days around centuries,
      by their numbers; day 738521 is a Sunday. */
  lemma KnownDays()
    ensures Ordinal(Date(2023, 1, 1)) == 738521 && Ordinal(Date(2023, 2, 1)) == 738552 && Ordinal(Date(2023, 3, 1)) == 738580
    ensures Ordinal(Date(2023, 4, 1)) == 738611 && Ordinal(Date(2023, 5, 1)) == 738641 && Ordinal(Date(2023, 6, 1)) == 738672
    ensures Ordinal(Date(2023, 7, 1)) == 738702 && Ordinal(Date(2023, 8, 1)) == 738733 && Ordinal(Date(2023, 9, 1)) == 738764
    ensures Ordinal(Date(2023, 10, 1)) == 738794 && Ordinal(Date(2023, 11, 1)) == 738825 && Ordinal(Date(2023, 12, 1)) == 738855
    ensures Ordinal(Date(2024, 2, 29)) == 738945 && Ordinal(Date(2024, 3, 1)) == 738946
    ensures Ordinal(Date(2000, 2, 29)) == 730179 && Ordinal(Date(1900, 3, 1)) == 693655
    ensures Weekday(738521) == 6 && Weekday(738522) == 0
  {
    assert DaysBeforeMonth(2023, 3) == 59 && DaysBeforeMonth(2023, 5) == 120;
    assert DaysBeforeMonth(2023, 7) == 181 && DaysBeforeMonth(2023, 9) == 243 && DaysBeforeMonth(2023, 11) == 304;
    assert DaysBeforeMonth(2024, 3) == 60 && DaysBeforeMonth(2000, 3) == 60 && DaysBeforeMonth(1900, 3) == 59;
  }
}
