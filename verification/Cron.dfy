/**
 Five-field cron expressions: parsing a field, matching a local time, and the
 search for the next or the previous occurrence.  An instant is a number of
 microseconds; occurrences are whole minutes.
 */
module Cron {
  import opened Options
  import opened Calendar
  import opened Texts
  import Division

  // --- fields ---

  datatype Range = Range(start: int, end: int, step: int) {
    predicate Contains(v: int) {
      step > 0 && start <= v <= end && (v - start) % step == 0
    }
  }

  // The meaning of one comma-separated part; `toInt` reads a number.
  function PartRange(part: string, low: int, high: int, toInt: string -> Option<int>): (r: Option<Range>)
    ensures r.Some? ==> r.value.step > 0 && low <= r.value.start && r.value.end <= high
  {
    var i := IndexOf(part, '/');
    var base, slash := part[..i], i < |part|;
    var step := if slash then toInt(part[i + 1..]) else Some(1);
    if step.None? || step.value <= 0 then None
    else
      var dash := IndexOf(base, '-');
      var bounds :=
        if base == "*" then Some((low, high))
        else if dash < |base| then
          var start, end := toInt(base[..dash]), toInt(base[dash + 1..]);
          if start.None? || end.None? || start.value > end.value then None else Some((start.value, end.value))
        else
          var start := toInt(base);
          if start.None? then None else Some((start.value, if slash then high else start.value));
      if bounds.None? || bounds.value.0 < low || bounds.value.1 > high then None
      else Some(Range(bounds.value.0, bounds.value.1, step.value))
  }

  /** The numbers of a range, counted from its start. */
  lemma ContainsExactly(r: Range, v: int)
    requires r.step > 0
    ensures r.Contains(v) <==> exists k: nat :: v == r.start + k * r.step && v <= r.end
  {
    if r.Contains(v) {
      var k := (v - r.start) / r.step;
      assert k >= 0 && v == r.start + k * r.step;
    }
    if k: nat :| v == r.start + k * r.step && v <= r.end {
      Division.AddMultiple(0, k, r.step);
      assert k * r.step >= 0;
    }
  }

  /** What the forms of a part mean: a star is everything, a number itself, and two
      numbers around a minus the range between them. */
  lemma PlainPart(low: int, high: int, toInt: string -> Option<int>, a: string, b: string)
    requires '/' !in a && '-' !in a && a != "*" && '/' !in b
    ensures PartRange("*", low, high, toInt) == Some(Range(low, high, 1))
    ensures PartRange(a, low, high, toInt) ==
              if toInt(a).Some? && low <= toInt(a).value <= high then Some(Range(toInt(a).value, toInt(a).value, 1)) else None
    ensures PartRange(a + "-" + b, low, high, toInt) ==
              if toInt(a).Some? && toInt(b).Some? && low <= toInt(a).value <= toInt(b).value <= high
              then Some(Range(toInt(a).value, toInt(b).value, 1)) else None
  {
    IndexIs("*", '/', 1);
    IndexIs(a, '/', |a|);
    IndexIs(a, '-', |a|);
    assert "*"[..1] == "*" && a[..|a|] == a;
    var t := a + "-" + b;
    IndexIs(t, '/', |t|);
    IndexIs(t, '-', |a|);
    assert t[..|t|] == t && t[..|a|] == a && t[|a| + 1..] == b && t[|a|] == '-';
    assert t != "*" by { assert "*"[0] != '-'; }
  }

  /** A step after a slash takes every so many of them; after a number, of those from
      the number to the maximum. */
  lemma StepPart(low: int, high: int, toInt: string -> Option<int>, base: string, s: string)
    requires '/' !in base
    ensures var step := toInt(s);
            PartRange(base + "/" + s, low, high, toInt) ==
              if step.None? || step.value <= 0 then None
              else if base == "*" || '-' in base then
                var r := PartRange(base, low, high, toInt); if r.None? then None else Some(Range(r.value.start, r.value.end, step.value))
              else if toInt(base).None? || toInt(base).value < low then None
              else Some(Range(toInt(base).value, high, step.value))
  {
    var t := base + "/" + s;
    IndexIs(t, '/', |base|);
    IndexIs(base, '/', |base|);
    assert t[..|base|] == base && t[|base| + 1..] == s && base[..|base|] == base;
  }

  predicate GoodField(text: string, low: int, high: int, toInt: string -> Option<int>) {
    text != "" && forall part <- Split(text, ',') :: PartRange(part, low, high, toInt).Some?
  }

  // Some part of the field contains the number.
  predicate Denotes(text: string, low: int, high: int, toInt: string -> Option<int>, v: int) {
    exists part <- Split(text, ',') :: PartRange(part, low, high, toInt).Some? && PartRange(part, low, high, toInt).value.Contains(v)
  }

  /** The numbers of a field, refused exactly when it is empty or a part is bad.
      In the weekday field 7 is another name for 0. */
  method ParseField(text: string, low: int, high: int, dow: bool, toInt: string -> Option<int>) returns (r: Option<set<int>>)
    requires dow ==> low == 0 && high == 7
    ensures r.Some? <==> GoodField(text, low, high, toInt)
    ensures r.Some? && !dow ==> forall v :: v in r.value <==> Denotes(text, low, high, toInt, v)
    ensures r.Some? && dow ==>
              forall v :: v in r.value <==> v != 7 && (Denotes(text, low, high, toInt, v) || (v == 0 && Denotes(text, low, high, toInt, 7)))
    ensures r.Some? ==> forall v <- r.value :: low <= v <= if dow then 6 else high
  {
    if text == "" { return None; }
    var values: set<int> := {};
    var parts := Split(text, ',');
    for n := 0 to |parts|
      invariant forall part <- parts[..n] :: PartRange(part, low, high, toInt).Some?
      invariant forall v :: v in values <==>
                  exists part <- parts[..n] :: PartRange(part, low, high, toInt).Some? && PartRange(part, low, high, toInt).value.Contains(v)
    {
      var range := PartRange(parts[n], low, high, toInt);
      assert parts[..n + 1] == parts[..n] + [parts[n]];
      if range.None? {
        assert parts[n] in parts;
        return None;
      }
      values := values + set v | range.value.start <= v <= range.value.end && range.value.Contains(v);
    }
    assert parts[..|parts|] == parts;
    if dow && 7 in values { values := values - {7} + {0}; }
    return Some(values);
  }

  /** A part is accepted and yet names nothing exactly when it is N/step with N
      above the maximum. */
  lemma EmptyPart(part: string, low: int, high: int, toInt: string -> Option<int>, v: int)
    requires low <= high && PartRange(part, low, high, toInt).Some?
    ensures var range, i := PartRange(part, low, high, toInt).value, IndexOf(part, '/');
            if '/' in part && part[..i] != "*" && '-' !in part[..i] && toInt(part[..i]).Some? && toInt(part[..i]).value > high
            then !range.Contains(v)
            else range.Contains(range.start)
  {
    var i := IndexOf(part, '/');
    assert i == |part| ==> part[..i] == part;
    var base := part[..i];
    assert base[..IndexOf(base, '-')] == base || '-' in base;
  }

  // Such as a minute field of 70/1, which is accepted and has no minutes.
  lemma EmptyPartHappens(toInt: string -> Option<int>, v: int)
    requires toInt("70") == Some(70) && toInt("1") == Some(1)
    ensures GoodField("70/1", 0, 59, toInt) && !Denotes("70/1", 0, 59, toInt, v)
  {
    var part := "70/1";
    IndexIs(part, ',', 4);
    assert Split(part, ',') == [part];
    IndexIs(part, '/', 2);
    assert part[..2] == "70" && part[3..] == "1";
    IndexIs("70", '-', 2);
    EmptyPart(part, 0, 59, toInt, v);
  }

  // --- expressions ---

  datatype Expression = Expression(
    minutes: set<int>, hours: set<int>, days: set<int>, months: set<int>, weekdays: set<int>,
    dayWildcard: bool, weekdayWildcard: bool)

  // What every parsed expression satisfies.
  predicate WithinLimits(e: Expression) {
    && (forall v <- e.minutes :: 0 <= v <= 59) && (forall v <- e.hours :: 0 <= v <= 23) && (forall v <- e.days :: 1 <= v <= 31)
    && (forall v <- e.months :: 1 <= v <= 12) && (forall v <- e.weekdays :: 0 <= v <= 6)
  }

  method Parse(fields: seq<string>, toInt: string -> Option<int>) returns (r: Option<Expression>)
    ensures r.Some? <==> |fields| == 5 && GoodField(fields[0], 0, 59, toInt) && GoodField(fields[1], 0, 23, toInt)
                         && GoodField(fields[2], 1, 31, toInt) && GoodField(fields[3], 1, 12, toInt) && GoodField(fields[4], 0, 7, toInt)
    ensures r.Some? ==> WithinLimits(r.value)
                        && (forall v :: v in r.value.minutes <==> Denotes(fields[0], 0, 59, toInt, v))
                        && (forall v :: v in r.value.hours <==> Denotes(fields[1], 0, 23, toInt, v))
                        && (forall v :: v in r.value.days <==> Denotes(fields[2], 1, 31, toInt, v))
                        && (forall v :: v in r.value.months <==> Denotes(fields[3], 1, 12, toInt, v))
                        && (forall v :: v in r.value.weekdays <==>
                              v != 7 && (Denotes(fields[4], 0, 7, toInt, v) || (v == 0 && Denotes(fields[4], 0, 7, toInt, 7))))
                        && r.value.dayWildcard == (fields[2] == "*") && r.value.weekdayWildcard == (fields[4] == "*")
  {
    if |fields| != 5 { return None; }
    var minutes := ParseField(fields[0], 0, 59, false, toInt);
    if minutes.None? { return None; }
    var hours := ParseField(fields[1], 0, 23, false, toInt);
    if hours.None? { return None; }
    var days := ParseField(fields[2], 1, 31, false, toInt);
    if days.None? { return None; }
    var months := ParseField(fields[3], 1, 12, false, toInt);
    if months.None? { return None; }
    var weekdays := ParseField(fields[4], 0, 7, true, toInt);
    if weekdays.None? { return None; }
    return Some(Expression(minutes.value, hours.value, days.value, months.value, weekdays.value, fields[2] == "*", fields[4] == "*"));
  }

  // A local time; Monday is weekday 0 here, and 1 in an expression.
  datatype Civil = Civil(month: int, day: int, weekday: int, hour: int, minute: int)

  predicate DayMatches(e: Expression, day: int, weekday: int) {
    var weekdayMatches := (weekday + 1) % 7 in e.weekdays;
    if e.dayWildcard then weekdayMatches
    else if e.weekdayWildcard then day in e.days
    else day in e.days || weekdayMatches
  }

  predicate Matches(e: Expression, local: Civil) {
    && local.minute in e.minutes && local.hour in e.hours && local.month in e.months
    && DayMatches(e, local.day, local.weekday)
  }

  // --- searching ---

  const MINUTE := 60_000_000
  const LIMIT := 8 * 366 * 24 * 60

  function Floor(t: int): int {
    t - t % MINUTE
  }

  predicate Whole(t: int) {
    t % MINUTE == 0
  }

  // The least occurrence strictly after an instant, if there is one in reach.
  ghost predicate NextIs(matches: int -> bool, after: int, r: Option<int>) {
    if r.Some? then
      && Whole(r.value) && matches(r.value) && after < r.value <= Floor(after) + LIMIT * MINUTE
      && forall t :: after < t < r.value && Whole(t) ==> !matches(t)
    else
      forall t :: after < t <= Floor(after) + LIMIT * MINUTE && Whole(t) ==> !matches(t)
  }

  // The greatest occurrence at or before an instant, if there is one in reach.
  ghost predicate PreviousIs(matches: int -> bool, value: int, r: Option<int>) {
    if r.Some? then
      && Whole(r.value) && matches(r.value) && Floor(value) - LIMIT * MINUTE < r.value <= value
      && forall t :: r.value < t <= value && Whole(t) ==> !matches(t)
    else
      forall t :: Floor(value) - LIMIT * MINUTE < t <= value && Whole(t) ==> !matches(t)
  }

  // The k-th candidate of a search.
  function Candidate(first: int, direction: int, k: nat): int {
    if direction > 0 then first + k * MINUTE else first - k * MINUTE
  }

  function First(value: int, direction: int, inclusive: bool): int {
    if inclusive && direction < 0 then Floor(value) else Floor(value) + direction * MINUTE
  }

  method Scan(matches: int -> bool, value: int, direction: int, inclusive: bool) returns (r: Option<int>)
    requires direction == 1 || direction == -1
    ensures var first := First(value, direction, inclusive);
            if r.Some? then
              exists k: nat :: k < LIMIT && r.value == Candidate(first, direction, k) && matches(r.value)
                               && forall j: nat | j < k :: !matches(Candidate(first, direction, j))
            else
              forall k: nat | k < LIMIT :: !matches(Candidate(first, direction, k))
  {
    var candidate := value - value % MINUTE;
    if !inclusive || (direction > 0 && candidate <= value) {
      candidate := candidate + direction * MINUTE;
    } else if direction < 0 && candidate > value {
      candidate := candidate - MINUTE;
    }
    ghost var first := First(value, direction, inclusive);
    for n := 0 to LIMIT
      invariant candidate == Candidate(first, direction, n)
      invariant forall j: nat | j < n :: !matches(Candidate(first, direction, j))
    {
      if matches(candidate) { return Some(candidate); }
      candidate := candidate + direction * MINUTE;
    }
    return None;
  }

  lemma WholeSteps(from: int, t: int) returns (k: int)
    requires Whole(from) && Whole(t)
    ensures t == from + k * MINUTE
  {
    k := t / MINUTE - from / MINUTE;
  }

  method NextAfter(matches: int -> bool, after: int) returns (r: Option<int>)
    ensures NextIs(matches, after, r)
  {
    r := Scan(matches, after, 1, false);
    ghost var first := First(after, 1, false);
    forall t | after < t <= Floor(after) + LIMIT * MINUTE && Whole(t) && (r.Some? ==> t < r.value) ensures !matches(t) {
      var k := WholeSteps(first, t);
      assert t == Candidate(first, 1, k);
    }
  }

  method PreviousOrAt(matches: int -> bool, value: int) returns (r: Option<int>)
    ensures PreviousIs(matches, value, r)
  {
    r := Scan(matches, value, -1, true);
    ghost var first := First(value, -1, true);
    forall t | Floor(value) - LIMIT * MINUTE < t <= value && Whole(t) && (r.Some? ==> r.value < t) ensures !matches(t) {
      var k := WholeSteps(t, first);
      assert t == Candidate(first, -1, k);
    }
  }

  // --- what the searches mean together ---

  // Two occurrences with none between.
  ghost predicate Adjacent(matches: int -> bool, a: int, b: int) {
    && a < b && Whole(a) && Whole(b) && matches(a) && matches(b)
    && forall t :: a < t < b && Whole(t) ==> !matches(t)
  }

  /** The two searches are inverse on adjacent occurrences within reach: b is next
      after a exactly when a is the last before b, and from anywhere between them
      one leads to a and the other to b. */
  lemma SearchesAreInverse(matches: int -> bool, a: int, b: int)
    requires Whole(a) && Whole(b) && matches(a) && matches(b) && b - a <= LIMIT * MINUTE
    ensures NextIs(matches, a, Some(b)) <==> Adjacent(matches, a, b)
    ensures PreviousIs(matches, b - 1, Some(a)) <==> Adjacent(matches, a, b)
    ensures Adjacent(matches, a, b) ==>
              forall t :: a <= t < b ==> NextIs(matches, t, Some(b)) && PreviousIs(matches, t, Some(a))
  {
    FloorOfEve(b);
    if Adjacent(matches, a, b) {
      forall t | a <= t < b ensures NextIs(matches, t, Some(b)) && PreviousIs(matches, t, Some(a)) {
        FloorBetween(a, t, b);
      }
      assert NextIs(matches, a, Some(b)) && PreviousIs(matches, b - 1, Some(a));
    }
  }

  lemma FloorOfEve(b: int)
    requires Whole(b)
    ensures Floor(b - 1) == b - MINUTE
  {
  }

  lemma FloorBetween(a: int, t: int, b: int)
    requires Whole(a) && Whole(b) && a <= t < b
    ensures a <= Floor(t) && Floor(t) + MINUTE <= b
  {
    var k := WholeSteps(a, Floor(t));
    var m := WholeSteps(Floor(t), b);
  }

  // Where the search for the i-th time starts.
  function Cursor(after: int, times: seq<int>, i: nat): int
    requires i <= |times|
  {
    if i == 0 then after else times[i - 1]
  }

  // Consecutive occurrences after an instant.
  ghost predicate Consecutive(matches: int -> bool, after: int, times: seq<int>) {
    forall i: nat | i < |times| :: NextIs(matches, Cursor(after, times, i), Some(times[i]))
  }

  lemma ConsecutiveAppend(matches: int -> bool, after: int, times: seq<int>, t: int)
    ensures Consecutive(matches, after, times + [t]) <==>
            Consecutive(matches, after, times) && NextIs(matches, Cursor(after, times, |times|), Some(t))
  {
    hide NextIs;
    var longer := times + [t];
    assert Cursor(after, longer, |times|) == Cursor(after, times, |times|) && longer[|times|] == t;
    assert forall i: nat | i < |times| :: Cursor(after, longer, i) == Cursor(after, times, i) && longer[i] == times[i];
    if Consecutive(matches, after, longer) {
      forall i: nat | i < |times| ensures NextIs(matches, Cursor(after, times, i), Some(times[i])) {
        assert NextIs(matches, Cursor(after, longer, i), Some(longer[i]));
      }
    }
  }

  /** The next occurrences in order, or None when the count is out of range or the
      occurrences run out. */
  method NextTimes(matches: int -> bool, after: int, count: int) returns (r: Option<seq<int>>)
    ensures r.Some? ==> 0 <= count <= 1000 && |r.value| == count && Consecutive(matches, after, r.value)
    ensures r.None? && 0 <= count <= 1000 ==>
              exists times :: |times| < count && Consecutive(matches, after, times)
                              && NextIs(matches, Cursor(after, times, |times|), None)
  {
    if count < 0 || count > 1000 { return None; }
    var times: seq<int> := [];
    var cursor := after;
    for n := 0 to count
      invariant |times| == n && Consecutive(matches, after, times)
      invariant cursor == Cursor(after, times, n)
    {
      var next := NextAfter(matches, cursor);
      if next.None? { return None; }
      ConsecutiveAppend(matches, after, times, next.value);
      cursor := next.value;
      times := times + [cursor];
    }
    return Some(times);
  }

  /** Consecutive occurrences leave no gap: up to the last of them, an instant is
      listed exactly when it is an occurrence. */
  lemma {:induction false} NoGap(matches: int -> bool, after: int, times: seq<int>, t: int)
    requires Consecutive(matches, after, times) && after < t && Whole(t)
    ensures t <= Cursor(after, times, |times|) ==> (t in times <==> matches(t))
    ensures t > Cursor(after, times, |times|) ==> t !in times
  {
    hide Whole, Floor, Consecutive;
    if times != [] {
      var rest, last := times[..|times| - 1], times[|times| - 1];
      assert times == rest + [last];
      ConsecutiveAppend(matches, after, rest, last);
      NoGap(matches, after, rest, t);
    }
  }
}
