/**
 When a scheduled job fires: the occurrence after an instant, the occurrences
 that are due, and how far a job advances.  Instants and intervals are whole
 microseconds.
 */
module Schedules {
  import opened Options
  import opened Cron
  import opened Division

  // A cron schedule is known by the instants its expression matches in its zone.
  datatype Schedule =
    | Once(at: int)
    | Interval(start: int, interval: int)
    | CronSchedule(matches: int -> bool)

  datatype Policy = Skip | FireOnce | Bounded(maxCatchup: nat)

  predicate GoodSchedule(s: Schedule) {
    s.Interval? ==> s.interval > 0
  }

  predicate Occurs(s: Schedule, t: int)
    requires GoodSchedule(s)
  {
    match s
    case Once(at) => t == at
    case Interval(start, interval) => t >= start && (t - start) % interval == 0
    case CronSchedule(matches) => Whole(t) && matches(t)
  }

  // A cron search that a job needs finds nothing within its limit: the next
  // occurrence after now, or the one before some instant up to now.
  ghost predicate SearchFails(s: Schedule, now: int) {
    s.CronSchedule? && (NextIs(s.matches, now, None) || exists t :: t <= now && PreviousIs(s.matches, t, None))
  }

  // --- the next occurrence ---

  // None stands for the search that finds nothing within its limit.
  method ComputeNextRun(s: Schedule, after: int) returns (r: Option<Option<int>>)
    requires GoodSchedule(s)
    ensures r.None? <==> s.CronSchedule? && NextIs(s.matches, after, None)
    ensures r.Some? && r.value.Some? ==> Occurs(s, r.value.value) && r.value.value > after
                                         && forall t :: after < t < r.value.value ==> !Occurs(s, t)
    ensures r == Some(None) <==> s.Once? && s.at <= after
  {
    match s
    case Once(at) => return Some(if at > after then Some(at) else None);
    case Interval(start, interval) =>
      if start > after { return Some(Some(start)); }
      var steps := (after - start) / interval + 1;
      NextStep(start, interval, after);
      return Some(Some(start + steps * interval));
    case CronSchedule(matches) =>
      var next := NextAfter(matches, after);
      return if next.None? then None else Some(next);
  }

  lemma NextStep(start: int, interval: int, after: int)
    requires interval > 0 && start <= after
    ensures var next := start + ((after - start) / interval + 1) * interval;
            && Occurs(Interval(start, interval), next) && after < next <= after + interval
            && forall t :: after < t < next ==> !Occurs(Interval(start, interval), t)
  {
    var k := (after - start) / interval;
    Decompose(after - start, interval);
    assert (k + 1) * interval == k * interval + interval;
    AddMultiple(0, k + 1, interval);
    forall t | after < t < start + (k + 1) * interval ensures !Occurs(Interval(start, interval), t) {
      Quotient(t - start, interval, k, t - start - k * interval);
    }
  }

  // --- the occurrences that are due ---

  predicate Sorted(times: seq<int>) {
    forall i, j | 0 <= i < j < |times| :: times[i] < times[j]
  }

  lemma SortedSnoc(a: seq<int>, n: int)
    requires Sorted(a) && forall t :: t in a ==> t < n
    ensures Sorted(a + [n]) && forall t :: t in a + [n] <==> t in a || t == n
  {
    forall i | 0 <= i < |a| ensures a[i] < n { assert a[i] in a; }
  }

  // Every occurrence from one instant to another, in order.
  function AllDue(s: Schedule, first: int, now: int): (all: seq<int>)
    requires GoodSchedule(s)
    ensures Sorted(all) && forall t :: t in all <==> first <= t <= now && Occurs(s, t)
    decreases now - first
  {
    if now < first then []
    else
      var earlier := AllDue(s, first, now - 1);
      SortedSnoc(earlier, now);
      if Occurs(s, now) then earlier + [now] else earlier
  }

  function Last(times: seq<int>, n: nat): seq<int> {
    if n >= |times| then times else times[|times| - n..]
  }

  // What each catch-up policy keeps of all the due occurrences.
  function Kept(policy: Policy, all: seq<int>, grace: int, now: int): seq<int> {
    match policy
    case Skip => if all == [] || now - all[|all| - 1] > grace then [] else Last(all, 1)
    case FireOnce => Last(all, 1)
    case Bounded(n) => Last(all, n)
  }

  /** What is kept, occurrence by occurrence: the latest one if it is no older than the
      grace period, the latest one whatever its age, or the latest few. */
  lemma KeptExactly(policy: Policy, all: seq<int>, grace: int, now: int, t: int)
    requires Sorted(all)
    ensures t in Kept(policy, all, grace, now) <==>
              match policy
              case Skip => t in all && (forall u <- all :: u <= t) && now - t <= grace
              case FireOnce => t in all && forall u <- all :: u <= t
              case Bounded(n) => exists k :: 0 <= k < |all| && all[k] == t && |all| - k <= n
  {
    if all != [] { LastIsGreatest(all); }
  }

  // The last of a sorted list is its greatest member.
  lemma LastIsGreatest(a: seq<int>)
    requires Sorted(a) && a != []
    ensures a[|a| - 1] in a && forall t <- a :: t <= a[|a| - 1]
    ensures Sorted(a[..|a| - 1]) && forall t :: t in a[..|a| - 1] <==> t in a && t != a[|a| - 1]
  {
    assert a == a[..|a| - 1] + [a[|a| - 1]];
  }

  lemma {:induction false} SortedUnique(a: seq<int>, b: seq<int>)
    requires Sorted(a) && Sorted(b) && forall t :: t in a <==> t in b
    ensures a == b
    decreases |a|
  {
    assert (|a| > 0 ==> a[0] in a && a[0] in b) && (|b| > 0 ==> b[0] in b && b[0] in a);
    if a != [] {
      LastIsGreatest(a);
      LastIsGreatest(b);
      assert a[|a| - 1] in b && b[|b| - 1] in a;
      assert a[|a| - 1] == b[|b| - 1];
      var a', b' := a[..|a| - 1], b[..|b| - 1];
      forall t ensures t in a' <==> t in b' {
        assert t in a <==> t in b;
      }
      SortedUnique(a', b');
      assert a == a' + [a[|a| - 1]] && b == b' + [b[|b| - 1]];
    }
  }

  function Step(first: int, interval: int, k: int): int {
    first + k * interval
  }

  // The first n steps from an instant.
  function Steps(first: int, interval: int, from: nat, n: nat): seq<int> {
    seq(n, k requires 0 <= k < n => Step(first, interval, from + k))
  }

  lemma StepsSorted(first: int, interval: int, from: nat, n: nat)
    requires interval > 0
    ensures Sorted(Steps(first, interval, from, n))
  {
    var steps := Steps(first, interval, from, n);
    forall i, j | 0 <= i < j < |steps| ensures steps[i] < steps[j] {
      Ordered(from + i, from + j, interval);
      assert steps[i] == Step(first, interval, from + i) && steps[j] == Step(first, interval, from + j);
    }
  }

  // An instant is a step exactly when its distance divides evenly.
  lemma StepOf(s: Schedule, first: int, t: int)
    requires s.Interval? && GoodSchedule(s) && Occurs(s, first) && first <= t
    ensures Occurs(s, t) <==> t == Step(first, s.interval, (t - first) / s.interval)
  {
    Decompose(first - s.start, s.interval);
    Decompose(t - first, s.interval);
    AddMultiple(t - first, (first - s.start) / s.interval, s.interval);
  }

  /** All occurrences of an interval schedule, as one arithmetic progression. */
  lemma IntervalDue(s: Schedule, first: int, now: int)
    requires s.Interval? && GoodSchedule(s) && Occurs(s, first) && first <= now
    ensures AllDue(s, first, now) == Steps(first, s.interval, 0, (now - first) / s.interval + 1)
  {
    var n := (now - first) / s.interval + 1;
    var steps := Steps(first, s.interval, 0, n);
    StepsSorted(first, s.interval, 0, n);
    forall t ensures t in steps <==> first <= t <= now && Occurs(s, t) {
      if t in steps {
        var k :| 0 <= k < n && steps[k] == t;
        StepInside(first, s.interval, k, now);
        StepOf(s, first, t);
      }
      if first <= t <= now && Occurs(s, t) {
        StepOf(s, first, t);
        var k := (t - first) / s.interval;
        QuotientGrows(t - first, now - first, s.interval);
        assert steps[k] == t;
      }
    }
    SortedUnique(AllDue(s, first, now), steps);
  }

  lemma StepInside(first: int, interval: int, k: int, now: int)
    requires interval > 0 && first <= now && 0 <= k <= (now - first) / interval
    ensures first <= Step(first, interval, k) <= now
    ensures (Step(first, interval, k) - first) / interval == k
  {
    var q := (now - first) / interval;
    Decompose(now - first, interval);
    if k < q { Ordered(k, q, interval); }
    if 0 < k { Ordered(0, k, interval); }
    Quotient(k * interval, interval, k, 0);
  }

  lemma QuotientGrows(a: int, b: int, n: int)
    requires n > 0 && 0 <= a <= b
    ensures 0 <= a / n <= b / n
  {
    Decompose(a, n);
    Decompose(b, n);
    if b / n < a / n { Ordered(b / n, a / n, n); }
  }

  method DueOccurrences(s: Schedule, policy: Policy, grace: int, nextRunAt: Option<int>, now: int)
    returns (r: Option<seq<int>>)
    requires GoodSchedule(s) && (policy.Bounded? ==> policy.maxCatchup >= 1)
    ensures r.None? ==> SearchFails(s, now)
    ensures nextRunAt.None? || nextRunAt.value > now ==> r == Some([])
    ensures r.Some? && nextRunAt.Some? ==> Sorted(r.value) && forall t <- r.value :: nextRunAt.value <= t <= now
    ensures r.Some? && nextRunAt.Some? && Occurs(s, nextRunAt.value) ==>
              r.value == Kept(policy, AllDue(s, nextRunAt.value, now), grace, now)
  {
    if nextRunAt.None? || nextRunAt.value > now { return Some([]); }
    var first := nextRunAt.value;
    if policy == Skip {
      r := SkipToLatest(s, grace, first, now);
      return;
    }
    var count := if policy.Bounded? then policy.maxCatchup else 1;
    match s
    case Once(_) =>
      if Occurs(s, first) { OnceDue(s, first, now); }
      return Some([first]);
    case Interval(_, _) =>
      var due := IntervalLatest(s, first, now, count);
      return Some(due);
    case CronSchedule(matches) =>
      r := CronDue(s, first, now, count);
      LastInside(AllDue(s, first, now), count);
  }

  lemma LastInside(all: seq<int>, n: nat)
    requires Sorted(all)
    ensures Sorted(Last(all, n)) && forall t <- Last(all, n) :: t in all
  {
  }

  // The latest `count` steps up to now.
  method IntervalLatest(s: Schedule, first: int, now: int, count: nat) returns (due: seq<int>)
    requires s.Interval? && GoodSchedule(s) && first <= now && count >= 1
    ensures Sorted(due) && forall t <- due :: first <= t <= now
    ensures Occurs(s, first) ==> due == Last(AllDue(s, first, now), count)
  {
    hide Steps, AllDue, Sorted, Occurs;
    var latest := (now - first) / s.interval;
    QuotientGrows(0, now - first, s.interval);
    var start := if latest - count + 1 > 0 then latest - count + 1 else 0;
    StepsSorted(first, s.interval, start, latest - start + 1);
    StepsInside(first, s.interval, start, latest - start + 1, now);
    due := Steps(first, s.interval, start, latest - start + 1);
    if Occurs(s, first) {
      IntervalDue(s, first, now);
      StepsFrom(first, s.interval, start, latest + 1);
    }
  }

  lemma StepsFrom(first: int, interval: int, start: nat, n: nat)
    requires start <= n
    ensures |Steps(first, interval, 0, n)| == n && Steps(first, interval, start, n - start) == Steps(first, interval, 0, n)[start..]
  {
    hide Step;
  }

  lemma StepsInside(first: int, interval: int, start: nat, n: nat, now: int)
    requires interval > 0 && first <= now && start + n <= (now - first) / interval + 1
    ensures forall t <- Steps(first, interval, start, n) :: first <= t <= now
  {
    var steps := Steps(first, interval, start, n);
    forall k | 0 <= k < |steps| ensures first <= steps[k] <= now {
      StepInside(first, interval, start + k, now);
      assert steps[k] == Step(first, interval, start + k);
    }
  }

  lemma OnceDue(s: Schedule, first: int, now: int)
    requires s.Once? && Occurs(s, first) && first <= now
    ensures AllDue(s, first, now) == [first]
  {
    SortedUnique(AllDue(s, first, now), [first]);
  }

  // Only the latest occurrence counts, and only while it is recent.
  method SkipToLatest(s: Schedule, grace: int, first: int, now: int) returns (r: Option<seq<int>>)
    requires GoodSchedule(s) && first <= now
    ensures r.None? <==> s.CronSchedule? && PreviousIs(s.matches, now, None)
    ensures r.Some? ==> Sorted(r.value) && forall t <- r.value :: first <= t <= now
    ensures r.Some? && Occurs(s, first) ==> r.value == Kept(Skip, AllDue(s, first, now), grace, now)
  {
    hide AllDue, Sorted;
    var latest := first;
    match s {
      case Once(_) => if Occurs(s, first) { OnceDue(s, first, now); }
      case Interval(_, interval) =>
        latest := Step(first, interval, (now - first) / interval);
        QuotientGrows(0, now - first, interval);
        StepInside(first, interval, (now - first) / interval, now);
        if Occurs(s, first) { IntervalDue(s, first, now); }
      case CronSchedule(matches) =>
        var previous := PreviousOrAt(matches, now);
        if previous.None? { return None; }
        latest := previous.value;
        if Occurs(s, first) { LatestIsLast(s, first, latest, now); }
    }
    OneIsSorted(latest);
    if latest < first || now - latest > grace { return Some([]); }
    return Some([latest]);
  }

  lemma OneIsSorted(t: int)
    ensures Sorted([]) && Sorted([t])
  {
  }

  lemma LatestIsLast(s: Schedule, first: int, latest: int, now: int)
    requires s.CronSchedule? && Occurs(s, first) && first <= now && PreviousIs(s.matches, now, Some(latest))
    ensures var all := AllDue(s, first, now); first <= latest && all != [] && all[|all| - 1] == latest
  {
    var all := AllDue(s, first, now);
    assert first in all && latest in all;
    assert all[|all| - 1] in all;
  }

  // Walking back from now, at most `count` occurrences.
  method CronDue(s: Schedule, first: int, now: int, count: nat) returns (r: Option<seq<int>>)
    requires s.CronSchedule? && first <= now
    ensures r.None? ==> SearchFails(s, now)
    ensures r.Some? ==> r.value == Last(AllDue(s, first, now), count)
  {
    var cursor := PreviousOrAt(s.matches, now);
    if cursor.None? { return None; }
    var found: seq<int> := [];
    ghost var all := AllDue(s, first, now);
    ghost var left := all;
    while cursor.value >= first && |found| < count
      invariant cursor.Some? && PreviousIs(s.matches, if found == [] then now else found[0] - 1, cursor)
      invariant left + found == all && |found| <= count && (found == [] || found[0] <= now)
      decreases |left|
    {
      TakeLast(s, first, now, left, found, cursor.value);
      left := left[..|left| - 1];
      found := [cursor.value] + found;
      cursor := PreviousOrAt(s.matches, cursor.value - 1);
      if cursor.None? { return None; }
    }
    LeftIsBefore(s, first, now, left, found, cursor.value);
    return Some(found);
  }

  lemma TakeLast(s: Schedule, first: int, now: int, left: seq<int>, found: seq<int>, cursor: int)
    requires s.CronSchedule? && left + found == AllDue(s, first, now) && cursor >= first
    requires PreviousIs(s.matches, if found == [] then now else found[0] - 1, Some(cursor))
    ensures left != [] && left[|left| - 1] == cursor
    ensures left[..|left| - 1] + ([cursor] + found) == AllDue(s, first, now)
  {
    var all := AllDue(s, first, now);
    if found != [] { assert all[|left|] == found[0] && found[0] in all; }
    assert cursor in all;
    assert cursor !in found by {
      forall i | 0 <= i < |found| ensures found[i] != cursor { assert found[i] == all[|left| + i]; }
    }
    assert cursor in left;
    var last := left[|left| - 1];
    assert last == all[|left| - 1] && last in all;
    assert found != [] ==> last < found[0];
  }

  lemma LeftIsBefore(s: Schedule, first: int, now: int, left: seq<int>, found: seq<int>, cursor: int)
    requires s.CronSchedule? && left + found == AllDue(s, first, now)
    requires PreviousIs(s.matches, if found == [] then now else found[0] - 1, Some(cursor))
    ensures left != [] ==> first <= cursor
  {
    var all := AllDue(s, first, now);
    if left != [] {
      var last := left[|left| - 1];
      assert last == all[|left| - 1] && last in all;
      if found != [] { assert all[|left|] == found[0]; }
    }
  }

  // --- where a job starts and goes ---

  // The first run of a new job; an instant in the past is kept for a single run.
  method InitialRun(s: Schedule, now: int) returns (r: Option<int>)
    requires GoodSchedule(s)
    ensures r.Some? ==> Occurs(s, r.value)
    ensures r.None? <==> s.CronSchedule? && NextIs(s.matches, now, None)
    ensures !s.Once? && r.Some? ==> r.value >= now && forall t :: now < t < r.value ==> !Occurs(s, t)
  {
    match s
    case Once(at) => return Some(at);
    case Interval(start, interval) =>
      if start >= now {
        AddMultiple(0, 0, interval);
        return Some(start);
      }
      var next := ComputeNextRun(s, now);
      return next.value;
    case CronSchedule(_) =>
      var next := ComputeNextRun(s, now);
      return if next.None? then None else next.value;
  }

  method AdvanceAfterNow(s: Schedule, now: int) returns (r: Option<Option<int>>)
    requires GoodSchedule(s)
    ensures r.None? <==> s.CronSchedule? && NextIs(s.matches, now, None)
    ensures r.Some? ==> (r.value.None? <==> s.Once?)
    ensures r.Some? && r.value.Some? ==> Occurs(s, r.value.value) && r.value.value > now
                                         && forall t :: now < t < r.value.value ==> !Occurs(s, t)
  {
    if s.Once? { return Some(None); }
    r := ComputeNextRun(s, now);
  }
}
