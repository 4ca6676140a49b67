/**
 Budget accounting: the totals on a run are sums over its reservations, and
 they exceed a limit only by what settlements reported beyond their reservation.
 */
module JournalBudgets {
  import opened Options
  import opened JournalTypes
  import opened JournalSpec
  import opened JournalHistory

  // What a reservation contributes to a sum over the reservations of one run.
  datatype Measure = Open(run: RunId, r: Resource) | Settled(run: RunId, r: Resource) | Overshoot(run: RunId, r: Resource)

  function Weigh(m: Measure, x: Reservation): int {
    if x.run != m.run then 0
    else match m
      case Open(_, r) => if x.actual.None? then x.amount.Get(r) else 0
      case Settled(_, r) => if x.actual.Some? then x.actual.value.Get(r) else 0
      case Overshoot(_, r) =>
        if x.actual.Some? && x.actual.value.Get(r) > x.amount.Get(r) then x.actual.value.Get(r) - x.amount.Get(r) else 0
  }

  ghost function Sum(rows: map<string, Reservation>, m: Measure): int
    decreases |rows|
  {
    if rows == map[] then 0
    else
      var k :| k in rows;
      Weigh(m, rows[k]) + Sum(rows - {k}, m)
  }

  lemma {:induction false} SumRemove(rows: map<string, Reservation>, m: Measure, k: string)
    requires k in rows
    ensures Sum(rows, m) == Weigh(m, rows[k]) + Sum(rows - {k}, m)
    decreases |rows|
  {
    var first :| first in rows && Sum(rows, m) == Weigh(m, rows[first]) + Sum(rows - {first}, m);
    if first != k {
      SumRemove(rows - {first}, m, k);
      SumRemove(rows - {k}, m, first);
      assert rows - {first} - {k} == rows - {k} - {first};
    }
  }

  lemma SumPut(rows: map<string, Reservation>, m: Measure, k: string, x: Reservation)
    ensures Sum(rows[k := x], m) == Sum(rows - {k}, m) + Weigh(m, x)
    ensures Sum(rows, m) == Sum(rows - {k}, m) + if k in rows then Weigh(m, rows[k]) else 0
  {
    SumRemove(rows[k := x], m, k);
    assert rows[k := x] - {k} == rows - {k};
    if k in rows { SumRemove(rows, m, k); } else { assert rows - {k} == rows; }
  }

  lemma {:induction false} OvershootIsNonNegative(rows: map<string, Reservation>, run: RunId, r: Resource)
    ensures Sum(rows, Overshoot(run, r)) >= 0
    decreases |rows|
  {
    if rows != map[] {
      var k :| k in rows;
      SumRemove(rows, Overshoot(run, r), k);
      OvershootIsNonNegative(rows - {k}, run, r);
    }
  }

  ghost predicate Balanced(row: RunRow, rows: map<string, Reservation>, run: RunId, r: Resource) {
    && row.reserved.Get(r) == Sum(rows, Open(run, r))
    && row.used.Get(r) == Sum(rows, Settled(run, r))
    && (var limit := row.identity.limits.Get(r);
        limit.Some? ==> row.reserved.Get(r) + row.used.Get(r) <= limit.value + Sum(rows, Overshoot(run, r)))
  }

  // No reservation belongs to a run that does not exist.
  predicate Owned(s: State) {
    forall k <- s.reservations :: s.reservations[k].run in s.runs
  }

  lemma {:induction false} ForeignSumIsZero(rows: map<string, Reservation>, m: Measure)
    requires forall k <- rows :: rows[k].run != m.run
    ensures Sum(rows, m) == 0
    decreases |rows|
  {
    if rows != map[] {
      var k :| k in rows;
      SumRemove(rows, m, k);
      ForeignSumIsZero(rows - {k}, m);
    }
  }

  lemma ReserveKeepsBalance(s: State, reservation: string, run: RunId, amount: Amounts, other: RunId, r: Resource)
    requires other in s.runs && Balanced(s.runs[other], s.reservations, other, r)
    requires ReserveBudget(s, reservation, run, amount).Commit?
    ensures var t := Perform(s, ReserveBudget(s, reservation, run, amount).write);
            other in t.runs && Balanced(t.runs[other], t.reservations, other, r)
  {
    var x := Reservation(run, amount, None);
    SumPut(s.reservations, Open(other, r), reservation, x);
    SumPut(s.reservations, Settled(other, r), reservation, x);
    SumPut(s.reservations, Overshoot(other, r), reservation, x);
    OvershootIsNonNegative(s.reservations, other, r);
  }

  lemma SettleKeepsBalance(s: State, reservation: string, run: RunId, actual: Amounts, other: RunId, r: Resource)
    requires other in s.runs && Balanced(s.runs[other], s.reservations, other, r)
    requires SettleBudget(s, reservation, run, actual).Commit?
    ensures var t := Perform(s, SettleBudget(s, reservation, run, actual).write);
            other in t.runs && Balanced(t.runs[other], t.reservations, other, r)
  {
    if s.reservations[reservation].actual.None? {
      var x := s.reservations[reservation].(actual := Some(actual));
      SumPut(s.reservations, Open(other, r), reservation, x);
      SumPut(s.reservations, Settled(other, r), reservation, x);
      SumPut(s.reservations, Overshoot(other, r), reservation, x);
    }
  }

  lemma CreateKeepsBalance(s: State, run: RunId, identity: RunIdentity, key: Option<string>, other: RunId, r: Resource)
    requires Owned(s) && (other in s.runs ==> Balanced(s.runs[other], s.reservations, other, r))
    requires CreateRun(s, run, identity, key).Commit?
    ensures var t := Perform(s, CreateRun(s, run, identity, key).write);
            other in t.runs ==> Balanced(t.runs[other], t.reservations, other, r)
  {
    if other == run && run !in s.runs {
      ForeignSumIsZero(s.reservations, Open(other, r));
      ForeignSumIsZero(s.reservations, Settled(other, r));
      ForeignSumIsZero(s.reservations, Overshoot(other, r));
    }
  }

  predicate BudgetOp(op: Op) {
    op.CreateRunOp? || op.ReserveOp? || op.SettleOp?
  }

  // Every other operation leaves reservations, identities and totals alone.
  lemma OtherOpsKeepTotals(s: State, op: Op, run: RunId)
    requires !BudgetOp(op)
    ensures var t := Next(s, op);
            && t.reservations == s.reservations
            && t.runs.Keys == s.runs.Keys
            && (run in s.runs ==> run in t.runs && t.runs[run].(status := s.runs[run].status) == s.runs[run])
  {
    hide Written, Perform;
    if op.ReclaimOp? {
      ReclaimKeepsTables(s, op.rows, op.now);
    } else {
      OtherOpsWriteNoTotals(s, op);
      PerformKeepsTotals(s, Written(s, op), run);
    }
  }

  // Of the run rows, only a status is ever written outside the budget.
  predicate KeepsTotals(s: State, w: Write) {
    !w.InsertRun? && !w.WriteBudget? && (w.WriteRun? ==> w.run in s.runs && w.runRow.(status := s.runs[w.run].status) == s.runs[w.run])
  }

  lemma OtherOpsWriteNoTotals(s: State, op: Op)
    requires !BudgetOp(op) && !op.ReclaimOp?
    ensures KeepsTotals(s, Written(s, op))
  {
    if StepOp(op) {
      hide MarkRunStatus, AppendEvent, RecordReceipt, RequestApproval, DecideApproval, StartProviderCall, CompleteProviderCall,
        CreateRun, ReserveBudget, SettleBudget;
    } else {
      hide CreateRun, ReserveBudget, SettleBudget, CreateStep, ClaimReadyStep, MarkExecuting, Heartbeat, CommitStep,
        FinishOwnedStep, CancelStep;
    }
  }

  lemma PerformKeepsTotals(s: State, w: Write, run: RunId)
    requires KeepsTotals(s, w)
    ensures var t := Perform(s, w);
            && t.reservations == s.reservations
            && t.runs.Keys == s.runs.Keys
            && (run in s.runs ==> run in t.runs && t.runs[run].(status := s.runs[run].status) == s.runs[run])
  {
  }

  lemma {:induction false} ReclaimKeepsTables(s: State, rows: seq<StepId>, now: int)
    ensures var t := ReclaimExpiredLeases(s, rows, now); t.reservations == s.reservations && t.runs == s.runs
  {
    if rows != [] { ReclaimKeepsTables(s, rows[..|rows| - 1], now); }
  }

  lemma NextKeepsBalance(s: State, op: Op, run: RunId, r: Resource)
    requires Owned(s) && (run in s.runs ==> Balanced(s.runs[run], s.reservations, run, r))
    ensures Owned(Next(s, op))
    ensures var t := Next(s, op); run in t.runs ==> Balanced(t.runs[run], t.reservations, run, r)
  {
    if !BudgetOp(op) {
      hide Next;
      OtherOpsKeepTotals(s, op, run);
    } else {
      hide Balanced, MarkRunStatus, AppendEvent, CreateStep, ClaimReadyStep, MarkExecuting, Heartbeat, CommitStep, FinishOwnedStep,
        CancelStep, RecordReceipt, RequestApproval, DecideApproval, StartProviderCall, CompleteProviderCall;
      if Decide(s, op).Commit? {
        hide CreateRun, ReserveBudget, SettleBudget;
        match op
        case CreateRunOp(created, identity, key) =>
          CreateKeepsBalance(s, created, identity, key, run, r);
          CreateKeepsOwned(s, created, identity, key);
        case ReserveOp(reservation, owner, amount) =>
          if run in s.runs { ReserveKeepsBalance(s, reservation, owner, amount, run, r); }
          ReserveKeepsOwned(s, reservation, owner, amount);
        case SettleOp(reservation, owner, actual) =>
          if run in s.runs { SettleKeepsBalance(s, reservation, owner, actual, run, r); }
          SettleKeepsOwned(s, reservation, owner, actual);
      }
    }
  }

  lemma CreateKeepsOwned(s: State, run: RunId, identity: RunIdentity, key: Option<string>)
    requires Owned(s) && CreateRun(s, run, identity, key).Commit?
    ensures Owned(Perform(s, CreateRun(s, run, identity, key).write))
  {
  }

  lemma ReserveKeepsOwned(s: State, reservation: string, run: RunId, amount: Amounts)
    requires Owned(s) && ReserveBudget(s, reservation, run, amount).Commit?
    ensures var t := Perform(s, ReserveBudget(s, reservation, run, amount).write); Owned(t) && t.runs.Keys == s.runs.Keys
  {
  }

  lemma SettleKeepsOwned(s: State, reservation: string, run: RunId, actual: Amounts)
    requires Owned(s) && SettleBudget(s, reservation, run, actual).Commit?
    ensures var t := Perform(s, SettleBudget(s, reservation, run, actual).write); Owned(t) && t.runs.Keys == s.runs.Keys
  {
  }

  /** Over every sequence of operations and for every resource: `reserved` is the
      sum of the open reservations, `used` the sum of the settled actuals, and
      together they pass the limit by at most the overshoot of the settlements. */
  lemma {:induction false} BudgetConservation(ops: seq<Op>, run: RunId, r: Resource)
    ensures var s := Exec(EMPTY, ops);
            Owned(s) && (run in s.runs ==> Balanced(s.runs[run], s.reservations, run, r))
  {
    hide Next, Balanced;
    if ops != [] {
      BudgetConservation(ops[..|ops| - 1], run, r);
      NextKeepsBalance(Exec(EMPTY, ops[..|ops| - 1]), ops[|ops| - 1], run, r);
    }
  }

  // --- resource by resource, in the names of the tables ---

  // More is asked for than one of the four limits leaves.
  predicate PassesLimit(row: RunRow, amount: Amounts) {
    var limits := row.identity.limits;
    || (limits.calls.Some? && row.reserved.calls + row.used.calls + amount.calls > limits.calls.value)
    || (limits.tokens.Some? && row.reserved.tokens + row.used.tokens + amount.tokens > limits.tokens.value)
    || (limits.microUsd.Some? && row.reserved.microUsd + row.used.microUsd + amount.microUsd > limits.microUsd.value)
    || (limits.wallMicros.Some? && row.reserved.wallMicros + row.used.wallMicros + amount.wallMicros > limits.wallMicros.value)
  }

  /** A new reservation is refused for its size exactly if one of the four sums
      passes the limit of its own name; otherwise each amount is added to the
      reserved total of its own name. */
  lemma ReservationRefusedExactly(s: State, reservation: string, run: RunId, amount: Amounts)
    requires run in s.runs && reservation !in s.reservations
    requires amount.calls >= 0 && amount.tokens >= 0 && amount.microUsd >= 0 && amount.wallMicros >= 0
    ensures ReserveBudget(s, reservation, run, amount) == Refuse(BudgetExceeded) <==> PassesLimit(s.runs[run], amount)
    ensures var row, t := s.runs[run], After(s, ReserveBudget(s, reservation, run, amount));
            !PassesLimit(row, amount) ==>
              && run in t.runs && t.runs[run].used == row.used && t.runs[run].identity == row.identity
              && t.runs[run].reserved.calls == row.reserved.calls + amount.calls
              && t.runs[run].reserved.tokens == row.reserved.tokens + amount.tokens
              && t.runs[run].reserved.microUsd == row.reserved.microUsd + amount.microUsd
              && t.runs[run].reserved.wallMicros == row.reserved.wallMicros + amount.wallMicros
              && t.reservations == s.reservations[reservation := Reservation(run, amount, None)]
  {
    var row := s.runs[run];
    assert !Fits(row, amount, Calls) || !Fits(row, amount, Tokens) || !Fits(row, amount, MicroUsd) || !Fits(row, amount, WallMicros)
      <==> PassesLimit(row, amount);
  }

  /** Amounts below zero are refused, whichever of the four they are. */
  lemma NegativeIsRefused(s: State, reservation: string, run: RunId, amount: Amounts)
    ensures ReserveBudget(s, reservation, run, amount) == Refuse(Validation) <==>
              amount.calls < 0 || amount.tokens < 0 || amount.microUsd < 0 || amount.wallMicros < 0
    ensures amount.calls < 0 || amount.tokens < 0 || amount.microUsd < 0 || amount.wallMicros < 0 ==>
              SettleBudget(s, reservation, run, amount) == Refuse(Validation)
  {
  }

  /** A settlement takes what was reserved off the reserved total of each name, and
      adds what was consumed to the used total of that name. */
  lemma SettlementMovesEach(s: State, reservation: string, run: RunId, actual: Amounts)
    requires SettleBudget(s, reservation, run, actual).Commit? && s.reservations[reservation].actual.None?
    ensures var row, held, t := s.runs[run], s.reservations[reservation].amount, After(s, SettleBudget(s, reservation, run, actual));
            && run in t.runs && var settled := t.runs[run];
            && settled.reserved.calls == row.reserved.calls - held.calls && settled.used.calls == row.used.calls + actual.calls
            && settled.reserved.tokens == row.reserved.tokens - held.tokens && settled.used.tokens == row.used.tokens + actual.tokens
            && settled.reserved.microUsd == row.reserved.microUsd - held.microUsd && settled.used.microUsd == row.used.microUsd + actual.microUsd
            && settled.reserved.wallMicros == row.reserved.wallMicros - held.wallMicros
            && settled.used.wallMicros == row.used.wallMicros + actual.wallMicros
  {
  }

  // The sum of one number for each reservation of a run.
  ghost function SumOf(rows: map<string, Reservation>, run: RunId, weight: Reservation -> int): int
    decreases |rows|
  {
    if rows == map[] then 0
    else
      var k :| k in rows;
      (if rows[k].run == run then weight(rows[k]) else 0) + SumOf(rows - {k}, run, weight)
  }

  lemma {:induction false} SumOfRemove(rows: map<string, Reservation>, run: RunId, weight: Reservation -> int, k: string)
    requires k in rows
    ensures SumOf(rows, run, weight) == (if rows[k].run == run then weight(rows[k]) else 0) + SumOf(rows - {k}, run, weight)
    decreases |rows|
  {
    var first :| first in rows && SumOf(rows, run, weight) ==
                                  (if rows[first].run == run then weight(rows[first]) else 0) + SumOf(rows - {first}, run, weight);
    if first != k {
      SumOfRemove(rows - {first}, run, weight, k);
      SumOfRemove(rows - {k}, run, weight, first);
      assert rows - {first} - {k} == rows - {k} - {first};
    }
  }

  lemma {:induction false} SumIs(rows: map<string, Reservation>, m: Measure, weight: Reservation -> int)
    requires forall x: Reservation :: Weigh(m, x) == if x.run == m.run then weight(x) else 0
    ensures Sum(rows, m) == SumOf(rows, m.run, weight)
    decreases |rows|
  {
    if rows != map[] {
      var k :| k in rows;
      SumRemove(rows, m, k);
      SumOfRemove(rows, m.run, weight, k);
      SumIs(rows - {k}, m, weight);
    }
  }

  // A total on a run, as the sum of what its reservations hold or have consumed.
  ghost predicate Conserved(rows: map<string, Reservation>, run: RunId, reserved: int, used: int, limit: Option<nat>,
                            pick: Amounts -> int) {
    && reserved == SumOf(rows, run, (x: Reservation) => if x.actual.None? then pick(x.amount) else 0)
    && used == SumOf(rows, run, (x: Reservation) => if x.actual.Some? then pick(x.actual.value) else 0)
    && (limit.Some? ==>
          reserved + used <= limit.value
                             + SumOf(rows, run, (x: Reservation) => if x.actual.Some? && pick(x.actual.value) > pick(x.amount)
                                                                    then pick(x.actual.value) - pick(x.amount) else 0))
  }

  lemma BalancedIsConserved(row: RunRow, rows: map<string, Reservation>, run: RunId, r: Resource, pick: Amounts -> int)
    requires Balanced(row, rows, run, r) && forall a: Amounts :: a.Get(r) == pick(a)
    ensures Conserved(rows, run, row.reserved.Get(r), row.used.Get(r), row.identity.limits.Get(r), pick)
  {
    SumIs(rows, Open(run, r), (x: Reservation) => if x.actual.None? then pick(x.amount) else 0);
    SumIs(rows, Settled(run, r), (x: Reservation) => if x.actual.Some? then pick(x.actual.value) else 0);
    SumIs(rows, Overshoot(run, r), (x: Reservation) => if x.actual.Some? && pick(x.actual.value) > pick(x.amount)
                                                       then pick(x.actual.value) - pick(x.amount) else 0);
  }

  /** Conservation of calls, tokens, micro-dollars and wall time, each under the
      limit of its own name, over every sequence of operations. */
  lemma EachIsConserved(ops: seq<Op>, run: RunId)
    ensures var s := Exec(EMPTY, ops);
            run in s.runs ==>
              var row, limits := s.runs[run], s.runs[run].identity.limits;
              && Conserved(s.reservations, run, row.reserved.calls, row.used.calls, limits.calls, (a: Amounts) => a.calls)
              && Conserved(s.reservations, run, row.reserved.tokens, row.used.tokens, limits.tokens, (a: Amounts) => a.tokens)
              && Conserved(s.reservations, run, row.reserved.microUsd, row.used.microUsd, limits.microUsd, (a: Amounts) => a.microUsd)
              && Conserved(s.reservations, run, row.reserved.wallMicros, row.used.wallMicros, limits.wallMicros,
                           (a: Amounts) => a.wallMicros)
  {
    hide Exec, Balanced, Conserved;
    var s := Exec(EMPTY, ops);
    forall r ensures run in s.runs ==> Balanced(s.runs[run], s.reservations, run, r) { BudgetConservation(ops, run, r); }
    if run in s.runs {
      BalancedIsConserved(s.runs[run], s.reservations, run, Calls, (a: Amounts) => a.calls);
      BalancedIsConserved(s.runs[run], s.reservations, run, Tokens, (a: Amounts) => a.tokens);
      BalancedIsConserved(s.runs[run], s.reservations, run, MicroUsd, (a: Amounts) => a.microUsd);
      BalancedIsConserved(s.runs[run], s.reservations, run, WallMicros, (a: Amounts) => a.wallMicros);
    }
  }

  // --- when the limit itself holds ---

  lemma {:induction false} NoOvershoot(rows: map<string, Reservation>, run: RunId, r: Resource)
    ensures Sum(rows, Overshoot(run, r)) == 0 <==>
            forall k <- rows :: rows[k].run == run && rows[k].actual.Some? ==>
                      rows[k].actual.value.Get(r) <= rows[k].amount.Get(r)
    decreases |rows|
  {
    if rows != map[] {
      var k :| k in rows;
      SumRemove(rows, Overshoot(run, r), k);
      OvershootIsNonNegative(rows - {k}, run, r);
      NoOvershoot(rows - {k}, run, r);
      assert forall j <- rows :: j == k || j in rows - {k};
    }
  }

  /** The limit holds in every reachable database whose settlements stayed within
      their reservations ... */
  lemma LimitHoldsWithinReservations(ops: seq<Op>, run: RunId, r: Resource)
    requires var s := Exec(EMPTY, ops);
             && run in s.runs && s.runs[run].identity.limits.Get(r).Some?
             && (forall k <- s.reservations ::
                   s.reservations[k].run == run && s.reservations[k].actual.Some? ==>
                     s.reservations[k].actual.value.Get(r) <= s.reservations[k].amount.Get(r))
    ensures var row := Exec(EMPTY, ops).runs[run];
            row.reserved.Get(r) + row.used.Get(r) <= row.identity.limits.Get(r).value
  {
    hide Next;
    BudgetConservation(ops, run, r);
    NoOvershoot(Exec(EMPTY, ops).reservations, run, r);
  }

  // The settlements of a run stayed within their reservations.
  predicate WithinReservations(s: State, run: RunId) {
    forall k <- s.reservations :: s.reservations[k].run == run && s.reservations[k].actual.Some? ==>
      var actual, amount := s.reservations[k].actual.value, s.reservations[k].amount;
      && actual.calls <= amount.calls && actual.tokens <= amount.tokens && actual.microUsd <= amount.microUsd
      && actual.wallMicros <= amount.wallMicros
  }

  /** ... each of the four limits, by its name, ... */
  lemma EachLimitHolds(ops: seq<Op>, run: RunId)
    requires var s := Exec(EMPTY, ops); run in s.runs && WithinReservations(s, run)
    ensures !PassesLimit(Exec(EMPTY, ops).runs[run], Amounts(0, 0, 0, 0))
  {
    hide Exec;
    var s := Exec(EMPTY, ops);
    var limits := s.runs[run].identity.limits;
    if limits.calls.Some? { LimitHoldsWithinReservations(ops, run, Calls); }
    if limits.tokens.Some? { LimitHoldsWithinReservations(ops, run, Tokens); }
    if limits.microUsd.Some? { LimitHoldsWithinReservations(ops, run, MicroUsd); }
    if limits.wallMicros.Some? { LimitHoldsWithinReservations(ops, run, WallMicros); }
  }

  /** ... a settlement keeps it exactly when what it exceeds its reservation by is
      still free ... */
  lemma SettlementWithinSlack(s: State, reservation: string, run: RunId, actual: Amounts, r: Resource)
    requires SettleBudget(s, reservation, run, actual).Commit? && s.reservations[reservation].actual.None?
    requires s.runs[run].identity.limits.Get(r).Some?
    ensures var row, limit := After(s, SettleBudget(s, reservation, run, actual)).runs[run], s.runs[run].identity.limits.Get(r).value;
            row.reserved.Get(r) + row.used.Get(r) <= limit <==>
            actual.Get(r) - s.reservations[reservation].amount.Get(r) <= limit - s.runs[run].reserved.Get(r) - s.runs[run].used.Get(r)
  {
    var before, row := s.runs[run], After(s, SettleBudget(s, reservation, run, actual)).runs[run];
    assert row.reserved == before.reserved.Minus(s.reservations[reservation].amount) && row.used == before.used.Plus(actual);
  }

  /** ... and a settlement beyond its reservation does break it: a run with a
      limit of ten tokens ends having used twenty-five. */
  lemma SettlementCanPassLimit(run: RunId, identity: RunIdentity)
    requires identity.mode != "" && identity.parent.None?
    requires identity.limits == Limits(None, Some(10), None, None)
    ensures var s1 := After(EMPTY, CreateRun(EMPTY, run, identity, None));
            var s2 := After(s1, ReserveBudget(s1, "b", run, Amounts(0, 10, 0, 0)));
            var s3 := After(s2, SettleBudget(s2, "b", run, Amounts(0, 25, 0, 0)));
            run in s3.runs && s3.runs[run].used.tokens == 25 && s3.runs[run].reserved.tokens == 0
  {
    var s1 := After(EMPTY, CreateRun(EMPTY, run, identity, None));
    assert s1.runs[run] == RunRow(identity, RunCreated, NOTHING, NOTHING);
    var s2 := After(s1, ReserveBudget(s1, "b", run, Amounts(0, 10, 0, 0)));
    assert s2.runs[run].reserved == Amounts(0, 10, 0, 0);
  }
}
