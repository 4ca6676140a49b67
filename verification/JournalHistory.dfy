/**
 What no journal operation ever takes back, and what follows from it: rows
 evolve in one direction, and retrying an idempotent call at any later time
 changes nothing and appends nothing.
 */
module JournalHistory {
  import opened Options
  import opened JournalTypes
  import opened JournalSpec

  // A terminal row is frozen; an uncertain one can only be cancelled.
  predicate RowEvolves(before: StepRow, after: StepRow) {
    && before.createdAt == after.createdAt
    && before.attempts <= after.attempts
    && (Terminal(before.status) ==> after == before)
    && (before.status == Uncertain ==>
          (after.status == Uncertain || after.status == Cancelled) && after.attempts == before.attempts)
  }

  predicate RunEnded(status: RunStatus) {
    status == Completed || status == RunFailed || status == RunCancelled
  }

  // A run keeps its identity, and once it ended its status.
  predicate RunEvolves(before: RunRow, after: RunRow) {
    && after.identity == before.identity && (RunEnded(before.status) ==> after.status == before.status)
    && (after.status == RunCreated ==> before.status == RunCreated)
  }

  predicate CallEvolves(before: ProviderCall, after: ProviderCall) {
    && after.run == before.run && after.step == before.step
    && (before.status != Started ==> after == before)
  }

  predicate ApprovalEvolves(before: Approval, after: Approval) {
    if before.status == Pending then
      after.run == before.run && after.step == before.step && after.kind == before.kind && after.createdAt == before.createdAt
    else
      after == before
  }

  predicate ReservationEvolves(before: Reservation, after: Reservation) {
    after.run == before.run && after.amount == before.amount && (before.actual.Some? ==> after.actual == before.actual)
  }

  ghost predicate Extends(s: State, t: State) {
    && (forall r <- s.runs :: r in t.runs && RunEvolves(s.runs[r], t.runs[r]))
    && (forall k <- s.externalKeys :: k in t.externalKeys && t.externalKeys[k] == s.externalKeys[k])
    && (forall k <- t.externalKeys :: k in s.externalKeys || t.externalKeys[k] in t.runs)
    && (forall id <- s.steps :: id in t.steps && RowEvolves(s.steps[id], t.steps[id]))
    && (forall k <- s.receipts :: k in t.receipts && t.receipts[k] == s.receipts[k])
    && (forall a <- s.approvals :: a in t.approvals && ApprovalEvolves(s.approvals[a], t.approvals[a]))
    && (forall c <- s.calls :: c in t.calls && CallEvolves(s.calls[c], t.calls[c]))
    && (forall b <- s.reservations :: b in t.reservations && ReservationEvolves(s.reservations[b], t.reservations[b]))
    && s.events <= t.events
  }

  lemma ExtendsTransitive(s: State, t: State, u: State)
    requires Extends(s, t) && Extends(t, u)
    ensures Extends(s, u)
  {
  }

  // The rows a write replaces evolve into the rows it stores.
  predicate WriteEvolves(s: State, w: Write) {
    match w
    case Nothing => true
    case WriteEvent(_, _, _) => true
    case InsertRun(run, _, key) => run !in s.runs && (key.Some? ==> key.value !in s.externalKeys)
    case WriteRun(run, row, _) => run in s.runs && RunEvolves(s.runs[run], row)
    case WriteStep(id, row, receipt, _) =>
      && (id in s.steps ==> RowEvolves(s.steps[id], row))
      && (receipt.Some? && receipt.value.0 in s.receipts ==> s.receipts[receipt.value.0] == receipt.value.1)
    case InsertReceipt(key, _) => key !in s.receipts
    case WriteApproval(approval, row, _) => approval in s.approvals ==> ApprovalEvolves(s.approvals[approval], row)
    case WriteCall(providerCall, row, _) => providerCall in s.calls ==> CallEvolves(s.calls[providerCall], row)
    case WriteBudget(run, row, reservation, held, _) =>
      && run in s.runs && RunEvolves(s.runs[run], row)
      && (reservation in s.reservations ==> ReservationEvolves(s.reservations[reservation], held))
  }

  lemma PerformExtends(s: State, w: Write)
    requires WriteEvolves(s, w)
    ensures Extends(s, Perform(s, w))
  {
    hide Extends, WriteEvolves, Perform;
    match w
    case InsertRun(_, _, _) => InsertRunExtends(s, w);
    case WriteBudget(_, _, _, _, _) => WriteBudgetExtends(s, w);
    case WriteStep(_, _, _, _) => WriteStepExtends(s, w);
    case WriteRun(_, _, _) => WriteRunExtends(s, w);
    case WriteApproval(_, _, _) => WriteApprovalExtends(s, w);
    case WriteCall(_, _, _) => WriteCallExtends(s, w);
    case _ => SmallWriteExtends(s, w);
  }

  lemma WriteApprovalExtends(s: State, w: Write)
    requires w.WriteApproval? && WriteEvolves(s, w)
    ensures Extends(s, Perform(s, w))
  {
  }

  lemma WriteCallExtends(s: State, w: Write)
    requires w.WriteCall? && WriteEvolves(s, w)
    ensures Extends(s, Perform(s, w))
  {
  }

  lemma SmallWriteExtends(s: State, w: Write)
    requires w.Nothing? || w.WriteEvent? || w.InsertReceipt?
    requires WriteEvolves(s, w)
    ensures Extends(s, Perform(s, w))
  {
  }

  lemma WriteRunExtends(s: State, w: Write)
    requires w.WriteRun? && WriteEvolves(s, w)
    ensures Extends(s, Perform(s, w))
  {
  }

  lemma InsertRunExtends(s: State, w: Write)
    requires w.InsertRun? && WriteEvolves(s, w)
    ensures Extends(s, Perform(s, w))
  {
  }

  lemma WriteBudgetExtends(s: State, w: Write)
    requires w.WriteBudget? && WriteEvolves(s, w)
    ensures Extends(s, Perform(s, w))
  {
  }

  lemma WriteStepExtends(s: State, w: Write)
    requires w.WriteStep? && WriteEvolves(s, w)
    ensures Extends(s, Perform(s, w))
  {
  }

  lemma WrittenEvolves(s: State, op: Op)
    requires !op.ReclaimOp?
    ensures WriteEvolves(s, Written(s, op))
  {
    if StepOp(op) {
      hide CreateRun, MarkRunStatus, AppendEvent, RecordReceipt, RequestApproval, DecideApproval,
        StartProviderCall, CompleteProviderCall, ReserveBudget, SettleBudget;
    } else {
      hide CreateStep, ClaimReadyStep, MarkExecuting, Heartbeat, CommitStep, FinishOwnedStep, CancelStep;
    }
  }

  lemma {:induction false} ReclaimExtends(s: State, rows: seq<StepId>, now: int)
    ensures Extends(s, ReclaimExpiredLeases(s, rows, now))
  {
    if rows != [] {
      var prior := ReclaimExpiredLeases(s, rows[..|rows| - 1], now);
      ReclaimExtends(s, rows[..|rows| - 1], now);
      PerformExtends(prior, ReclaimOne(prior, rows[|rows| - 1], now));
      ExtendsTransitive(s, prior, ReclaimExpiredLeases(s, rows, now));
    }
  }

  // No operation takes back a row, a decision or an event.
  lemma NextExtends(s: State, op: Op)
    ensures Extends(s, Next(s, op))
  {
    hide Extends, WriteEvolves, Perform, Written;
    if op.ReclaimOp? {
      ReclaimExtends(s, op.rows, op.now);
    } else {
      WrittenEvolves(s, op);
      PerformExtends(s, Written(s, op));
    }
  }

  lemma {:induction false} ExecExtends(s: State, ops: seq<Op>)
    ensures Extends(s, Exec(s, ops))
  {
    if ops != [] {
      hide Next, Extends;
      ExecExtends(s, ops[..|ops| - 1]);
      NextExtends(Exec(s, ops[..|ops| - 1]), ops[|ops| - 1]);
      ExtendsTransitive(s, Exec(s, ops[..|ops| - 1]), Exec(s, ops));
    } else {
      assert Extends(s, s);
    }
  }

  // --- idempotent retries ---

  predicate IdempotentOp(op: Op) {
    match op
    case CreateRunOp(_, _, key) => key.Some?
    case CreateStepOp(_, _) => true
    case RecordReceiptOp(_, _, _) => true
    case DecideApprovalOp(_, _, _) => true
    case ReserveOp(_, _, _) => true
    case SettleOp(_, _, _) => true
    case _ => false
  }

  // External keys name existing runs.
  predicate KeysResolve(s: State) {
    forall k <- s.externalKeys :: s.externalKeys[k] in s.runs
  }

  lemma RetryCreateRun(s: State, run: RunId, identity: RunIdentity, key: Option<string>, t: State)
    requires KeysResolve(s) && key.Some? && CreateRun(s, run, identity, key).Commit?
    requires Extends(Perform(s, CreateRun(s, run, identity, key).write), t)
    ensures CreateRun(t, run, identity, key) == Commit(Nothing)
  {
    var first := Perform(s, CreateRun(s, run, identity, key).write);
    assert key.value in first.externalKeys && first.externalKeys[key.value] in first.runs;
  }

  lemma RetryCreateStep(s: State, id: StepId, now: int, t: State)
    requires CreateStep(s, id, now).Commit? && Extends(Perform(s, CreateStep(s, id, now).write), t)
    ensures CreateStep(t, id, now) == Commit(Nothing)
  {
    var first := Perform(s, CreateStep(s, id, now).write);
    assert id in first.steps && id.run in first.runs;
  }

  lemma RetryRecordReceipt(s: State, id: StepId, key: ReceiptKey, payload: Json, t: State)
    requires RecordReceipt(s, id, key, payload).Commit? && Extends(Perform(s, RecordReceipt(s, id, key, payload).write), t)
    ensures RecordReceipt(t, id, key, payload) == Commit(Nothing)
  {
    var first := Perform(s, RecordReceipt(s, id, key, payload).write);
    assert id in first.steps && key in first.receipts;
  }

  lemma RetryDecideApproval(s: State, approval: string, decision: ApprovalStatus, person: string, t: State)
    requires DecideApproval(s, approval, decision, person).Commit?
    requires Extends(Perform(s, DecideApproval(s, approval, decision, person).write), t)
    ensures DecideApproval(t, approval, decision, person) == Commit(Nothing)
  {
    hide Extends;
    var first := Perform(s, DecideApproval(s, approval, decision, person).write);
    ApprovalStays(first, t, approval);
  }

  lemma ApprovalStays(s: State, t: State, approval: string)
    requires Extends(s, t) && approval in s.approvals
    ensures approval in t.approvals && ApprovalEvolves(s.approvals[approval], t.approvals[approval])
  {
  }

  lemma RetryReserveBudget(s: State, reservation: string, run: RunId, amount: Amounts, t: State)
    requires ReserveBudget(s, reservation, run, amount).Commit?
    requires Extends(Perform(s, ReserveBudget(s, reservation, run, amount).write), t)
    ensures ReserveBudget(t, reservation, run, amount) == Commit(Nothing)
  {
    var first := Perform(s, ReserveBudget(s, reservation, run, amount).write);
    assert ReservationEvolves(first.reservations[reservation], t.reservations[reservation]);
  }

  lemma RetrySettleBudget(s: State, reservation: string, run: RunId, amount: Amounts, t: State)
    requires SettleBudget(s, reservation, run, amount).Commit?
    requires Extends(Perform(s, SettleBudget(s, reservation, run, amount).write), t)
    ensures SettleBudget(t, reservation, run, amount) == Commit(Nothing)
  {
    var first := Perform(s, SettleBudget(s, reservation, run, amount).write);
    assert ReservationEvolves(first.reservations[reservation], t.reservations[reservation]);
  }

  /** A call that committed once is a no-op ever after, whatever ran in between:
      it commits again, changes no row and appends no event. */
  lemma RetryIsNoOp(s: State, op: Op, ops: seq<Op>)
    requires KeysResolve(s) && IdempotentOp(op)
    requires Decide(s, op).Commit?
    ensures var t := Exec(Next(s, op), ops); Decide(t, op) == Commit(Nothing) && Next(t, op) == t
  {
    hide Exec, Extends, CreateRun, CreateStep, RecordReceipt, DecideApproval, ReserveBudget, SettleBudget, MarkRunStatus,
      AppendEvent, ClaimReadyStep, MarkExecuting, Heartbeat, CommitStep, FinishOwnedStep, CancelStep, RequestApproval,
      StartProviderCall, CompleteProviderCall;
    var t := Exec(Next(s, op), ops);
    ExecExtends(Next(s, op), ops);
    match op {
      case CreateRunOp(run, identity, key) => RetryCreateRun(s, run, identity, key, t);
      case CreateStepOp(id, now) => RetryCreateStep(s, id, now, t);
      case RecordReceiptOp(id, key, payload) => RetryRecordReceipt(s, id, key, payload, t);
      case DecideApprovalOp(approval, decision, person) => RetryDecideApproval(s, approval, decision, person, t);
      case ReserveOp(reservation, run, amount) => RetryReserveBudget(s, reservation, run, amount, t);
      case SettleOp(reservation, run, amount) => RetrySettleBudget(s, reservation, run, amount, t);
    }
  }

  /** A completed, failed or cancelled run stays so. */
  lemma EndedRunIsAbsorbing(s: State, run: RunId, ops: seq<Op>)
    requires run in s.runs && RunEnded(s.runs[run].status)
    ensures run in Exec(s, ops).runs && Exec(s, ops).runs[run].status == s.runs[run].status
  {
    ExecExtends(s, ops);
    assert RunEvolves(s.runs[run], Exec(s, ops).runs[run]);
  }

  /** One external key names one run for ever, and another identity is refused. */
  lemma ExternalKeyNamesOneRun(s: State, run: RunId, identity: RunIdentity, key: string, ops: seq<Op>, run2: RunId,
                               identity2: RunIdentity)
    requires KeysResolve(s) && CreateRun(s, run, identity, Some(key)).Commit?
    ensures var t := Exec(Next(s, CreateRunOp(run, identity, Some(key))), ops);
            && key in t.externalKeys
            && t.externalKeys[key] in t.runs
            && t.runs[t.externalKeys[key]].identity == identity
            && CreateRun(t, run2, identity2, Some(key)) ==
               (if identity2.mode == "" then Refuse(Validation)
                else if identity2 == identity then Commit(Nothing) else Refuse(Conflict))
  {
    var first := Next(s, CreateRunOp(run, identity, Some(key)));
    ExecExtends(first, ops);
    RetryCreateRun(s, run, identity, Some(key), Exec(first, ops));
  }

  // External keys name existing runs in every reachable database.
  lemma KeysAlwaysResolve(ops: seq<Op>)
    ensures KeysResolve(Exec(EMPTY, ops))
  {
    ExecExtends(EMPTY, ops);
  }
}
