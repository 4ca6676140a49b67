/**
 The lease machine of a step, over every sequence of journal operations:
 ownership, absorbing states, and at most one execution of a step whose
 effect may not be repeated.
 */
module JournalLeases {
  import opened Options
  import opened JournalTypes
  import opened JournalSpec
  import opened JournalHistory

  ghost predicate RowInv(id: StepId, row: StepRow) {
    && (Held(row.status) <==> row.owner.Some?)
    && (row.owner.Some? <==> row.expiresAt.Some?)
    && (row.status == Committed <==> row.output.Some?)
    && row.status != Created
    && (!Retryable(id.safety) ==> row.attempts <= if row.status == Ready then 0 else 1)
  }

  ghost predicate LeaseInv(s: State) {
    forall id <- s.steps :: RowInv(id, s.steps[id])
  }

  lemma OnlyStepOpsWriteSteps(s: State, op: Op)
    requires !op.ReclaimOp? && Written(s, op).WriteStep?
    ensures StepOp(op)
  {
    hide CreateStep, ClaimReadyStep, MarkExecuting, Heartbeat, CommitStep, FinishOwnedStep, CancelStep;
  }

  lemma WrittenKeepsRow(s: State, op: Op)
    requires LeaseInv(s) && !op.ReclaimOp? && Written(s, op).WriteStep?
    ensures RowInv(Written(s, op).id, Written(s, op).stepRow)
  {
    OnlyStepOpsWriteSteps(s, op);
    hide CreateRun, MarkRunStatus, AppendEvent, RecordReceipt, RequestApproval, DecideApproval,
      StartProviderCall, CompleteProviderCall, ReserveBudget, SettleBudget;
  }

  lemma {:induction false} ReclaimKeepsLeases(s: State, rows: seq<StepId>, now: int)
    requires LeaseInv(s)
    ensures LeaseInv(ReclaimExpiredLeases(s, rows, now))
  {
    if rows != [] { ReclaimKeepsLeases(s, rows[..|rows| - 1], now); }
  }

  lemma NextKeepsLeases(s: State, op: Op)
    requires LeaseInv(s)
    ensures LeaseInv(Next(s, op))
  {
    hide Written, Perform, RowInv, LeaseInv;
    if op.ReclaimOp? {
      ReclaimKeepsLeases(s, op.rows, op.now);
    } else {
      if Written(s, op).WriteStep? { WrittenKeepsRow(s, op); }
      PerformKeepsLeases(s, Written(s, op));
    }
  }

  lemma PerformKeepsLeases(s: State, w: Write)
    requires LeaseInv(s) && (w.WriteStep? ==> RowInv(w.id, w.stepRow))
    ensures LeaseInv(Perform(s, w))
  {
  }

  // --- how often a step is put into execution ---

  // The journal's own event types are never written through append_event.
  predicate HonestOp(op: Op) {
    op.AppendEventOp? ==> op.body.UserEvent?
  }

  predicate Honest(ops: seq<Op>) {
    forall op <- ops :: HonestOp(op)
  }

  predicate Executes(e: Event, id: StepId) {
    e.step == Some(id) && e.body.StepExecutingEvent?
  }

  // The number of `step.executing` events of a step.
  function Executions(events: seq<Event>, id: StepId): nat {
    if events == [] then 0
    else Executions(events[..|events| - 1], id) + if Executes(events[|events| - 1], id) then 1 else 0
  }

  lemma ExecutionsAppend(events: seq<Event>, e: Event, id: StepId)
    ensures Executions(events + [e], id) == Executions(events, id) + if Executes(e, id) then 1 else 0
  {
    assert (events + [e])[..|events|] == events;
  }

  // Every execution was preceded by its own claim.
  predicate ClaimedBefore(s: State, id: StepId) {
    if id in s.steps then
      Executions(s.events, id) + (if s.steps[id].status == Leased then 1 else 0) <= s.steps[id].attempts
    else
      Executions(s.events, id) == 0
  }

  // A write that puts a step into execution takes it out of the leased state,
  // and one that leases it counts an attempt.
  predicate WriteCounts(s: State, w: Write) {
    if w.WriteStep? then
      var before := if w.id in s.steps then s.steps[w.id].attempts - (if s.steps[w.id].status == Leased then 1 else 0) else 0;
      var after := w.stepRow.attempts - if w.stepRow.status == Leased then 1 else 0;
      before + (if w.body.StepExecutingEvent? then 1 else 0) <= after
    else
      !w.Nothing? ==> !EventOf(w).body.StepExecutingEvent?
  }

  lemma WrittenCounts(s: State, op: Op)
    requires LeaseInv(s) && !op.ReclaimOp? && HonestOp(op)
    ensures WriteCounts(s, Written(s, op))
  {
    if StepOp(op) { StepWriteCounts(s, op); } else { OtherWriteCounts(s, op); }
    hide Written, WriteCounts;
  }

  lemma StepWriteCounts(s: State, op: Op)
    requires LeaseInv(s) && StepOp(op)
    ensures WriteCounts(s, Written(s, op))
  {
    hide CreateRun, MarkRunStatus, AppendEvent, RecordReceipt, RequestApproval, DecideApproval,
      StartProviderCall, CompleteProviderCall, ReserveBudget, SettleBudget;
  }

  lemma OtherWriteCounts(s: State, op: Op)
    requires !op.ReclaimOp? && !StepOp(op) && HonestOp(op)
    ensures WriteCounts(s, Written(s, op))
  {
    hide CreateStep, ClaimReadyStep, MarkExecuting, Heartbeat, CommitStep, FinishOwnedStep, CancelStep;
  }

  lemma PerformCounts(s: State, w: Write, id: StepId)
    requires ClaimedBefore(s, id) && WriteCounts(s, w)
    ensures ClaimedBefore(Perform(s, w), id)
  {
    if !w.Nothing? { ExecutionsAppend(s.events, EventOf(w), id); }
  }

  lemma {:induction false} ReclaimKeepsCount(s: State, rows: seq<StepId>, now: int, id: StepId)
    requires ClaimedBefore(s, id)
    ensures ClaimedBefore(ReclaimExpiredLeases(s, rows, now), id)
  {
    if rows != [] {
      ReclaimKeepsCount(s, rows[..|rows| - 1], now, id);
      var prior := ReclaimExpiredLeases(s, rows[..|rows| - 1], now);
      PerformCounts(prior, ReclaimOne(prior, rows[|rows| - 1], now), id);
    }
  }

  lemma NextKeepsCount(s: State, op: Op, id: StepId)
    requires LeaseInv(s) && ClaimedBefore(s, id) && HonestOp(op)
    ensures ClaimedBefore(Next(s, op), id)
  {
    hide Written, ClaimedBefore, WriteCounts, Perform;
    if op.ReclaimOp? {
      ReclaimKeepsCount(s, op.rows, op.now, id);
    } else {
      WrittenCounts(s, op);
      PerformCounts(s, Written(s, op), id);
    }
  }

  /** Over every sequence of operations: owner and expiry are set exactly in the
      leased and executing states, and a step whose effect must not be repeated
      is claimed at most once, hence put into execution at most once. */
  lemma {:induction false} LeaseMachine(ops: seq<Op>, id: StepId)
    requires Honest(ops)
    ensures var s := Exec(EMPTY, ops);
            && LeaseInv(s)
            && ClaimedBefore(s, id)
            && (!Retryable(id.safety) ==> Executions(s.events, id) <= 1)
  {
    hide Next;
    if ops != [] {
      LeaseMachine(ops[..|ops| - 1], id);
      NextKeepsLeases(Exec(EMPTY, ops[..|ops| - 1]), ops[|ops| - 1]);
      NextKeepsCount(Exec(EMPTY, ops[..|ops| - 1]), ops[|ops| - 1], id);
    }
  }

  /** Only the worker that holds an unexpired lease on an executing step commits
      it, and the stored output is the one that worker passed. */
  lemma CommitNeedsLiveLease(s: State, op: Op, id: StepId)
    requires id in s.steps ==> s.steps[id].status != Committed
    requires id in Next(s, op).steps && Next(s, op).steps[id].status == Committed
    ensures op.CommitOp? && op.id == id && id in s.steps
    ensures s.steps[id].status == Executing
    ensures s.steps[id].owner == Some(op.worker)
    ensures s.steps[id].expiresAt.Some? && s.steps[id].expiresAt.value > op.now
    ensures Next(s, op).steps[id].output == Some(op.output)
  {
    hide Written, Perform, RowInv;
    if op.ReclaimOp? {
      ReclaimRecovers(s, op.rows, op.now, id);
    } else {
      PerformWritesOneStep(s, Written(s, op), id);
      CommitIsWritten(s, op);
    }
  }

  lemma PerformWritesOneStep(s: State, w: Write, id: StepId)
    ensures var t := Perform(s, w);
            if w.WriteStep? && w.id == id then id in t.steps && t.steps[id] == w.stepRow
            else (id in t.steps <==> id in s.steps) && (id in s.steps ==> t.steps[id] == s.steps[id])
  {
  }

  lemma CommitIsWritten(s: State, op: Op)
    requires !op.ReclaimOp? && Written(s, op).WriteStep?
    requires Written(s, op).stepRow.status == Committed
    requires Written(s, op).id in s.steps ==> s.steps[Written(s, op).id].status != Committed
    ensures op.CommitOp? && op.id == Written(s, op).id && op.id in s.steps
    ensures s.steps[op.id].status == Executing
    ensures s.steps[op.id].owner == Some(op.worker)
    ensures s.steps[op.id].expiresAt.Some? && s.steps[op.id].expiresAt.value > op.now
    ensures Written(s, op).stepRow.output == Some(op.output)
  {
    OnlyStepOpsWriteSteps(s, op);
    hide CreateRun, MarkRunStatus, AppendEvent, RecordReceipt, RequestApproval, DecideApproval,
      StartProviderCall, CompleteProviderCall, ReserveBudget, SettleBudget;
  }

  /** A claim gives the first ready step of its scope to one worker for the length of
      the lease: as long as it lasts that worker, and no other, can go on with the
      step, and only afterwards can it be taken away. */
  lemma ClaimGives(s: State, worker: Worker, lease: int, scope: Option<RunId>, now: int, id: StepId, other: Worker, later: int)
    requires FirstReady(s, scope, Some(id)) && ClaimReadyStep(s, worker, lease, scope, now, Some(id)).Commit?
    ensures s.steps[id].status == Ready && (scope.None? || scope.value == id.run)
    ensures forall x <- s.steps :: s.steps[x].status == Ready && (scope.None? || scope.value == x.run) ==>
              if id.sequence == x.sequence then s.steps[id].createdAt <= s.steps[x].createdAt
              else id.sequence.Some? && (x.sequence.Some? ==> id.sequence.value < x.sequence.value)
    ensures var t := After(s, ClaimReadyStep(s, worker, lease, scope, now, Some(id)));
            && id in t.steps && t.steps[id].status == Leased
            && (MarkExecuting(t, id, other, later).Commit? <==> other == worker && later < now + lease)
            && (Expired(t.steps[id], later) <==> now + lease <= later)
  {
    forall x <- s.steps | s.steps[x].status == Ready && (scope.None? || scope.value == x.run) ensures NotAfter(s, id, x) {
      assert Claimable(s, scope, x);
    }
  }

  // No step is claimed exactly if none of the scope is ready.
  lemma NoneToClaim(s: State, scope: Option<RunId>)
    ensures FirstReady(s, scope, None) <==> forall x <- s.steps :: scope.None? || scope.value == x.run ==> s.steps[x].status != Ready
  {
    forall x <- s.steps ensures Claimable(s, scope, x) <==> s.steps[x].status == Ready && (scope.None? || scope.value == x.run) {
    }
  }

  /** The ways a run changes its status. */
  lemma RunTable(s: State, run: RunId, target: RunStatus)
    requires run in s.runs
    ensures var status, d := s.runs[run].status, MarkRunStatus(s, run, target);
            && (d == Refuse(InvalidTransition) <==>
                  status != target && (status, target) !in {
                    (RunCreated, Running), (RunCreated, Paused), (RunCreated, RunFailed), (RunCreated, RunCancelled),
                    (Running, Paused), (Running, Completed), (Running, RunFailed), (Running, RunCancelled),
                    (Paused, Running), (Paused, Completed), (Paused, RunFailed), (Paused, RunCancelled)})
            && (d.Commit? ==> run in After(s, d).runs && After(s, d).runs[run] == s.runs[run].(status := target))
  {
  }

  /** One reclaim transaction sends each selected expired row to ready or to
      uncertain by its safety class alone, and touches no other row. */
  lemma {:induction false} ReclaimRecovers(s: State, rows: seq<StepId>, now: int, id: StepId)
    ensures var t := ReclaimExpiredLeases(s, rows, now);
            && (id in t.steps <==> id in s.steps)
            && (id in s.steps ==>
                  t.steps[id] ==
                  if id in rows && s.steps[id].status in {Leased, Executing} && s.steps[id].expiresAt.Some?
                     && s.steps[id].expiresAt.value <= now
                  then s.steps[id].(status := if id.safety in {ReadOnly, Idempotent} then Ready else Uncertain,
                                    owner := None, expiresAt := None)
                  else s.steps[id])
  {
    if rows != [] {
      ReclaimRecovers(s, rows[..|rows| - 1], now, id);
      assert rows == rows[..|rows| - 1] + [rows[|rows| - 1]];
    }
  }

  /** Committed, failed and cancelled rows never change again. */
  lemma TerminalIsAbsorbing(s: State, ops: seq<Op>, id: StepId)
    requires id in s.steps && s.steps[id].status in {Committed, Failed, Cancelled}
    ensures id in Exec(s, ops).steps && Exec(s, ops).steps[id] == s.steps[id]
  {
    ExecExtends(s, ops);
    assert RowEvolves(s.steps[id], Exec(s, ops).steps[id]);
  }
}
