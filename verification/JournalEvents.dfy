/**
 Event sourcing: the control state of the journal is the fold of its event log.
 */
module JournalEvents {
  import opened Options
  import opened JournalTypes
  import opened JournalSpec
  import opened JournalLeases

  datatype RunControl = RunControl(status: RunStatus, reserved: Amounts, used: Amounts)

  datatype StepControl = StepControl(status: StepStatus, owner: Option<Worker>, expiresAt: Option<int>, attempts: nat)

  datatype Control = Control(
    runs: map<RunId, RunControl>,
    steps: map<StepId, StepControl>,
    approvals: map<string, ApprovalStatus>,
    calls: map<string, CallStatus>,
    reservations: map<string, Amounts>)

  const BLANK := Control(map[], map[], map[], map[], map[])

  function OfRun(row: RunRow): RunControl { RunControl(row.status, row.reserved, row.used) }

  function OfStep(row: StepRow): StepControl { StepControl(row.status, row.owner, row.expiresAt, row.attempts) }

  function RunControls(rows: map<RunId, RunRow>): map<RunId, RunControl> { map r <- rows :: OfRun(rows[r]) }

  function StepControls(rows: map<StepId, StepRow>): map<StepId, StepControl> { map id <- rows :: OfStep(rows[id]) }

  function ApprovalControls(rows: map<string, Approval>): map<string, ApprovalStatus> { map a <- rows :: rows[a].status }

  function CallControls(rows: map<string, ProviderCall>): map<string, CallStatus> { map c <- rows :: rows[c].status }

  function HeldAmounts(rows: map<string, Reservation>): map<string, Amounts> { map b <- rows :: rows[b].amount }

  // What the tables say.
  function ControlOf(s: State): Control {
    Control(RunControls(s.runs), StepControls(s.steps), ApprovalControls(s.approvals), CallControls(s.calls), HeldAmounts(s.reservations))
  }

  // What one event says happened to the step it names.
  function StepAfter(before: StepControl, body: EventBody): StepControl {
    match body
    case StepCreatedEvent => StepControl(Ready, None, None, 0)
    case StepLeasedEvent(worker, expiry, attempt) => StepControl(Leased, Some(worker), Some(expiry), attempt)
    case StepExecutingEvent(_) => before.(status := Executing)
    case StepHeartbeatEvent(_, expiry) => before.(expiresAt := Some(expiry))
    case StepCommittedEvent(_) => before.(status := Committed, owner := None, expiresAt := None)
    case StepFailedEvent(_) => before.(status := Failed, owner := None, expiresAt := None)
    case StepUncertainEvent(_) => before.(status := Uncertain, owner := None, expiresAt := None)
    case StepCancelledEvent(_) => before.(status := Cancelled, owner := None, expiresAt := None)
    case LeaseExpiredEvent(_, to) => before.(status := to, owner := None, expiresAt := None)
    case _ => before
  }

  predicate AboutStep(body: EventBody) {
    body.StepCreatedEvent? || body.StepLeasedEvent? || body.StepExecutingEvent? || body.StepHeartbeatEvent? ||
    body.StepCommittedEvent? || body.StepFailedEvent? || body.StepUncertainEvent? || body.StepCancelledEvent? ||
    body.LeaseExpiredEvent?
  }

  const UNKNOWN := StepControl(Created, None, None, 0)

  // What one event says happened to the run it names.
  function RunAfter(before: RunControl, body: EventBody, held: Amounts): RunControl {
    match body
    case RunCreatedEvent(_, _) => RunControl(RunCreated, NOTHING, NOTHING)
    case StatusChangedEvent(_, to) => before.(status := to)
    case BudgetReservedEvent(_, amount) => before.(reserved := before.reserved.Plus(amount))
    case BudgetSettledEvent(_, actual) => before.(reserved := before.reserved.Minus(held), used := before.used.Plus(actual))
    case _ => before
  }

  const NEWBORN := RunControl(RunCreated, NOTHING, NOTHING)

  function GetOr<K, V>(m: map<K, V>, k: K, default: V): V {
    if k in m then m[k] else default
  }

  function ApplyEvent(c: Control, e: Event): Control {
    var run := GetOr(c.runs, e.run, NEWBORN);
    match e.body
    case RunCreatedEvent(_, _) => c.(runs := c.runs[e.run := RunAfter(run, e.body, NOTHING)])
    case StatusChangedEvent(_, _) => c.(runs := c.runs[e.run := RunAfter(run, e.body, NOTHING)])
    case ApprovalRequestedEvent(approval, _) => c.(approvals := c.approvals[approval := Pending])
    case ApprovalDecidedEvent(approval, decision) => c.(approvals := c.approvals[approval := decision])
    case ProviderStartedEvent(providerCall) => c.(calls := c.calls[providerCall := Started])
    case ProviderFinishedEvent(providerCall, status) => c.(calls := c.calls[providerCall := status])
    case BudgetReservedEvent(reservation, amount) =>
      c.(runs := c.runs[e.run := RunAfter(run, e.body, NOTHING)], reservations := c.reservations[reservation := amount])
    case BudgetSettledEvent(reservation, _) =>
      c.(runs := c.runs[e.run := RunAfter(run, e.body, GetOr(c.reservations, reservation, NOTHING))])
    case _ =>
      if AboutStep(e.body) && e.step.Some? then
        c.(steps := c.steps[e.step.value := StepAfter(GetOr(c.steps, e.step.value, UNKNOWN), e.body)])
      else
        c
  }

  function Fold(events: seq<Event>): Control {
    if events == [] then BLANK else ApplyEvent(Fold(events[..|events| - 1]), events[|events| - 1])
  }

  // The event of a write says exactly what the write does to the control state.
  predicate Recorded(s: State, w: Write) {
    match w
    case Nothing => true
    case WriteEvent(_, _, body) => body.UserEvent?
    case InsertRun(_, row, _) => OfRun(row) == NEWBORN
    case WriteRun(run, row, body) =>
      run in s.runs && body.StatusChangedEvent? && OfRun(row) == RunAfter(OfRun(s.runs[run]), body, NOTHING)
    case WriteStep(id, row, _, body) =>
      AboutStep(body) && OfStep(row) == StepAfter(if id in s.steps then OfStep(s.steps[id]) else UNKNOWN, body)
    case InsertReceipt(_, _) => true
    case WriteApproval(approval, row, body) =>
      || (body.ApprovalRequestedEvent? && body.approval == approval && row.status == Pending)
      || (body.ApprovalDecidedEvent? && body.approval == approval && row.status == body.decision)
    case WriteCall(providerCall, row, body) =>
      || (body.ProviderStartedEvent? && body.providerCall == providerCall && row.status == Started)
      || (body.ProviderFinishedEvent? && body.providerCall == providerCall && row.status == body.callStatus)
    case WriteBudget(run, row, reservation, held, body) =>
      && run in s.runs
      && (|| (body.BudgetReservedEvent? && body.reservation == reservation && body.amount == held.amount
              && OfRun(row) == RunAfter(OfRun(s.runs[run]), body, NOTHING))
          || (body.BudgetSettledEvent? && body.reservation == reservation && reservation in s.reservations
              && held.amount == s.reservations[reservation].amount
              && OfRun(row) == RunAfter(OfRun(s.runs[run]), body, held.amount)))
  }

  lemma WrittenIsRecorded(s: State, op: Op)
    requires !op.ReclaimOp? && HonestOp(op)
    ensures Recorded(s, Written(s, op))
  {
    if StepOp(op) { StepWriteIsRecorded(s, op); } else { OtherWriteIsRecorded(s, op); }
    hide Written, Recorded;
  }

  lemma StepWriteIsRecorded(s: State, op: Op)
    requires StepOp(op)
    ensures Recorded(s, Written(s, op))
  {
    hide CreateRun, MarkRunStatus, AppendEvent, RecordReceipt, RequestApproval, DecideApproval,
      StartProviderCall, CompleteProviderCall, ReserveBudget, SettleBudget;
  }

  lemma OtherWriteIsRecorded(s: State, op: Op)
    requires !op.ReclaimOp? && !StepOp(op) && HonestOp(op)
    ensures Recorded(s, Written(s, op))
  {
    hide CreateStep, ClaimReadyStep, MarkExecuting, Heartbeat, CommitStep, FinishOwnedStep, CancelStep;
  }

  lemma RunWriteMatches(s: State, w: Write)
    requires (w.InsertRun? || w.WriteRun?) && Recorded(s, w)
    ensures ControlOf(Store(s, w)) == ApplyEvent(ControlOf(s), EventOf(w))
  {
    assert RunControls(Store(s, w).runs) == RunControls(s.runs)[w.run := OfRun(w.runRow)];
  }

  lemma BudgetWriteMatches(s: State, w: Write)
    requires w.WriteBudget? && Recorded(s, w)
    ensures ControlOf(Store(s, w)) == ApplyEvent(ControlOf(s), EventOf(w))
  {
    assert RunControls(Store(s, w).runs) == RunControls(s.runs)[w.run := OfRun(w.runRow)];
    assert HeldAmounts(Store(s, w).reservations) == HeldAmounts(s.reservations)[w.reservation := w.held.amount];
    assert w.body.BudgetSettledEvent? ==>
      HeldAmounts(s.reservations)[w.reservation := w.held.amount] == HeldAmounts(s.reservations);
  }

  lemma StepWriteMatches(s: State, w: Write)
    requires w.WriteStep? && Recorded(s, w)
    ensures ControlOf(Store(s, w)) == ApplyEvent(ControlOf(s), EventOf(w))
  {
    assert StepControls(Store(s, w).steps) == StepControls(s.steps)[w.id := OfStep(w.stepRow)];
  }

  lemma ApprovalWriteMatches(s: State, w: Write)
    requires w.WriteApproval? && Recorded(s, w)
    ensures ControlOf(Store(s, w)) == ApplyEvent(ControlOf(s), EventOf(w))
  {
    assert ApprovalControls(Store(s, w).approvals) == ApprovalControls(s.approvals)[w.approval := w.approvalRow.status];
  }

  lemma CallWriteMatches(s: State, w: Write)
    requires w.WriteCall? && Recorded(s, w)
    ensures ControlOf(Store(s, w)) == ApplyEvent(ControlOf(s), EventOf(w))
  {
    assert CallControls(Store(s, w).calls) == CallControls(s.calls)[w.providerCall := w.callRow.status];
  }

  lemma WriteMatches(s: State, w: Write)
    requires !w.Nothing? && Recorded(s, w)
    ensures ControlOf(Store(s, w)) == ApplyEvent(ControlOf(s), EventOf(w))
  {
    hide RunControls, StepControls, ApprovalControls, CallControls, HeldAmounts, OfRun, OfStep, RunAfter, StepAfter;
    match w
    case InsertRun(_, _, _) => RunWriteMatches(s, w);
    case WriteRun(_, _, _) => RunWriteMatches(s, w);
    case WriteStep(_, _, _, _) => StepWriteMatches(s, w);
    case WriteApproval(_, _, _) => ApprovalWriteMatches(s, w);
    case WriteCall(_, _, _) => CallWriteMatches(s, w);
    case WriteBudget(_, _, _, _, _) => BudgetWriteMatches(s, w);
    case _ =>
  }

  lemma PerformFolds(s: State, w: Write)
    requires Recorded(s, w) && Fold(s.events) == ControlOf(s)
    ensures var t := Perform(s, w); Fold(t.events) == ControlOf(t)
  {
    hide Recorded, Store, EventOf, ApplyEvent;
    if !w.Nothing? {
      WriteMatches(s, w);
      assert Perform(s, w).events[..|s.events|] == s.events;
    }
  }

  lemma {:induction false} ReclaimFolds(s: State, rows: seq<StepId>, now: int)
    requires Fold(s.events) == ControlOf(s)
    ensures var t := ReclaimExpiredLeases(s, rows, now); Fold(t.events) == ControlOf(t)
  {
    if rows != [] {
      var prior := ReclaimExpiredLeases(s, rows[..|rows| - 1], now);
      ReclaimFolds(s, rows[..|rows| - 1], now);
      PerformFolds(prior, ReclaimOne(prior, rows[|rows| - 1], now));
    }
  }

  /** In every reachable database the control state - run, step, approval and
      provider-call states, lease owner and expiry, attempt counts, budget
      totals - equals the fold of the event log. */
  lemma {:induction false} EventSourcing(ops: seq<Op>)
    requires Honest(ops)
    ensures Fold(Exec(EMPTY, ops).events) == ControlOf(Exec(EMPTY, ops))
  {
    hide Written, Recorded, Perform, ControlOf;
    if ops == [] {
      EmptyFolds();
    } else {
      var prior, op := Exec(EMPTY, ops[..|ops| - 1]), ops[|ops| - 1];
      EventSourcing(ops[..|ops| - 1]);
      if op.ReclaimOp? {
        ReclaimFolds(prior, op.rows, op.now);
      } else {
        WrittenIsRecorded(prior, op);
        PerformFolds(prior, Written(prior, op));
      }
    }
  }

  lemma EmptyFolds()
    ensures Fold(EMPTY.events) == ControlOf(EMPTY)
  {
  }

  /** The restriction to user event types is needed: append_event accepts any
      non-empty type, and one forged status event breaks the fold. */
  lemma ForgedEventBreaksFold(run: RunId, identity: RunIdentity)
    requires identity.mode != "" && identity.parent.None?
    ensures var s := Next(EMPTY, CreateRunOp(run, identity, None));
            var t := Next(s, AppendEventOp(run, None, StatusChangedEvent(RunCreated, Completed)));
            Fold(s.events) == ControlOf(s) && Fold(t.events) != ControlOf(t)
  {
    var create := CreateRunOp(run, identity, None);
    hide Fold, ControlOf;
    EventSourcing([create]);
    assert [create][..0] == [];
    assert Exec(EMPTY, [create]) == Next(EMPTY, create);
    ForgedEventIsBelieved(Next(EMPTY, create), run);
  }

  lemma ForgedEventIsBelieved(s: State, run: RunId)
    requires run in s.runs && s.runs[run].status == RunCreated && Fold(s.events) == ControlOf(s)
    ensures var t := Next(s, AppendEventOp(run, None, StatusChangedEvent(RunCreated, Completed)));
            Fold(t.events) != ControlOf(t)
  {
    var e := Event(run, None, StatusChangedEvent(RunCreated, Completed));
    var t := Next(s, AppendEventOp(run, None, e.body));
    assert t == s.(events := s.events + [e]);
    assert t.events[..|t.events| - 1] == s.events;
    assert Fold(t.events) == ApplyEvent(Fold(s.events), e);
    assert Fold(t.events).runs[run].status == Completed;
    assert ControlOf(t).runs[run].status == RunCreated;
  }
}
