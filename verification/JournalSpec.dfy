/**
 Each journal operation as a decision over the database before its transaction:
 what the transaction writes, or the error with which it is rolled back.
 `Perform` stores what was decided.
 */
module JournalSpec {
  import opened Options
  import opened JournalTypes
  import opened Texts

  predicate RunTransition(from: RunStatus, to: RunStatus) {
    match from
    case RunCreated => to in {Running, Paused, RunFailed, RunCancelled}
    case Running => to in {Paused, Completed, RunFailed, RunCancelled}
    case Paused => to in {Running, Completed, RunFailed, RunCancelled}
    case _ => false
  }

  predicate Held(status: StepStatus) {
    status == Leased || status == Executing
  }

  predicate Terminal(status: StepStatus) {
    status == Committed || status == Failed || status == Cancelled
  }

  predicate Retryable(safety: SafetyClass) {
    safety == ReadOnly || safety == Idempotent
  }

  // --- storing a write ---

  // The event that records a write, in the same transaction.
  function EventOf(w: Write): Event
    requires !w.Nothing?
  {
    match w
    case WriteEvent(run, subject, body) => Event(run, subject, body)
    case InsertRun(run, row, _) => Event(run, None, RunCreatedEvent(row.identity.mode, row.identity.parent))
    case WriteRun(run, _, body) => Event(run, None, body)
    case WriteStep(id, _, _, body) => Event(id.run, Some(id), body)
    case InsertReceipt(key, receipt) => Event(receipt.run, Some(receipt.step), ReceiptRecordedEvent(key))
    case WriteApproval(_, row, body) => Event(row.run, row.step, body)
    case WriteCall(_, row, body) => Event(row.run, row.step, body)
    case WriteBudget(run, _, _, _, body) => Event(run, None, body)
  }

  function Store(s: State, w: Write): State {
    match w
    case Nothing => s
    case WriteEvent(_, _, _) => s
    case InsertRun(run, row, key) =>
      s.(runs := s.runs[run := row],
         externalKeys := if key.Some? then s.externalKeys[key.value := run] else s.externalKeys)
    case WriteRun(run, row, _) => s.(runs := s.runs[run := row])
    case WriteStep(id, row, receipt, _) =>
      s.(steps := s.steps[id := row],
         receipts := if receipt.Some? then s.receipts[receipt.value.0 := receipt.value.1] else s.receipts)
    case InsertReceipt(key, receipt) => s.(receipts := s.receipts[key := receipt])
    case WriteApproval(approval, row, _) => s.(approvals := s.approvals[approval := row])
    case WriteCall(providerCall, row, _) => s.(calls := s.calls[providerCall := row])
    case WriteBudget(run, row, reservation, held, _) =>
      s.(runs := s.runs[run := row], reservations := s.reservations[reservation := held])
  }

  function Perform(s: State, w: Write): State {
    if w.Nothing? then s else Store(s, w).(events := s.events + [EventOf(w)])
  }

  // The database after a decision; a refused transaction leaves it as it was.
  function After(s: State, d: Decision): State {
    if d.Commit? then Perform(s, d.write) else s
  }

  function ErrorOf(d: Decision): Option<Error> {
    if d.Refuse? then Some(d.error) else None
  }

  // --- deciding ---

  function CreateRun(s: State, run: RunId, identity: RunIdentity, key: Option<string>): Decision {
    if identity.mode == "" || (key.Some? && Blank(key.value)) then
      Refuse(Validation)
    else if key.Some? && key.value in s.externalKeys then
      var existing := s.externalKeys[key.value];
      if existing in s.runs && s.runs[existing].identity == identity then Commit(Nothing) else Refuse(Conflict)
    else if run in s.runs then
      Refuse(Conflict)
    else if identity.parent.Some? && identity.parent.value !in s.runs then
      Refuse(NotFound)
    else
      Commit(InsertRun(run, RunRow(identity, RunCreated, NOTHING, NOTHING), key))
  }

  function MarkRunStatus(s: State, run: RunId, target: RunStatus): Decision {
    if run !in s.runs then
      Refuse(NotFound)
    else
      var current := s.runs[run].status;
      if current == target then Commit(Nothing)
      else if !RunTransition(current, target) then Refuse(InvalidTransition)
      else Commit(WriteRun(run, s.runs[run].(status := target), StatusChangedEvent(current, target)))
  }

  // The run must exist, and a step given with it must be one of its steps.
  function SubjectError(s: State, run: RunId, subject: Option<StepId>): Option<Error> {
    if run !in s.runs || (subject.Some? && subject.value !in s.steps) then Some(NotFound)
    else if subject.Some? && subject.value.run != run then Some(Validation)
    else None
  }

  function AppendEvent(s: State, run: RunId, subject: Option<StepId>, body: EventBody): Decision {
    var e := SubjectError(s, run, subject);
    if body.UserEvent? && body.topic == "" then Refuse(Validation)
    else if e.Some? then Refuse(e.value)
    else Commit(WriteEvent(run, subject, body))
  }

  function CreateStep(s: State, id: StepId, now: int): Decision {
    if id.name == "" || (id.input.OtherInput? && id.input.kind == "") then Refuse(Validation)
    else if id.run !in s.runs then Refuse(NotFound)
    else if id in s.steps then Commit(Nothing)
    else Commit(WriteStep(id, StepRow(Ready, None, None, 0, None, now), None, StepCreatedEvent))
  }

  // The order of ready steps: by sequence with nulls last, then by creation time.
  predicate NotAfter(s: State, a: StepId, b: StepId)
    requires a in s.steps && b in s.steps
  {
    if a.sequence != b.sequence then
      b.sequence.None? || (a.sequence.Some? && a.sequence.value < b.sequence.value)
    else
      s.steps[a].createdAt <= s.steps[b].createdAt
  }

  predicate Claimable(s: State, scope: Option<RunId>, id: StepId) {
    id in s.steps && s.steps[id].status == Ready && (scope == None || scope == Some(id.run))
  }

  // `pick` is what the ordered query with limit one may return.
  predicate FirstReady(s: State, scope: Option<RunId>, pick: Option<StepId>) {
    match pick
    case None => forall id <- s.steps :: !Claimable(s, scope, id)
    case Some(first) =>
      Claimable(s, scope, first) &&
      forall id <- s.steps :: Claimable(s, scope, id) ==> NotAfter(s, first, id)
  }

  // What the ordered query over all steps of a run returns.
  ghost predicate IsListing(s: State, run: RunId, ids: seq<StepId>) {
    && (forall id :: id in ids <==> id in s.steps && id.run == run)
    && (forall a, b | 0 <= a < b < |ids| :: ids[a] != ids[b])
    && (forall a, b | 0 <= a < b < |ids| :: ids[a] in s.steps && ids[b] in s.steps && NotAfter(s, ids[a], ids[b]))
  }

  // What the ordered query over the approvals of a run, or of one of its steps, returns.
  ghost predicate IsApprovalListing(s: State, run: RunId, subject: Option<StepId>, ids: seq<string>) {
    && (forall a :: a in ids <==> a in s.approvals && s.approvals[a].run == run && (subject.None? || s.approvals[a].step == subject))
    && (forall a, b | 0 <= a < b < |ids| :: ids[a] != ids[b])
    && (forall a, b | 0 <= a < b < |ids| :: ids[a] in s.approvals && ids[b] in s.approvals
                                           && s.approvals[ids[a]].createdAt <= s.approvals[ids[b]].createdAt)
  }

  function ClaimReadyStep(s: State, worker: Worker, lease: int, scope: Option<RunId>, now: int,
                          pick: Option<StepId>): Decision
    requires FirstReady(s, scope, pick)
  {
    if worker == "" || lease <= 0 then
      Refuse(Validation)
    else if scope.Some? && scope.value !in s.runs then
      Refuse(NotFound)
    else if pick.None? then
      Commit(Nothing)
    else
      var row := s.steps[pick.value];
      Commit(WriteStep(pick.value,
                       row.(status := Leased, owner := Some(worker), expiresAt := Some(now + lease), attempts := row.attempts + 1),
                       None, StepLeasedEvent(worker, now + lease, row.attempts + 1)))
  }

  // The error of the ownership check, or None when the worker holds a live lease.
  function OwnerError(row: StepRow, worker: Worker, now: int): Option<Error> {
    if worker == "" then Some(Validation)
    else if row.owner != Some(worker) then Some(NotOwner)
    else if row.expiresAt.None? || row.expiresAt.value <= now then Some(LeaseExpired)
    else None
  }

  // The common guard of the operations that need a live lease.
  function LeaseError(s: State, id: StepId, worker: Worker, allowed: set<StepStatus>, now: int): Option<Error> {
    if id !in s.steps then Some(NotFound)
    else if s.steps[id].status !in allowed then Some(InvalidTransition)
    else OwnerError(s.steps[id], worker, now)
  }

  function MarkExecuting(s: State, id: StepId, worker: Worker, now: int): Decision {
    var e := LeaseError(s, id, worker, {Leased}, now);
    if e.Some? then Refuse(e.value)
    else Commit(WriteStep(id, s.steps[id].(status := Executing), None, StepExecutingEvent(worker)))
  }

  function Heartbeat(s: State, id: StepId, worker: Worker, lease: int, now: int): Decision {
    var e := LeaseError(s, id, worker, {Leased, Executing}, now);
    if lease <= 0 then Refuse(Validation)
    else if e.Some? then Refuse(e.value)
    else Commit(WriteStep(id, s.steps[id].(expiresAt := Some(now + lease)), None, StepHeartbeatEvent(worker, now + lease)))
  }

  // A receipt key is written once; a second receipt under it must be equal.
  function ReceiptError(s: State, key: ReceiptKey, receipt: Receipt): Option<Error> {
    if key == OtherReceipt("") then Some(Validation)
    else if key in s.receipts && s.receipts[key] != receipt then Some(Conflict)
    else None
  }

  function CommitStep(s: State, id: StepId, worker: Worker, output: Output, receipt: Option<(ReceiptKey, Json)>,
                      now: int): Decision {
    var e := LeaseError(s, id, worker, {Executing}, now);
    if e.Some? then
      Refuse(e.value)
    else
      var done := s.steps[id].(status := Committed, output := Some(output), owner := None, expiresAt := None);
      if receipt.None? then
        Commit(WriteStep(id, done, None, StepCommittedEvent(worker)))
      else
        var stored := Receipt(id.run, id, receipt.value.1);
        var clash := ReceiptError(s, receipt.value.0, stored);
        if clash.Some? then Refuse(clash.value)
        else Commit(WriteStep(id, done, Some((receipt.value.0, stored)), StepCommittedEvent(worker)))
  }

  // fail_step and mark_uncertain: give up a live lease with a verdict.
  function FinishOwnedStep(s: State, id: StepId, worker: Worker, target: StepStatus, now: int): Decision
    requires target == Failed || target == Uncertain
  {
    var e := LeaseError(s, id, worker, {Leased, Executing}, now);
    if e.Some? then Refuse(e.value)
    else Commit(WriteStep(id, s.steps[id].(status := target, owner := None, expiresAt := None), None,
                          if target == Failed then StepFailedEvent(worker) else StepUncertainEvent(worker)))
  }

  function CancelStep(s: State, id: StepId, worker: Option<Worker>, now: int): Decision {
    if id !in s.steps then
      Refuse(NotFound)
    else
      var row := s.steps[id];
      if Terminal(row.status) then
        Refuse(InvalidTransition)
      else if Held(row.status) && worker.None? then
        Refuse(NotOwner)
      else
        var e := if Held(row.status) then OwnerError(row, worker.value, now) else None;
        if e.Some? then Refuse(e.value)
        else Commit(WriteStep(id, row.(status := Cancelled, owner := None, expiresAt := None), None, StepCancelledEvent(row.status)))
  }

  predicate Expired(row: StepRow, now: int) {
    Held(row.status) && row.expiresAt.Some? && row.expiresAt.value <= now
  }

  function Reclaimed(id: StepId): StepStatus {
    if Retryable(id.safety) then Ready else Uncertain
  }

  function ReclaimOne(s: State, id: StepId, now: int): Write {
    if id in s.steps && Expired(s.steps[id], now) then
      var row := s.steps[id];
      WriteStep(id, row.(status := Reclaimed(id), owner := None, expiresAt := None), None,
                LeaseExpiredEvent(row.status, Reclaimed(id)))
    else
      Nothing
  }

  // One transaction recovers every selected row in turn.
  function ReclaimExpiredLeases(s: State, rows: seq<StepId>, now: int): State {
    if rows == [] then s
    else
      var prior := ReclaimExpiredLeases(s, rows[..|rows| - 1], now);
      Perform(prior, ReclaimOne(prior, rows[|rows| - 1], now))
  }

  function RecordReceipt(s: State, id: StepId, key: ReceiptKey, payload: Json): Decision {
    if id !in s.steps then
      Refuse(NotFound)
    else
      var receipt := Receipt(id.run, id, payload);
      var clash := ReceiptError(s, key, receipt);
      if clash.Some? then Refuse(clash.value)
      else if key in s.receipts then Commit(Nothing)
      else Commit(InsertReceipt(key, receipt))
  }

  function RequestApproval(s: State, approval: string, run: RunId, subject: Option<StepId>, kind: string,
                           now: int): Decision {
    var e := SubjectError(s, run, subject);
    if kind == "" then Refuse(Validation)
    else if e.Some? then Refuse(e.value)
    else if approval in s.approvals then Refuse(Conflict)
    else Commit(WriteApproval(approval, Approval(run, subject, kind, Pending, "", now), ApprovalRequestedEvent(approval, kind)))
  }

  function DecideApproval(s: State, approval: string, decision: ApprovalStatus, decidedBy: string): Decision {
    if decision == Pending || decidedBy == "" then
      Refuse(Validation)
    else if approval !in s.approvals then
      Refuse(NotFound)
    else
      var row := s.approvals[approval];
      if row.status != Pending then
        if row.status == decision && row.decidedBy == decidedBy then Commit(Nothing) else Refuse(InvalidTransition)
      else
        Commit(WriteApproval(approval, row.(status := decision, decidedBy := decidedBy), ApprovalDecidedEvent(approval, decision)))
  }

  function StartProviderCall(s: State, providerCall: string, run: RunId, subject: Option<StepId>): Decision {
    if run !in s.runs then Refuse(NotFound)
    else if providerCall in s.calls then Refuse(Conflict)
    else Commit(WriteCall(providerCall, ProviderCall(run, subject, Started), ProviderStartedEvent(providerCall)))
  }

  function CompleteProviderCall(s: State, providerCall: string, status: CallStatus): Decision {
    if status == Started then Refuse(Validation)
    else if providerCall !in s.calls then Refuse(NotFound)
    else if s.calls[providerCall].status != Started then Refuse(InvalidTransition)
    else Commit(WriteCall(providerCall, s.calls[providerCall].(status := status), ProviderFinishedEvent(providerCall, status)))
  }

  predicate Fits(row: RunRow, amount: Amounts, r: Resource) {
    var limit := row.identity.limits.Get(r);
    limit.Some? ==> row.reserved.Get(r) + row.used.Get(r) + amount.Get(r) <= limit.value
  }

  function ReserveBudget(s: State, reservation: string, run: RunId, amount: Amounts): Decision {
    if !amount.NonNegative() then
      Refuse(Validation)
    else if reservation in s.reservations then
      if s.reservations[reservation].run == run && s.reservations[reservation].amount == amount then Commit(Nothing)
      else Refuse(Conflict)
    else if run !in s.runs then
      Refuse(NotFound)
    else
      var row := s.runs[run];
      if !(Fits(row, amount, Calls) && Fits(row, amount, Tokens) && Fits(row, amount, MicroUsd) && Fits(row, amount, WallMicros)) then
        Refuse(BudgetExceeded)
      else
        Commit(WriteBudget(run, row.(reserved := row.reserved.Plus(amount)),
                           reservation, Reservation(run, amount, None), BudgetReservedEvent(reservation, amount)))
  }

  function SettleBudget(s: State, reservation: string, run: RunId, actual: Amounts): Decision {
    if !actual.NonNegative() then
      Refuse(Validation)
    else if reservation !in s.reservations then
      Refuse(NotFound)
    else
      var held := s.reservations[reservation];
      if held.run != run then
        Refuse(Validation)
      else if held.actual.Some? then
        if held.actual.value == actual then Commit(Nothing) else Refuse(Conflict)
      else if run !in s.runs then
        Refuse(NotFound)
      else
        var row := s.runs[run];
        Commit(WriteBudget(run, row.(reserved := row.reserved.Minus(held.amount), used := row.used.Plus(actual)),
                           reservation, held.(actual := Some(actual)), BudgetSettledEvent(reservation, actual)))
  }

  // --- runs of the journal ---

  datatype Op =
    | CreateRunOp(run: RunId, identity: RunIdentity, key: Option<string>)
    | MarkRunStatusOp(run: RunId, target: RunStatus)
    | AppendEventOp(run: RunId, subject: Option<StepId>, body: EventBody)
    | CreateStepOp(id: StepId, now: int)
    | ClaimOp(worker: Worker, lease: int, scope: Option<RunId>, now: int, pick: Option<StepId>)
    | MarkExecutingOp(id: StepId, worker: Worker, now: int)
    | HeartbeatOp(id: StepId, worker: Worker, lease: int, now: int)
    | CommitOp(id: StepId, worker: Worker, output: Output, receipt: Option<(ReceiptKey, Json)>, now: int)
    | FinishOp(id: StepId, worker: Worker, verdict: StepStatus, now: int)
    | CancelOp(id: StepId, canceller: Option<Worker>, now: int)
    | ReclaimOp(rows: seq<StepId>, now: int)
    | RecordReceiptOp(id: StepId, receiptKey: ReceiptKey, payload: Json)
    | RequestApprovalOp(approval: string, run: RunId, subject: Option<StepId>, kind: string, now: int)
    | DecideApprovalOp(approval: string, decision: ApprovalStatus, decidedBy: string)
    | StartCallOp(providerCall: string, run: RunId, subject: Option<StepId>)
    | CompleteCallOp(providerCall: string, callStatus: CallStatus)
    | ReserveOp(reservation: string, run: RunId, amount: Amounts)
    | SettleOp(reservation: string, run: RunId, amount: Amounts)

  // The operations that write step rows.
  predicate StepOp(op: Op) {
    op.CreateStepOp? || op.ClaimOp? || op.MarkExecutingOp? || op.HeartbeatOp? || op.CommitOp? || op.FinishOp? || op.CancelOp?
  }

  // What the operation's own types and its query guarantee about its arguments.
  predicate Admissible(s: State, op: Op) {
    match op
    case ClaimOp(_, _, scope, _, pick) => FirstReady(s, scope, pick)
    case FinishOp(_, _, verdict, _) => verdict == Failed || verdict == Uncertain
    case _ => true
  }

  function Decide(s: State, op: Op): Decision
    requires Admissible(s, op) && !op.ReclaimOp?
  {
    match op
    case CreateRunOp(run, identity, key) => CreateRun(s, run, identity, key)
    case MarkRunStatusOp(run, target) => MarkRunStatus(s, run, target)
    case AppendEventOp(run, subject, body) => AppendEvent(s, run, subject, body)
    case CreateStepOp(id, now) => CreateStep(s, id, now)
    case ClaimOp(worker, lease, scope, now, pick) => ClaimReadyStep(s, worker, lease, scope, now, pick)
    case MarkExecutingOp(id, worker, now) => MarkExecuting(s, id, worker, now)
    case HeartbeatOp(id, worker, lease, now) => Heartbeat(s, id, worker, lease, now)
    case CommitOp(id, worker, output, receipt, now) => CommitStep(s, id, worker, output, receipt, now)
    case FinishOp(id, worker, verdict, now) => FinishOwnedStep(s, id, worker, verdict, now)
    case CancelOp(id, canceller, now) => CancelStep(s, id, canceller, now)
    case RecordReceiptOp(id, key, payload) => RecordReceipt(s, id, key, payload)
    case RequestApprovalOp(approval, run, subject, kind, now) => RequestApproval(s, approval, run, subject, kind, now)
    case DecideApprovalOp(approval, decision, decidedBy) => DecideApproval(s, approval, decision, decidedBy)
    case StartCallOp(providerCall, run, subject) => StartProviderCall(s, providerCall, run, subject)
    case CompleteCallOp(providerCall, status) => CompleteProviderCall(s, providerCall, status)
    case ReserveOp(reservation, run, amount) => ReserveBudget(s, reservation, run, amount)
    case SettleOp(reservation, run, amount) => SettleBudget(s, reservation, run, amount)
  }

  // What an operation writes; a refused one writes nothing.
  function Written(s: State, op: Op): Write
    requires !op.ReclaimOp?
  {
    if Admissible(s, op) && Decide(s, op).Commit? then Decide(s, op).write else Nothing
  }

  function Next(s: State, op: Op): State {
    if op.ReclaimOp? then ReclaimExpiredLeases(s, op.rows, op.now) else Perform(s, Written(s, op))
  }

  function Exec(s: State, ops: seq<Op>): State {
    if ops == [] then s else Next(Exec(s, ops[..|ops| - 1]), ops[|ops| - 1])
  }
}
