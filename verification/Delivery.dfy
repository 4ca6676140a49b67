/**
 One received event and one message to be sent, each as a row that moves through
 guarded updates.
 */
module Delivery {
  import opened Options
  import opened Chunking

  // --- messages to be sent ---

  datatype OutboxStatus = Pending | Sending | Sent | Unknown | SendFailed

  datatype OutboxRow = OutboxRow(
    status: OutboxStatus, owner: Option<string>, expiresAt: Option<int>, attempts: nat,
    message: OutboundMessage, createdAt: int)

  datatype OutboxOp =
    | ClaimOut(owner: string, expiry: int)
    | HeartbeatOut(owner: string, expiry: int, now: int)
    | FinishOut(owner: string, verdict: OutboxStatus, now: int)
    | RecoverOut(now: int)
    | ResolveOut(sent: bool, note: string)
    | RetryOut(note: string)

  predicate HoldsSend(row: OutboxRow, owner: string, now: int) {
    row.status == Sending && row.owner == Some(owner) && row.expiresAt.Some? && row.expiresAt.value > now
  }

  function NewOutbox(message: OutboundMessage, now: int): OutboxRow {
    OutboxRow(Pending, None, None, 0, message, now)
  }

  // The row after an operation; None when the guard of the update refuses it.
  function ApplyOut(row: OutboxRow, op: OutboxOp): Option<OutboxRow> {
    match op
    case ClaimOut(owner, expiry) =>
      if row.status == Pending then
        Some(row.(status := Sending, owner := Some(owner), expiresAt := Some(expiry), attempts := row.attempts + 1))
      else None
    case HeartbeatOut(owner, expiry, now) =>
      if HoldsSend(row, owner, now) then Some(row.(expiresAt := Some(expiry))) else None
    case FinishOut(owner, verdict, now) =>
      if HoldsSend(row, owner, now) && verdict in {Sent, Unknown, SendFailed} then
        Some(row.(status := verdict, owner := None, expiresAt := None))
      else None
    case RecoverOut(now) =>
      if row.status == Sending && row.expiresAt.Some? && row.expiresAt.value <= now then
        Some(row.(status := Unknown, owner := None, expiresAt := None))
      else Some(row)
    case ResolveOut(sent, note) =>
      if note != "" && row.status == Unknown then Some(row.(status := if sent then Sent else SendFailed)) else None
    case RetryOut(note) =>
      if note != "" && (row.status == Unknown || row.status == SendFailed) then Some(row.(status := Pending)) else None
  }

  function NextOut(row: OutboxRow, op: OutboxOp): OutboxRow {
    if ApplyOut(row, op).Some? then ApplyOut(row, op).value else row
  }

  function RunOut(row: OutboxRow, ops: seq<OutboxOp>): OutboxRow {
    if ops == [] then row else NextOut(RunOut(row, ops[..|ops| - 1]), ops[|ops| - 1])
  }

  // The retries an operator asked for and got.
  function RetriesOut(row: OutboxRow, ops: seq<OutboxOp>): nat {
    if ops == [] then 0
    else
      var op := ops[|ops| - 1];
      RetriesOut(row, ops[..|ops| - 1]) + if op.RetryOut? && ApplyOut(RunOut(row, ops[..|ops| - 1]), op).Some? then 1 else 0
  }

  predicate OutboxInv(row: OutboxRow) {
    (row.owner.Some? <==> row.status == Sending) && (row.expiresAt.Some? <==> row.status == Sending)
  }

  predicate OutboxEvolves(before: OutboxRow, after: OutboxRow) {
    && after.message == before.message && after.createdAt == before.createdAt && before.attempts <= after.attempts
    && (before.status == Sent ==> after == before)
  }

  // The claims a row has had, and the one it still waits for.
  function Promised(row: OutboxRow): nat {
    row.attempts + if row.status == Pending then 1 else 0
  }

  lemma NextOutKeeps(row: OutboxRow, op: OutboxOp)
    requires OutboxInv(row)
    ensures OutboxInv(NextOut(row, op)) && OutboxEvolves(row, NextOut(row, op))
    ensures Promised(NextOut(row, op)) == Promised(row) + if op.RetryOut? && ApplyOut(row, op).Some? then 1 else 0
  {
  }

  /** Sending is never retried automatically: over every history of a message, it
      is claimed exactly once plus once for each retry an operator asked for, not
      counting a claim it still waits for; and what was sent stays sent. */
  lemma {:induction false} OutboxHistory(message: OutboundMessage, now: int, ops: seq<OutboxOp>)
    ensures var row := RunOut(NewOutbox(message, now), ops);
            && OutboxInv(row) && row.message == message
            && Promised(row) == 1 + RetriesOut(NewOutbox(message, now), ops)
            && row.attempts <= 1 + RetriesOut(NewOutbox(message, now), ops)
  {
    if ops != [] {
      OutboxHistory(message, now, ops[..|ops| - 1]);
      NextOutKeeps(RunOut(NewOutbox(message, now), ops[..|ops| - 1]), ops[|ops| - 1]);
    }
  }

  /** A claim gives the message to one worker for a time: until then that worker, and no
      other, records an outcome or extends the time; from then on nobody does, and
      recovery takes the outcome for unknown. */
  lemma ClaimedSend(row: OutboxRow, owner: string, expiry: int, other: string, later: int, verdict: OutboxStatus, now: int)
    ensures ApplyOut(row, ClaimOut(owner, expiry)).Some? <==> row.status == Pending
    ensures row.status == Pending ==>
              var held := NextOut(row, ClaimOut(owner, expiry));
              && held == OutboxRow(Sending, Some(owner), Some(expiry), row.attempts + 1, row.message, row.createdAt)
              && (ApplyOut(held, FinishOut(other, verdict, now)).Some? <==> other == owner && now < expiry && verdict in {Sent, Unknown, SendFailed})
              && (ApplyOut(held, HeartbeatOut(other, later, now)).Some? <==> other == owner && now < expiry)
              && NextOut(held, RecoverOut(now)).status == (if now < expiry then Sending else Unknown)
    ensures row.status != Sending ==>
              && ApplyOut(row, FinishOut(other, verdict, now)).None? && ApplyOut(row, HeartbeatOut(other, later, now)).None?
              && NextOut(row, RecoverOut(now)) == row
  {
  }

  lemma {:induction false} SentIsFinal(row: OutboxRow, ops: seq<OutboxOp>)
    requires OutboxInv(row)
    ensures OutboxInv(RunOut(row, ops)) && OutboxEvolves(row, RunOut(row, ops))
  {
    if ops != [] {
      SentIsFinal(row, ops[..|ops| - 1]);
      NextOutKeeps(RunOut(row, ops[..|ops| - 1]), ops[|ops| - 1]);
    }
  }

  // --- received events ---

  datatype InboxStatus = Received | Processing | InboxCompleted | InboxFailed

  datatype InboxRow = InboxRow(
    status: InboxStatus, owner: Option<string>, expiresAt: Option<int>, attempts: nat,
    downstream: Option<string>, run: Option<string>, outboxKey: Option<string>, createdAt: int)

  datatype InboxOp =
    | ClaimIn(owner: string, expiry: int)
    | HeartbeatIn(owner: string, expiry: int, now: int)
    | LinkIn(downstream: string, runId: string, now: int)
    | FinishIn(owner: string, verdict: InboxStatus, run: Option<string>, outboxKey: Option<string>, now: int)
    | RecoverIn(now: int)

  predicate HoldsEvent(row: InboxRow, owner: string, now: int) {
    row.status == Processing && row.owner == Some(owner) && row.expiresAt.Some? && row.expiresAt.value > now
  }

  // An event that is not authorized is stored as completed, without its content.
  function NewInbox(allowed: bool, downstream: Option<string>, now: int): InboxRow {
    InboxRow(if allowed then Received else InboxCompleted, None, None, 0, if allowed then downstream else None, None, None, now)
  }

  function Coalesce(value: Option<string>, default: Option<string>): Option<string> {
    if value.Some? then value else default
  }

  function ApplyIn(row: InboxRow, op: InboxOp): Option<InboxRow> {
    match op
    case ClaimIn(owner, expiry) =>
      if row.status == Received then
        Some(row.(status := Processing, owner := Some(owner), expiresAt := Some(expiry), attempts := row.attempts + 1))
      else None
    case HeartbeatIn(owner, expiry, now) =>
      if HoldsEvent(row, owner, now) then Some(row.(expiresAt := Some(expiry))) else None
    case LinkIn(downstream, runId, now) =>
      if row.downstream == Some(downstream) && row.status == Processing && row.expiresAt.Some? && row.expiresAt.value > now
         && runId != "" && (row.run.None? || row.run == Some(runId)) then
        Some(row.(run := Some(runId)))
      else None
    case FinishIn(owner, verdict, run, outboxKey, now) =>
      if HoldsEvent(row, owner, now) && (verdict == InboxCompleted || verdict == InboxFailed) then
        Some(row.(status := verdict, owner := None, expiresAt := None,
                  run := Coalesce(run, row.run), outboxKey := Coalesce(outboxKey, row.outboxKey)))
      else None
    case RecoverIn(now) =>
      if row.status == Processing && row.expiresAt.Some? && row.expiresAt.value <= now then
        Some(row.(status := if row.downstream.Some? then Received else InboxFailed, owner := None, expiresAt := None))
      else Some(row)
  }

  function NextIn(row: InboxRow, op: InboxOp): InboxRow {
    if ApplyIn(row, op).Some? then ApplyIn(row, op).value else row
  }

  function RunIn(row: InboxRow, ops: seq<InboxOp>): InboxRow {
    if ops == [] then row else NextIn(RunIn(row, ops[..|ops| - 1]), ops[|ops| - 1])
  }

  // The handlers whose outcome was accepted.
  function Finishes(row: InboxRow, ops: seq<InboxOp>): nat {
    if ops == [] then 0
    else
      var op := ops[|ops| - 1];
      Finishes(row, ops[..|ops| - 1]) + if op.FinishIn? && ApplyIn(RunIn(row, ops[..|ops| - 1]), op).Some? then 1 else 0
  }

  predicate Finished(status: InboxStatus) {
    status == InboxCompleted || status == InboxFailed
  }

  predicate InboxInv(row: InboxRow) {
    (row.owner.Some? <==> row.status == Processing) && (row.expiresAt.Some? <==> row.status == Processing)
  }

  predicate InboxEvolves(before: InboxRow, after: InboxRow) {
    && after.downstream == before.downstream && after.createdAt == before.createdAt && before.attempts <= after.attempts
    && (Finished(before.status) ==> after == before)
  }

  lemma NextInKeeps(row: InboxRow, op: InboxOp)
    requires InboxInv(row)
    ensures InboxInv(NextIn(row, op)) && InboxEvolves(row, NextIn(row, op))
    ensures op.FinishIn? && ApplyIn(row, op).Some? ==> !Finished(row.status) && NextIn(row, op).status == op.verdict
  {
  }

  /** A claim gives the event to one worker for a time: until then that worker, and no
      other, finishes it or extends the time; from then on nobody does, and recovery
      has it wait again if its run can be found by a downstream key, or fail.  Only an
      event that is allowed is ever claimed. */
  lemma ClaimedEvent(row: InboxRow, owner: string, expiry: int, other: string, later: int, verdict: InboxStatus, run: string, now: int)
    ensures ApplyIn(row, ClaimIn(owner, expiry)).Some? <==> row.status == Received
    ensures row.status == Received ==>
              var held := NextIn(row, ClaimIn(owner, expiry));
              && held == row.(status := Processing, owner := Some(owner), expiresAt := Some(expiry), attempts := row.attempts + 1)
              && (ApplyIn(held, FinishIn(other, verdict, None, None, now)).Some? <==>
                    other == owner && now < expiry && verdict in {InboxCompleted, InboxFailed})
              && (ApplyIn(held, HeartbeatIn(other, later, now)).Some? <==> other == owner && now < expiry)
              && NextIn(held, RecoverIn(now)).status ==
                   (if now < expiry then Processing else if row.downstream.Some? then Received else InboxFailed)
              && (ApplyIn(held, LinkIn(other, run, now)).Some? <==>
                    row.downstream == Some(other) && now < expiry && run != "" && row.run in {None, Some(run)})
    ensures row.status != Processing ==>
              && ApplyIn(row, FinishIn(other, verdict, None, None, now)).None? && ApplyIn(row, HeartbeatIn(other, later, now)).None?
              && ApplyIn(row, LinkIn(other, run, now)).None? && NextIn(row, RecoverIn(now)) == row
    ensures NewInbox(true, Some(other), now).status == Received && NewInbox(true, Some(other), now).downstream == Some(other)
    ensures NewInbox(false, Some(other), now).status == InboxCompleted && NewInbox(false, Some(other), now).downstream.None?
  {
  }

  /** However often a lease expires and the handler runs again, at most one outcome
      is accepted, and the row never changes after it. */
  lemma {:induction false} InboxHistory(row: InboxRow, ops: seq<InboxOp>)
    requires InboxInv(row)
    ensures InboxInv(RunIn(row, ops)) && InboxEvolves(row, RunIn(row, ops))
    ensures Finishes(row, ops) <= 1 && (Finishes(row, ops) == 1 ==> Finished(RunIn(row, ops).status))
  {
    if ops != [] {
      InboxHistory(row, ops[..|ops| - 1]);
      NextInKeeps(RunIn(row, ops[..|ops| - 1]), ops[|ops| - 1]);
    }
  }
}
