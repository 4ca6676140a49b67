/**
 One claimed run of a scheduled job: its lease, its outcome, and the delivery of
 its result.
 */
module JobRuns {
  import opened Options

  datatype RunStatus = Claimed | Running | Succeeded | Failed | Interrupted | Cancelled

  datatype Delivery = NotRequested | Pending | Delivered | DeliveryFailed | Suppressed

  datatype JobRun = JobRun(
    status: RunStatus, attempt: nat, owner: Option<string>, expiresAt: Option<int>,
    cancelRequested: bool, delivery: Delivery, delivers: bool)

  datatype Error = NotFound | Conflict | Ownership | Validation | NoOccurrence

  datatype RunOp =
    | MarkRunning(owner: string, now: int)
    | Heartbeat(owner: string, lease: int, now: int)
    | RequestCancel
    | Cancel(canceller: Option<string>)
    | Complete(owner: string, outcome: RunStatus, now: int)
    | RecordDelivery(result: Delivery)
    | Recover(now: int)
    | Retry(owner: string, lease: int, approved: bool, now: int)
    | JobCancelled

  datatype Verdict = Stored(row: JobRun) | Refused(error: Error)

  predicate Active(status: RunStatus) {
    status == Claimed || status == Running
  }

  predicate Unsuccessful(status: RunStatus) {
    status == Failed || status == Interrupted || status == Cancelled
  }

  function Wanted(delivers: bool): Delivery {
    if delivers then Pending else NotRequested
  }

  function NewRun(owner: string, expiry: int, delivers: bool): JobRun {
    JobRun(Claimed, 1, Some(owner), Some(expiry), false, Wanted(delivers), delivers)
  }

  function Suppress(delivery: Delivery): Delivery {
    if delivery == Pending then Suppressed else delivery
  }

  function Release(row: JobRun, status: RunStatus): JobRun {
    row.(status := status, owner := None, expiresAt := None)
  }

  // The worker must hold the lease, and the lease must not have expired.
  predicate HoldsLease(row: JobRun, owner: string, now: int) {
    row.owner == Some(owner) && row.expiresAt.Some? && row.expiresAt.value > now
  }

  // Arguments that are refused before the row is looked at.
  predicate BadArguments(op: RunOp) {
    match op
    case Heartbeat(_, lease, _) => lease <= 0
    case Complete(_, outcome, _) => outcome !in {Succeeded, Failed, Cancelled}
    case RecordDelivery(result) => result !in {Delivered, DeliveryFailed, Suppressed}
    case Retry(owner, lease, approved, _) => !approved || lease <= 0 || owner == ""
    case _ => false
  }

  function Apply(row: JobRun, op: RunOp): Verdict {
    if BadArguments(op) then Refused(Validation) else
    match op
    case MarkRunning(owner, now) =>
      if row.status != Claimed then Refused(Conflict)
      else if !HoldsLease(row, owner, now) then Refused(Ownership)
      else if row.cancelRequested then Stored(Release(row, Cancelled).(delivery := Suppress(row.delivery)))
      else Stored(row.(status := Running))
    case Heartbeat(owner, lease, now) =>
      if !Active(row.status) then Refused(Conflict)
      else if !HoldsLease(row, owner, now) then Refused(Ownership)
      else Stored(row.(expiresAt := Some(now + lease)))
    case RequestCancel =>
      if Unsuccessful(row.status) then Stored(row)
      else Stored(row.(cancelRequested := true, delivery := if row.status == Succeeded then Suppress(row.delivery) else row.delivery))
    case Cancel(canceller) =>
      if !Active(row.status) then Stored(row)
      else if canceller.Some? && row.owner != canceller then Refused(Ownership)
      else Stored(Release(row, Cancelled).(cancelRequested := true, delivery := Suppress(row.delivery)))
    case Complete(owner, outcome, now) =>
      if !Active(row.status) then Refused(Conflict)
      else if !HoldsLease(row, owner, now) then Refused(Ownership)
      else
        var effective := if row.cancelRequested then Cancelled else outcome;
        Stored(Release(row, effective).(delivery := if effective == Cancelled then Suppress(row.delivery) else row.delivery))
    case RecordDelivery(result) =>
      if row.status != Succeeded then Refused(Conflict)
      else if row.delivery != Pending then Stored(row)
      else Stored(row.(delivery := result))
    case Recover(now) =>
      if Active(row.status) && row.expiresAt.Some? && row.expiresAt.value <= now then Stored(Release(row, Interrupted)) else Stored(row)
    case Retry(owner, lease, _, now) =>
      if !Unsuccessful(row.status) then Refused(Conflict)
      else Stored(NewRun(owner, now + lease, row.delivers).(attempt := row.attempt + 1))
    case JobCancelled =>
      if Active(row.status) then Stored(row.(cancelRequested := true))
      else if row.status == Succeeded && row.delivery == Pending then Stored(row.(cancelRequested := true, delivery := Suppressed))
      else Stored(row)
  }

  function Next(row: JobRun, op: RunOp): JobRun {
    if Apply(row, op).Stored? then Apply(row, op).row else row
  }

  function Run(row: JobRun, ops: seq<RunOp>): JobRun {
    if ops == [] then row else Next(Run(row, ops[..|ops| - 1]), ops[|ops| - 1])
  }

  // --- over every history of a run ---

  predicate RowInv(row: JobRun) {
    && (row.owner.Some? <==> Active(row.status)) && (row.expiresAt.Some? <==> Active(row.status))
    && (row.delivery == Delivered || row.delivery == DeliveryFailed ==> row.status == Succeeded)
    && (row.delivery == NotRequested <==> !row.delivers)
    && (row.status == Cancelled ==> row.delivery != Pending)
  }

  // Within one attempt an outcome is final, a delivery leaves the pending state
  // at most once, and a requested cancellation is never answered by success.
  predicate Evolves(before: JobRun, after: JobRun) {
    && before.attempt <= after.attempt && before.delivers == after.delivers
    && (before.status == Succeeded ==> after.status == Succeeded && after.attempt == before.attempt)
    && (before.attempt == after.attempt ==>
          && (!Active(before.status) ==> after.status == before.status)
          && (before.status == Running ==> after.status != Claimed)
          && (before.delivery != Pending ==> after.delivery == before.delivery)
          && (before.cancelRequested ==> after.cancelRequested)
          && (Active(before.status) && before.cancelRequested ==> after.status != Succeeded && after.status != Failed))
  }

  lemma NextEvolves(row: JobRun, op: RunOp)
    requires RowInv(row)
    ensures RowInv(Next(row, op)) && Evolves(row, Next(row, op))
  {
  }

  // The approved retries that were accepted.
  function Retries(row: JobRun, ops: seq<RunOp>): nat {
    if ops == [] then 0
    else
      var op := ops[|ops| - 1];
      Retries(row, ops[..|ops| - 1]) + if op.Retry? && Apply(Run(row, ops[..|ops| - 1]), op).Stored? then 1 else 0
  }

  /** Whatever happens to a run, in any order: a lease is held exactly while it is
      active, its outcome is final until an approved retry, success is final for
      ever, and every further attempt was approved. */
  lemma {:induction false} RunHistory(row: JobRun, ops: seq<RunOp>)
    requires RowInv(row)
    ensures RowInv(Run(row, ops)) && Evolves(row, Run(row, ops))
    ensures Run(row, ops).attempt == row.attempt + Retries(row, ops)
  {
    if ops != [] {
      var shorter := ops[..|ops| - 1];
      RunHistory(row, shorter);
      NextEvolves(Run(row, shorter), ops[|ops| - 1]);
      AttemptsCount(Run(row, shorter), ops[|ops| - 1]);
      EvolvesTransitive(row, Run(row, shorter), Run(row, ops));
    }
  }

  /** Success is reported only under a live lease that nobody asked to cancel. */
  lemma SuccessNeedsLease(row: JobRun, op: RunOp)
    requires row.status != Succeeded && Next(row, op).status == Succeeded
    ensures op.Complete? && op.outcome == Succeeded && HoldsLease(row, op.owner, op.now) && Active(row.status)
    ensures !row.cancelRequested
  {
  }

  lemma AttemptsCount(row: JobRun, op: RunOp)
    ensures Next(row, op).attempt == row.attempt + if op.Retry? && Apply(row, op).Stored? then 1 else 0
  {
  }

  lemma EvolvesTransitive(a: JobRun, b: JobRun, c: JobRun)
    requires Evolves(a, b) && Evolves(b, c)
    ensures Evolves(a, c)
  {
  }
}
