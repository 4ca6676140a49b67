/**
 The journal as an object: every method runs one transaction over the tables,
 checking its guards before it touches them.
 */
module JournalStore {
  import opened Options
  import opened JournalTypes
  import opened Texts
  import JournalSpec

  class Journal {
    var runs: map<RunId, RunRow>
    var externalKeys: map<string, RunId>
    var steps: map<StepId, StepRow>
    var receipts: map<ReceiptKey, Receipt>
    var approvals: map<string, Approval>
    var calls: map<string, ProviderCall>
    var reservations: map<string, Reservation>
    var events: seq<Event>

    function Tables(): State
      reads this
    {
      State(runs, externalKeys, steps, receipts, approvals, calls, reservations, events)
    }

    constructor ()
      ensures Tables() == EMPTY
    {
      runs, externalKeys, steps, receipts := map[], map[], map[], map[];
      approvals, calls, reservations, events := map[], map[], map[], [];
    }

    method Append(run: RunId, subject: Option<StepId>, body: EventBody)
      modifies this`events
      ensures events == old(events) + [Event(run, subject, body)]
    {
      events := events + [Event(run, subject, body)];
    }

    method CreateRun(run: RunId, identity: RunIdentity, key: Option<string>) returns (error: Option<Error>)
      modifies this
      ensures var d := JournalSpec.CreateRun(old(Tables()), run, identity, key);
              error == JournalSpec.ErrorOf(d) && Tables() == JournalSpec.After(old(Tables()), d)
    {
      if identity.mode == "" || (key.Some? && Blank(key.value)) { return Some(Validation); }
      if key.Some? && key.value in externalKeys {
        var existing := externalKeys[key.value];
        if existing in runs && runs[existing].identity == identity { return None; }
        return Some(Conflict);
      }
      if run in runs { return Some(Conflict); }
      if identity.parent.Some? && identity.parent.value !in runs { return Some(NotFound); }
      runs := runs[run := RunRow(identity, RunCreated, NOTHING, NOTHING)];
      if key.Some? { externalKeys := externalKeys[key.value := run]; }
      Append(run, None, RunCreatedEvent(identity.mode, identity.parent));
      return None;
    }

    method MarkRunStatus(run: RunId, target: RunStatus) returns (error: Option<Error>)
      modifies this
      ensures var d := JournalSpec.MarkRunStatus(old(Tables()), run, target);
              error == JournalSpec.ErrorOf(d) && Tables() == JournalSpec.After(old(Tables()), d)
    {
      if run !in runs { return Some(NotFound); }
      var current := runs[run].status;
      if current == target { return None; }
      if !JournalSpec.RunTransition(current, target) { return Some(InvalidTransition); }
      runs := runs[run := runs[run].(status := target)];
      Append(run, None, StatusChangedEvent(current, target));
      return None;
    }

    method AppendEvent(run: RunId, subject: Option<StepId>, body: EventBody) returns (error: Option<Error>)
      modifies this
      ensures var d := JournalSpec.AppendEvent(old(Tables()), run, subject, body);
              error == JournalSpec.ErrorOf(d) && Tables() == JournalSpec.After(old(Tables()), d)
    {
      if body.UserEvent? && body.topic == "" { return Some(Validation); }
      if run !in runs { return Some(NotFound); }
      if subject.Some? {
        if subject.value !in steps { return Some(NotFound); }
        if subject.value.run != run { return Some(Validation); }
      }
      Append(run, subject, body);
      return None;
    }

    method CreateStep(id: StepId, now: int) returns (error: Option<Error>)
      modifies this
      ensures var d := JournalSpec.CreateStep(old(Tables()), id, now);
              error == JournalSpec.ErrorOf(d) && Tables() == JournalSpec.After(old(Tables()), d)
    {
      if id.name == "" || (id.input.OtherInput? && id.input.kind == "") { return Some(Validation); }
      if id.run !in runs { return Some(NotFound); }
      if id !in steps {
        steps := steps[id := StepRow(Ready, None, None, 0, None, now)];
        Append(id.run, Some(id), StepCreatedEvent);
      }
      return None;
    }

    // The ordered query with limit one: a minimum over the claimable rows.
    method SelectReady(scope: Option<RunId>) returns (pick: Option<StepId>)
      ensures JournalSpec.FirstReady(Tables(), scope, pick)
    {
      pick := None;
      var todo := steps.Keys;
      while todo != {}
        invariant todo <= steps.Keys
        invariant pick.Some? ==> JournalSpec.Claimable(Tables(), scope, pick.value)
        invariant forall id <- steps.Keys - todo :: JournalSpec.Claimable(Tables(), scope, id) ==>
                    pick.Some? && JournalSpec.NotAfter(Tables(), pick.value, id)
        decreases |todo|
      {
        var id :| id in todo;
        todo := todo - {id};
        if JournalSpec.Claimable(Tables(), scope, id) && (pick.None? || !JournalSpec.NotAfter(Tables(), pick.value, id)) {
          pick := Some(id);
        }
      }
    }

    // All steps of a run in query order: the least remaining row, again and again.
    method ListSteps(run: RunId) returns (ids: seq<StepId>)
      ensures JournalSpec.IsListing(Tables(), run, ids)
    {
      ids := [];
      var todo := set id <- steps | id.run == run;
      while todo != {}
        invariant forall id :: id in ids || id in todo <==> id in steps && id.run == run
        invariant forall n | 0 <= n < |ids| :: ids[n] in steps && ids[n] !in todo
        invariant forall n | 0 <= n < |ids| :: forall id <- todo :: JournalSpec.NotAfter(Tables(), ids[n], id)
        invariant forall a, b | 0 <= a < b < |ids| :: ids[a] != ids[b] && JournalSpec.NotAfter(Tables(), ids[a], ids[b])
        decreases |todo|
      {
        var least := LeastStep(todo);
        todo := todo - {least};
        ids := ids + [least];
      }
    }

    method LeastStep(candidates: set<StepId>) returns (least: StepId)
      requires candidates != {} && candidates <= steps.Keys
      ensures least in candidates && forall id <- candidates :: JournalSpec.NotAfter(Tables(), least, id)
    {
      least :| least in candidates;
      var todo := candidates - {least};
      while todo != {}
        invariant todo <= candidates && least in candidates
        invariant forall id <- candidates - todo :: JournalSpec.NotAfter(Tables(), least, id)
        decreases |todo|
      {
        var id :| id in todo;
        todo := todo - {id};
        if !JournalSpec.NotAfter(Tables(), least, id) {
          assert forall x <- candidates - todo :: x == id || JournalSpec.NotAfter(Tables(), least, x);
          least := id;
        }
      }
    }

    method ListApprovals(run: RunId, subject: Option<StepId>) returns (ids: seq<string>)
      ensures JournalSpec.IsApprovalListing(Tables(), run, subject, ids)
    {
      ids := [];
      var todo := set a <- approvals | approvals[a].run == run && (subject.None? || approvals[a].step == subject);
      while todo != {}
        invariant forall a :: a in ids || a in todo <==>
                    a in approvals && approvals[a].run == run && (subject.None? || approvals[a].step == subject)
        invariant forall n | 0 <= n < |ids| :: ids[n] in approvals && ids[n] !in todo
        invariant forall n | 0 <= n < |ids| :: forall a <- todo :: approvals[ids[n]].createdAt <= approvals[a].createdAt
        invariant forall a, b | 0 <= a < b < |ids| :: ids[a] != ids[b] && approvals[ids[a]].createdAt <= approvals[ids[b]].createdAt
        decreases |todo|
      {
        var least := EarliestApproval(todo);
        todo := todo - {least};
        ids := ids + [least];
      }
    }

    method EarliestApproval(candidates: set<string>) returns (least: string)
      requires candidates != {} && candidates <= approvals.Keys
      ensures least in candidates && forall a <- candidates :: approvals[least].createdAt <= approvals[a].createdAt
    {
      least :| least in candidates;
      var todo := candidates - {least};
      while todo != {}
        invariant todo <= candidates && least in candidates
        invariant forall a <- candidates - todo :: approvals[least].createdAt <= approvals[a].createdAt
        decreases |todo|
      {
        var a :| a in todo;
        todo := todo - {a};
        if approvals[a].createdAt < approvals[least].createdAt { least := a; }
      }
    }

    method ClaimReadyStep(worker: Worker, lease: int, scope: Option<RunId>, now: int)
      returns (error: Option<Error>, claimed: Option<StepId>, ghost pick: Option<StepId>)
      modifies this
      ensures JournalSpec.FirstReady(old(Tables()), scope, pick)
      ensures var d := JournalSpec.ClaimReadyStep(old(Tables()), worker, lease, scope, now, pick);
              error == JournalSpec.ErrorOf(d) && Tables() == JournalSpec.After(old(Tables()), d)
      ensures claimed == if error.None? then pick else None
    {
      var first := SelectReady(scope);
      pick := first;
      if worker == "" || lease <= 0 { return Some(Validation), None, pick; }
      if scope.Some? && scope.value !in runs { return Some(NotFound), None, pick; }
      if first.None? { return None, None, pick; }
      var row := steps[first.value];
      steps := steps[first.value := row.(status := Leased, owner := Some(worker), expiresAt := Some(now + lease), attempts := row.attempts + 1)];
      Append(first.value.run, first, StepLeasedEvent(worker, now + lease, row.attempts + 1));
      return None, first, pick;
    }

    method CheckOwnerAndLease(row: StepRow, worker: Worker, now: int) returns (error: Option<Error>)
      ensures error == JournalSpec.OwnerError(row, worker, now)
    {
      if worker == "" { return Some(Validation); }
      if row.owner != Some(worker) { return Some(NotOwner); }
      if row.expiresAt.None? || row.expiresAt.value <= now { return Some(LeaseExpired); }
      return None;
    }

    method MarkExecuting(id: StepId, worker: Worker, now: int) returns (error: Option<Error>)
      modifies this
      ensures var d := JournalSpec.MarkExecuting(old(Tables()), id, worker, now);
              error == JournalSpec.ErrorOf(d) && Tables() == JournalSpec.After(old(Tables()), d)
    {
      if id !in steps { return Some(NotFound); }
      if steps[id].status != Leased { return Some(InvalidTransition); }
      error := CheckOwnerAndLease(steps[id], worker, now);
      if error.Some? { return; }
      steps := steps[id := steps[id].(status := Executing)];
      Append(id.run, Some(id), StepExecutingEvent(worker));
    }

    method Heartbeat(id: StepId, worker: Worker, lease: int, now: int) returns (error: Option<Error>)
      modifies this
      ensures var d := JournalSpec.Heartbeat(old(Tables()), id, worker, lease, now);
              error == JournalSpec.ErrorOf(d) && Tables() == JournalSpec.After(old(Tables()), d)
    {
      if lease <= 0 { return Some(Validation); }
      if id !in steps { return Some(NotFound); }
      if !JournalSpec.Held(steps[id].status) { return Some(InvalidTransition); }
      error := CheckOwnerAndLease(steps[id], worker, now);
      if error.Some? { return; }
      steps := steps[id := steps[id].(expiresAt := Some(now + lease))];
      Append(id.run, Some(id), StepHeartbeatEvent(worker, now + lease));
    }

    method CommitStep(id: StepId, worker: Worker, output: Output, receipt: Option<(ReceiptKey, Json)>, now: int)
      returns (error: Option<Error>)
      modifies this
      ensures var d := JournalSpec.CommitStep(old(Tables()), id, worker, output, receipt, now);
              error == JournalSpec.ErrorOf(d) && Tables() == JournalSpec.After(old(Tables()), d)
    {
      if id !in steps { return Some(NotFound); }
      if steps[id].status != Executing { return Some(InvalidTransition); }
      error := CheckOwnerAndLease(steps[id], worker, now);
      if error.Some? { return; }
      if receipt.Some? {
        var key, stored := receipt.value.0, Receipt(id.run, id, receipt.value.1);
        if key == OtherReceipt("") { return Some(Validation); }
        if key in receipts && receipts[key] != stored { return Some(Conflict); }
        receipts := receipts[key := stored];
      }
      steps := steps[id := steps[id].(status := Committed, output := Some(output), owner := None, expiresAt := None)];
      Append(id.run, Some(id), StepCommittedEvent(worker));
    }

    method FinishOwnedStep(id: StepId, worker: Worker, target: StepStatus, now: int) returns (error: Option<Error>)
      requires target == Failed || target == Uncertain
      modifies this
      ensures var d := JournalSpec.FinishOwnedStep(old(Tables()), id, worker, target, now);
              error == JournalSpec.ErrorOf(d) && Tables() == JournalSpec.After(old(Tables()), d)
    {
      if id !in steps { return Some(NotFound); }
      if !JournalSpec.Held(steps[id].status) { return Some(InvalidTransition); }
      error := CheckOwnerAndLease(steps[id], worker, now);
      if error.Some? { return; }
      steps := steps[id := steps[id].(status := target, owner := None, expiresAt := None)];
      Append(id.run, Some(id), if target == Failed then StepFailedEvent(worker) else StepUncertainEvent(worker));
    }

    method CancelStep(id: StepId, worker: Option<Worker>, now: int) returns (error: Option<Error>)
      modifies this
      ensures var d := JournalSpec.CancelStep(old(Tables()), id, worker, now);
              error == JournalSpec.ErrorOf(d) && Tables() == JournalSpec.After(old(Tables()), d)
    {
      if id !in steps { return Some(NotFound); }
      var row := steps[id];
      if JournalSpec.Terminal(row.status) { return Some(InvalidTransition); }
      if JournalSpec.Held(row.status) {
        if worker.None? { return Some(NotOwner); }
        error := CheckOwnerAndLease(row, worker.value, now);
        if error.Some? { return; }
      }
      steps := steps[id := row.(status := Cancelled, owner := None, expiresAt := None)];
      Append(id.run, Some(id), StepCancelledEvent(row.status));
      return None;
    }

    method ReclaimExpiredLeases(now: int) returns (reclaimed: seq<StepId>)
      modifies this
      ensures Tables() == JournalSpec.ReclaimExpiredLeases(old(Tables()), reclaimed, now)
      ensures forall id :: id in reclaimed <==> id in old(steps) && JournalSpec.Expired(old(steps[id]), now)
    {
      reclaimed := [];
      var todo := set id <- steps | JournalSpec.Expired(steps[id], now);
      while todo != {}
        invariant forall id :: id in todo || id in reclaimed <==> id in old(steps) && JournalSpec.Expired(old(steps[id]), now)
        invariant forall id <- todo :: id in steps && steps[id] == old(steps[id])
        invariant Tables() == JournalSpec.ReclaimExpiredLeases(old(Tables()), reclaimed, now)
        decreases |todo|
      {
        var id :| id in todo;
        todo := todo - {id};
        ghost var prior := Tables();
        var row := steps[id];
        var target := if JournalSpec.Retryable(id.safety) then Ready else Uncertain;
        steps := steps[id := row.(status := target, owner := None, expiresAt := None)];
        Append(id.run, Some(id), LeaseExpiredEvent(row.status, target));
        assert Tables() == JournalSpec.Perform(prior, JournalSpec.ReclaimOne(prior, id, now));
        assert (reclaimed + [id])[..|reclaimed|] == reclaimed;
        reclaimed := reclaimed + [id];
      }
    }

    method RecordReceipt(id: StepId, key: ReceiptKey, payload: Json) returns (error: Option<Error>)
      modifies this
      ensures var d := JournalSpec.RecordReceipt(old(Tables()), id, key, payload);
              error == JournalSpec.ErrorOf(d) && Tables() == JournalSpec.After(old(Tables()), d)
    {
      if id !in steps { return Some(NotFound); }
      if key == OtherReceipt("") { return Some(Validation); }
      var stored := Receipt(id.run, id, payload);
      if key in receipts {
        if receipts[key] != stored { return Some(Conflict); }
        return None;
      }
      receipts := receipts[key := stored];
      Append(id.run, Some(id), ReceiptRecordedEvent(key));
      return None;
    }

    method RequestApproval(approval: string, run: RunId, subject: Option<StepId>, kind: string, now: int)
      returns (error: Option<Error>)
      modifies this
      ensures var d := JournalSpec.RequestApproval(old(Tables()), approval, run, subject, kind, now);
              error == JournalSpec.ErrorOf(d) && Tables() == JournalSpec.After(old(Tables()), d)
    {
      if kind == "" { return Some(Validation); }
      if run !in runs { return Some(NotFound); }
      if subject.Some? {
        if subject.value !in steps { return Some(NotFound); }
        if subject.value.run != run { return Some(Validation); }
      }
      if approval in approvals { return Some(Conflict); }
      approvals := approvals[approval := Approval(run, subject, kind, Pending, "", now)];
      Append(run, subject, ApprovalRequestedEvent(approval, kind));
      return None;
    }

    method DecideApproval(approval: string, decision: ApprovalStatus, decidedBy: string) returns (error: Option<Error>)
      modifies this
      ensures var d := JournalSpec.DecideApproval(old(Tables()), approval, decision, decidedBy);
              error == JournalSpec.ErrorOf(d) && Tables() == JournalSpec.After(old(Tables()), d)
    {
      if decision == Pending || decidedBy == "" { return Some(Validation); }
      if approval !in approvals { return Some(NotFound); }
      var row := approvals[approval];
      if row.status != Pending {
        if row.status == decision && row.decidedBy == decidedBy { return None; }
        return Some(InvalidTransition);
      }
      approvals := approvals[approval := row.(status := decision, decidedBy := decidedBy)];
      Append(row.run, row.step, ApprovalDecidedEvent(approval, decision));
      return None;
    }

    method StartProviderCall(providerCall: string, run: RunId, subject: Option<StepId>) returns (error: Option<Error>)
      modifies this
      ensures var d := JournalSpec.StartProviderCall(old(Tables()), providerCall, run, subject);
              error == JournalSpec.ErrorOf(d) && Tables() == JournalSpec.After(old(Tables()), d)
    {
      if run !in runs { return Some(NotFound); }
      if providerCall in calls { return Some(Conflict); }
      calls := calls[providerCall := ProviderCall(run, subject, Started)];
      Append(run, subject, ProviderStartedEvent(providerCall));
      return None;
    }

    method CompleteProviderCall(providerCall: string, status: CallStatus) returns (error: Option<Error>)
      modifies this
      ensures var d := JournalSpec.CompleteProviderCall(old(Tables()), providerCall, status);
              error == JournalSpec.ErrorOf(d) && Tables() == JournalSpec.After(old(Tables()), d)
    {
      if status == Started { return Some(Validation); }
      if providerCall !in calls { return Some(NotFound); }
      var row := calls[providerCall];
      if row.status != Started { return Some(InvalidTransition); }
      calls := calls[providerCall := row.(status := status)];
      Append(row.run, row.step, ProviderFinishedEvent(providerCall, status));
      return None;
    }

    method ReserveBudget(reservation: string, run: RunId, amount: Amounts) returns (error: Option<Error>)
      modifies this
      ensures var d := JournalSpec.ReserveBudget(old(Tables()), reservation, run, amount);
              error == JournalSpec.ErrorOf(d) && Tables() == JournalSpec.After(old(Tables()), d)
    {
      if !amount.NonNegative() { return Some(Validation); }
      if reservation in reservations {
        var existing := reservations[reservation];
        if existing.run == run && existing.amount == amount { return None; }
        return Some(Conflict);
      }
      if run !in runs { return Some(NotFound); }
      var row := runs[run];
      var resources := [Calls, Tokens, MicroUsd, WallMicros];
      for i := 0 to 4
        invariant forall j | 0 <= j < i :: JournalSpec.Fits(row, amount, resources[j])
      {
        var limit := row.identity.limits.Get(resources[i]);
        var projected := row.reserved.Get(resources[i]) + row.used.Get(resources[i]) + amount.Get(resources[i]);
        if limit.Some? && projected > limit.value { return Some(BudgetExceeded); }
      }
      assert forall j | 0 <= j < 4 :: JournalSpec.Fits(row, amount, resources[j]);
      assert JournalSpec.Fits(row, amount, resources[0]) && JournalSpec.Fits(row, amount, resources[1])
          && JournalSpec.Fits(row, amount, resources[2]) && JournalSpec.Fits(row, amount, resources[3]);
      runs := runs[run := row.(reserved := row.reserved.Plus(amount))];
      reservations := reservations[reservation := Reservation(run, amount, None)];
      Append(run, None, BudgetReservedEvent(reservation, amount));
      return None;
    }

    method SettleBudget(reservation: string, run: RunId, actual: Amounts) returns (error: Option<Error>)
      modifies this
      ensures var d := JournalSpec.SettleBudget(old(Tables()), reservation, run, actual);
              error == JournalSpec.ErrorOf(d) && Tables() == JournalSpec.After(old(Tables()), d)
    {
      if !actual.NonNegative() { return Some(Validation); }
      if reservation !in reservations { return Some(NotFound); }
      var held := reservations[reservation];
      if held.run != run { return Some(Validation); }
      if held.actual.Some? {
        if held.actual.value != actual { return Some(Conflict); }
        return None;
      }
      if run !in runs { return Some(NotFound); }
      var row := runs[run];
      runs := runs[run := row.(reserved := row.reserved.Minus(held.amount), used := row.used.Plus(actual))];
      reservations := reservations[reservation := held.(actual := Some(actual))];
      Append(run, None, BudgetSettledEvent(reservation, actual));
      return None;
    }
  }
}
