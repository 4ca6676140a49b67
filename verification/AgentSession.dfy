/**
 The journal as one runtime sees it while it works on a run: before each of its
 transactions anything legal may happen, and every transaction it makes is
 itself legal.  The runtime may die after any of them.
 */
module AgentSession {
  import opened Options
  import opened JournalTypes
  import opened JournalSpec
  import opened JournalLeases
  import opened JournalStore
  import JournalHistory
  import JournalBudgets
  import opened AgentSpec
  import opened AgentInvariants
  import opened AgentSafety

  // A value, or the exception that ended the call.
  datatype Result<+T> = Ok(value: T) | Raised(error: Error) {
    predicate IsFailure() { Raised? }

    function PropagateFailure<U>(): Result<U>
      requires Raised?
    {
      Raised(error)
    }

    function Extract(): T
      requires Ok?
    {
      value
    }
  }

  datatype Reply = Answer(completion: Completion, microUsd: int) | ProviderFailure

  // A model attempt, and how much had happened when the conversation for it was
  // rebuilt and when the earlier attempts were read.
  datatype Asking = Asking(id: StepId, rebuilt: seq<Act>, listed: seq<Act>)

  // Why a runtime changes the status of its run.
  datatype Why =
    | Starting
    | Finished
    | IterationLimit
    | NoProgress(listing: seq<StepId>)
    | AttemptLimit(iteration: nat)
    | BudgetSpent
    | HandlerFailed(handler: StepId)
    | RejectedBy(approval: string)
    | Undecided(approval: string)
    | Unsettled(uncertain: StepId)
    | Busy(step: StepId)

  // A change of status, for a reason seen before it, or a decision asked for, each
  // with how much had happened when the runtime went about it.
  datatype Deed =
    | Marked(target: RunStatus, why: Why, seen: seq<Act>, at: seq<Act>)
    | Requested(subject: StepId, kind: string, at: seq<Act>)

  class Session {
    const reg: Registry
    const run: RunId
    const worker: Worker
    const lease: int
    const journal: Journal

    // Everything that happened since the database was created.
    ghost var acts: seq<Act>
    // The steps claimed through this session, and the handlers started.
    ghost var taken: seq<StepId>
    ghost var started: seq<StepId>
    // What those handlers returned.
    ghost var answers: seq<(StepId, Json)>
    // The model attempts created through this session, and what the provider was sent.
    ghost var asked: seq<Asking>
    ghost var sent: seq<(StepId, seq<Message>)>
    // The status changes and the decisions this session asked for.
    ghost var deeds: seq<Deed>
    // How many of its operations raised what the runtime does not handle.
    ghost var errors: nat

    constructor (reg: Registry, run: RunId, worker: Worker, lease: int, journal: Journal, ghost history: seq<Act>)
      requires Legal(reg, run, history) && Play(history).db == journal.Tables()
      ensures Valid() && this.journal == journal && this.run == run && this.reg == reg && acts == history
      ensures taken == [] && started == [] && answers == [] && asked == [] && sent == [] && deeds == [] && errors == 0
    {
      this.reg, this.run, this.worker, this.lease, this.journal, this.acts := reg, run, worker, lease, journal, history;
      this.taken, this.started, this.answers, this.asked, this.sent, this.deeds, this.errors := [], [], [], [], [], [], 0;
    }

    function Db(): State
      reads journal
    {
      journal.Tables()
    }

    ghost predicate Valid()
      reads `acts, journal
    {
      Legal(reg, run, acts) && Play(acts).db == Db()
    }

    // The history has only grown, legally, since it was `before`.
    ghost predicate Since(before: seq<Act>)
      reads `acts, journal
    {
      Valid() && before <= acts
    }

    lemma Keeps()
      requires Valid()
      ensures Inv(reg, Db(), run)
    {
      PlayKeepsInv(reg, run, acts);
    }

    lemma Later(before: seq<Act>)
      requires Since(before)
      ensures Grows(reg, Play(before).db, Db(), run) && Inv(reg, Db(), run)
      ensures JournalHistory.Extends(Play(before).db, Db())
    {
      PlayGrows(reg, run, acts, |before|);
      PlayKeepsInv(reg, run, acts);
      assert acts[..|before|] == before;
    }

    method Lift(error: Option<Error>) returns (r: Result<()>)
      modifies `errors
      ensures r == if error.Some? then Raised(error.value) else Ok(())
      ensures errors == old(errors) + if r.Raised? then 1 else 0
    {
      r := if error.Some? then Raised(error.value) else Ok(());
      Count(error.Some?);
    }

    ghost method Count(raised: bool)
      modifies `errors
      ensures errors == old(errors) + if raised then 1 else 0
    {
      errors := errors + if raised then 1 else 0;
    }

    // --- one transaction ---

    // Anything others do: reclaims, other workers and runs, decisions of an
    // operator, heartbeats.  Callers may rely on the contract alone.
    method Interfere()
      requires Valid()
      modifies `acts, journal
      ensures Since(old(acts))
    {
      var now: int := *;
      if * {
        ghost var s := Db();
        var rows := journal.ReclaimExpiredLeases(now);
        Appended(acts, Do(ReclaimOp(rows, now)));
        acts := acts + [Do(ReclaimOp(rows, now))];
        assert Play(acts).db == Next(s, ReclaimOp(rows, now));
      }
    }

    lemma Appended(history: seq<Act>, act: Act)
      requires Legal(reg, run, history) && LegalAct(reg, run, Play(history), act)
      ensures Legal(reg, run, history + [act]) && Play(history + [act]) == Step(Play(history), act)
    {
      hide Next, LegalAct, Step;
      assert (history + [act])[..|history|] == history;
    }

    ghost method Record(op: Op, s: State)
      requires Legal(reg, run, acts) && Play(acts).db == s
      requires !op.ReclaimOp? && Admissible(s, op) && LegalOp(reg, run, s, op)
      requires Db() == After(s, Decide(s, op))
      modifies this`acts
      ensures Since(old(acts)) && acts == old(acts) + [Do(op)] && Play(acts).invoked == Play(old(acts)).invoked
    {
      hide LegalOp, Decide, Admissible;
      Appended(acts, Do(op));
      acts := acts + [Do(op)];
    }

    method ListSteps() returns (ids: seq<StepId>)
      requires Valid()
      modifies `acts, journal
      ensures Since(old(acts)) && IsListing(Db(), run, ids)
    {
      Interfere();
      ids := journal.ListSteps(run);
    }

    method ListApprovals(subject: Option<StepId>) returns (ids: seq<string>)
      requires Valid()
      modifies `acts, journal
      ensures Since(old(acts)) && IsApprovalListing(Db(), run, subject, ids)
    {
      Interfere();
      ids := journal.ListApprovals(run, subject);
    }

    method GetStep(id: StepId) returns (r: Result<StepRow>)
      requires Valid()
      modifies `acts, `errors, journal
      ensures errors == old(errors) + if r.Raised? then 1 else 0
      ensures Since(old(acts))
      ensures r == if id in Db().steps then Ok(Db().steps[id]) else Raised(NotFound)
    {
      Interfere();
      Count(id !in journal.steps);
      return if id in journal.steps then Ok(journal.steps[id]) else Raised(NotFound);
    }

    method GetRun() returns (r: Result<RunRow>)
      requires Valid()
      modifies `acts, `errors, journal
      ensures errors == old(errors) + if r.Raised? then 1 else 0
      ensures Since(old(acts))
      ensures r == if run in Db().runs then Ok(Db().runs[run]) else Raised(NotFound)
    {
      Interfere();
      Count(run !in journal.runs);
      return if run in journal.runs then Ok(journal.runs[run]) else Raised(NotFound);
    }

    // The registry raises for a tool it does not know.
    method Entry(name: string) returns (r: Result<SafetyClass>)
      modifies `errors
      ensures r == if name in reg then Ok(reg[name]) else Raised(NotFound)
      ensures errors == old(errors) + if r.Raised? then 1 else 0
    {
      Count(name !in reg);
      return if name in reg then Ok(reg[name]) else Raised(NotFound);
    }

    // A stored step whose input holds no tool call.
    method NoCall(o: StepId) returns (e: Error)
      requires !o.input.ToolInput?
      modifies `errors
      ensures errors == old(errors) + 1
    {
      Count(true);
      return Unexpected;
    }

    method CreateStep(id: StepId) returns (r: Result<()>)
      requires Valid() && id.run == run && !id.input.ModelInput? && Justified(reg, Db(), id)
      modifies `acts, `errors, journal
      ensures errors == old(errors) + if r.Raised? then 1 else 0
      ensures Since(old(acts))
      ensures r.Ok? ==> id in Db().steps
      // Creating a step again always succeeds, and changes nothing about it.
      ensures id in old(Db()).steps ==> r.Ok? && (Terminal(old(Db()).steps[id].status) ==> Db().steps[id] == old(Db()).steps[id])
    {
      hide Justified, Grows, Inv, Legal, Play, JournalHistory.Extends, Decide, After, JournalSpec.CreateStep, Creatable;
      ghost var before := acts;
      Interfere();
      Later(before);
      StillThere(before, id);
      JustifiedStable(reg, Play(before).db, Db(), id);
      var now: int := *;
      ghost var s := Db();
      CreationDecides(s, id, now);
      var e := journal.CreateStep(id, now);
      Record(CreateStepOp(id, now), s);
      r := Lift(e);
    }

    lemma CreationDecides(s: State, id: StepId, now: int)
      ensures var op, d := CreateStepOp(id, now), JournalSpec.CreateStep(s, id, now);
              && Admissible(s, op) && Decide(s, op) == d && (d.Commit? ==> id in After(s, d).steps)
              && (id in s.steps && Creatable(s, id) ==> d.Commit? && After(s, d) == s)
    {
    }

    lemma StillThere(before: seq<Act>, id: StepId)
      requires Since(before)
      ensures var s := Play(before).db;
              id in s.steps ==> id in Db().steps && Creatable(Db(), id) && JournalHistory.RowEvolves(s.steps[id], Db().steps[id])
    {
      Later(before);
      StepsStayCreatable(acts);
    }

    // Reading the earlier attempts and creating the next is one step of this
    // model: no other runtime of the run creates an attempt in between.
    method CreateModelStep(id: StepId, ghost rebuilt: seq<Act>, ghost listed: seq<Act>) returns (r: Result<()>)
      requires Valid() && id.run == run && id.input.ModelInput? && LegalModel(Db(), id) && NoLiveModel(Db(), id)
      requires rebuilt <= listed <= acts
      modifies `acts, `errors, `asked, journal
      ensures errors == old(errors) + if r.Raised? then 1 else 0
      ensures Since(old(acts)) && asked == old(asked) + [Asking(id, rebuilt, listed)]
      ensures r.Ok? ==> id in Db().steps
    {
      hide LegalModel, NoLiveModel, Legal, Play;
      var now: int := *;
      ghost var s := Db();
      var e := journal.CreateStep(id, now);
      Record(CreateStepOp(id, now), s);
      asked := asked + [Asking(id, rebuilt, listed)];
      r := Lift(e);
    }

    // The last thing that happened: this worker claimed the step, first in line.
    ghost predicate JustClaimed(id: StepId)
      reads `acts
    {
      acts != [] &&
      match acts[|acts| - 1]
      case Do(ClaimOp(w, _, scope, _, pick)) =>
        w == worker && scope == Some(run) && pick == Some(id) && FirstReady(Play(acts[..|acts| - 1]).db, scope, pick)
      case _ => false
    }

    lemma ClaimDecides(s: State, now: int, pick: Option<StepId>)
      requires FirstReady(s, Some(run), pick)
      ensures var op, d := ClaimOp(worker, lease, Some(run), now, pick), JournalSpec.ClaimReadyStep(s, worker, lease, Some(run), now, pick);
              && Admissible(s, op) && Decide(s, op) == d && d != Refuse(Unexpected)
              && (d.Commit? ==> var t := After(s, d);
                                if pick.Some? then
                                  pick.value in t.steps && t.steps[pick.value].status == Leased && t.steps[pick.value].owner == Some(worker)
                                else forall id <- t.steps :: id.run == run ==> t.steps[id].status != Ready)
    {
    }

    // Claim whichever step of the run is first in line.
    method ClaimNext() returns (r: Result<Option<StepId>>)
      requires Valid()
      modifies `acts, `errors, journal
      ensures errors == old(errors) + if r.Raised? then 1 else 0
      ensures Since(old(acts))
      ensures r.Ok? && r.value.Some? ==>
                var id := r.value.value;
                && JustClaimed(id)
                && id in Db().steps && Db().steps[id].status == Leased && Db().steps[id].owner == Some(worker)
      ensures r != Raised(Unexpected)
      // Nothing is claimed only if no step of the run is ready.
      ensures r == Ok(None) ==> forall id <- Db().steps :: id.run == run ==> Db().steps[id].status != Ready
    {
      hide Legal, LegalOp, Play, FirstReady, Admissible, Decide, After, JournalSpec.ClaimReadyStep;
      Interfere();
      var now: int := *;
      ghost var s := Db();
      var e, claimed, pick := journal.ClaimReadyStep(worker, lease, Some(run), now);
      ghost var before := acts;
      ClaimDecides(s, now, pick);
      FreeIsLegal(s, ClaimOp(worker, lease, Some(run), now, pick));
      Record(ClaimOp(worker, lease, Some(run), now, pick), s);
      assert acts[..|acts| - 1] == before;
      Count(e.Some?);
      return if e.Some? then Raised(e.value) else Ok(claimed);
    }

    // These operations are free to anyone at any time.
    lemma FreeIsLegal(s: State, op: Op)
      requires op.ClaimOp? || op.MarkExecutingOp? || op.HeartbeatOp? || op.CancelOp? || op.StartCallOp? || op.CompleteCallOp?
               || op.ReserveOp? || op.SettleOp? || op.RequestApprovalOp? || (op.FinishOp? && op.verdict == Failed)
      ensures LegalOp(reg, run, s, op)
    {
    }

    // The step is claimed only if it is ready and first in line; it is passed only
    // if it is not ready.
    method Claim(id: StepId) returns (r: Result<bool>)
      requires Valid() && id.run == run && id in Db().steps
      modifies `acts, `errors, `taken, journal
      ensures taken == if r == Ok(true) then old(taken) + [id] else old(taken)
      ensures errors == old(errors) + if r.Raised? then 1 else 0
      ensures Since(old(acts))
      ensures id in old(Db()).steps && (Terminal(old(Db()).steps[id].status) || old(Db()).steps[id].status == Uncertain) ==>
                r != Ok(true)
      ensures r == Ok(true) ==> JustClaimed(id) && id in Db().steps && Db().steps[id].status == Leased && Db().steps[id].owner == Some(worker)
      ensures r == Ok(false) ==> id in Db().steps && Db().steps[id].status != Ready
      ensures r == Raised(Unexpected) ==> exists other :: other != id && JustClaimed(other)
    {
      hide Legal, Play, FirstReady, JustClaimed, Creatable;
      ghost var before := acts;
      var current :- GetStep(id);
      StaysUnready(before, id);
      if current.status != Ready { return Ok(false); }
      var claimed :- ClaimNext();
      StillThere(before, id);
      if claimed.None? { return Ok(false); }
      if claimed.value != id {
        Count(true);
        assert JustClaimed(claimed.value);
        return Raised(Unexpected);
      }
      taken := taken + [id];
      return Ok(true);
    }

    lemma StaysUnready(before: seq<Act>, id: StepId)
      requires Since(before) && id in Db().steps
      ensures var s := Play(before).db;
              id in s.steps && (Terminal(s.steps[id].status) || s.steps[id].status == Uncertain) ==>
                        Db().steps[id].status != Ready
    {
      hide Inv, Grows, Legal, Play;
      Later(before);
      var s := Play(before).db;
      if id in s.steps { assert JournalHistory.RowEvolves(s.steps[id], Db().steps[id]); }
    }

    lemma ExecutingDecides(s: State, id: StepId, now: int)
      ensures var op, d := MarkExecutingOp(id, worker, now), JournalSpec.MarkExecuting(s, id, worker, now);
              && Decide(s, op) == d
              && (d.Commit? ==> var t := After(s, d);
                                && id in t.steps && t.steps[id].status == Executing && t.steps[id].owner == Some(worker)
                                && Executions(t.events, id) == Executions(s.events, id) + 1)
    {
      var d := JournalSpec.MarkExecuting(s, id, worker, now);
      if d.Commit? { ExecutionsAppend(s.events, EventOf(d.write), id); }
    }

    method MarkExecuting(id: StepId) returns (r: Result<()>)
      requires Valid() && id.run == run
      modifies `acts, `errors, journal
      ensures errors == old(errors) + if r.Raised? then 1 else 0
      ensures Since(old(acts))
      ensures r.Ok? ==> multiset(Play(acts).invoked)[id] < Executions(Db().events, id)
      ensures r.Ok? ==> id in Db().steps && Db().steps[id].status == Executing && Db().steps[id].owner == Some(worker)
    {
      hide LegalOp, Legal, Play, Decide, After, JournalSpec.MarkExecuting, Executions;
      Interfere();
      var now: int := *;
      ghost var s := Db();
      PlayPays(reg, run, acts, id);
      var e := journal.MarkExecuting(id, worker, now);
      ghost var op := MarkExecutingOp(id, worker, now);
      FreeIsLegal(s, op);
      ExecutingDecides(s, id, now);
      Record(op, s);
      r := Lift(e);
    }

    // The handler starts as soon as its step is executing; starting it touches no table.
    method Enter(id: StepId) returns (r: Result<()>)
      requires Valid() && id.run == run
      modifies `acts, `errors, `started, journal
      ensures errors == old(errors) + if r.Raised? then 1 else 0
      ensures Since(old(acts)) && started == old(started) + if r.Ok? then [id] else []
      ensures r.Ok? ==> acts != [] && acts[|acts| - 1] == Invoke(id)
                        && id in Db().steps && Db().steps[id].status == Executing && Db().steps[id].owner == Some(worker)
    {
      var _ :- MarkExecuting(id);
      Appended(acts, Invoke(id));
      acts, started := acts + [Invoke(id)], started + [id];
      return Ok(());
    }

    // What the handler of an executing step returned; None when it raised.
    method Handle(id: StepId) returns (result: Option<Json>)
      requires Valid()
      modifies `acts, `answers, journal
      ensures Since(old(acts)) && answers == old(answers) + if result.Some? then [(id, result.value)] else []
    {
      Interfere();
      result := *;
      if result.Some? { answers := answers + [(id, result.value)]; }
    }

    // What the provider answers to a conversation, sent for an attempt that this worker
    // holds.
    method Ask(id: StepId, messages: seq<Message>) returns (reply: Reply)
      requires Valid() && id in Db().steps && Held(Db().steps[id].status) && Db().steps[id].owner == Some(worker)
      modifies `acts, `sent, journal
      ensures Since(old(acts)) && sent == old(sent) + [(id, messages)]
    {
      Interfere();
      reply := *;
      sent := sent + [(id, messages)];
    }

    method Heartbeat(id: StepId) returns (r: Result<()>)
      requires Valid()
      modifies `acts, `errors, journal
      ensures errors == old(errors) + if r.Raised? then 1 else 0
      ensures Since(old(acts))
      // A live lease is this worker's.
      ensures r.Ok? ==> id in Db().steps && Db().steps[id].status in {Leased, Executing} && Db().steps[id].owner == Some(worker)
    {
      hide LegalOp, Legal, Play;
      Interfere();
      var now: int := *;
      ghost var s := Db();
      var e := journal.Heartbeat(id, worker, lease, now);
      FreeIsLegal(s, HeartbeatOp(id, worker, lease, now));
      Record(HeartbeatOp(id, worker, lease, now), s);
      r := Lift(e);
    }

    lemma CommitDecides(s: State, id: StepId, owner: Worker, output: Output, receipt: Option<(ReceiptKey, Json)>, now: int)
      requires id.run == run && (id.input.ModelInput? <==> output.CompletionOutput?)
      requires receipt.Some? ==> !receipt.value.0.ReconciledReceipt?
      ensures var op, d := CommitOp(id, owner, output, receipt, now), CommitStep(s, id, owner, output, receipt, now);
              && LegalOp(reg, run, s, op) && Decide(s, op) == d
              && (d.Commit? ==> var t := After(s, d);
                                && id in t.steps && t.steps[id].status == Committed && t.steps[id].output == Some(output)
                                && (receipt.Some? ==> receipt.value.0 in t.receipts
                                                      && t.receipts[receipt.value.0] == Receipt(run, id, receipt.value.1)))
    {
    }

    method Commit(id: StepId, output: Output, receipt: Option<(ReceiptKey, Json)>) returns (r: Result<()>)
      requires Valid() && id.run == run && (id.input.ModelInput? <==> output.CompletionOutput?)
      requires receipt.Some? ==> !receipt.value.0.ReconciledReceipt?
      modifies `acts, `errors, journal
      ensures errors == old(errors) + if r.Raised? then 1 else 0
      ensures Since(old(acts))
      ensures r.Ok? ==> id in Db().steps && Db().steps[id].status == Committed && Db().steps[id].output == Some(output)
      ensures r.Ok? && receipt.Some? ==> receipt.value.0 in Db().receipts && Db().receipts[receipt.value.0] == Receipt(run, id, receipt.value.1)
    {
      hide LegalOp, Legal, Play, Decide, After, CommitStep;
      Interfere();
      var now: int := *;
      ghost var s := Db();
      var e := journal.CommitStep(id, worker, output, receipt, now);
      CommitDecides(s, id, worker, output, receipt, now);
      Record(CommitOp(id, worker, output, receipt, now), s);
      r := Lift(e);
    }

    method Fail(id: StepId) returns (r: Result<()>)
      requires Valid()
      modifies `acts, `errors, journal
      ensures errors == old(errors) + if r.Raised? then 1 else 0
      ensures Since(old(acts))
      ensures r.Ok? ==> id in Db().steps && Db().steps[id].status == Failed
    {
      hide LegalOp, Legal, Play;
      Interfere();
      var now: int := *;
      ghost var s := Db();
      var e := journal.FinishOwnedStep(id, worker, Failed, now);
      FreeIsLegal(s, FinishOp(id, worker, Failed, now));
      Record(FinishOp(id, worker, Failed, now), s);
      r := Lift(e);
    }

    method Cancel(id: StepId) returns (r: Result<()>)
      requires Valid()
      modifies `acts, `errors, journal
      ensures errors == old(errors) + if r.Raised? then 1 else 0
      ensures Since(old(acts))
      ensures r.Ok? ==> id in Db().steps && Db().steps[id].status == Cancelled
    {
      hide LegalOp, Legal, Play;
      Interfere();
      var now: int := *;
      ghost var s := Db();
      var e := journal.CancelStep(id, None, now);
      FreeIsLegal(s, CancelOp(id, None, now));
      Record(CancelOp(id, None, now), s);
      r := Lift(e);
    }

    method RecordReconciled(o: StepId, payload: Json) returns (r: Result<()>)
      requires Valid() && o.run == run && LegalReceipt(Db(), o, payload)
      modifies `acts, `errors, journal
      ensures errors == old(errors) + if r.Raised? then 1 else 0
      ensures Since(old(acts))
      ensures r.Ok? ==> ReconciledReceipt(o) in Db().receipts
    {
      hide LegalReceipt, Justified, Grows, Inv, Legal, Play, JournalHistory.Extends, NoLiveModel, RebuildFrom;
      ghost var before := acts;
      Interfere();
      Later(before);
      LegalReceiptStable(Play(before).db, Db(), o, payload);
      ghost var s := Db();
      var e := journal.RecordReceipt(o, ReconciledReceipt(o), payload);
      Record(RecordReceiptOp(o, ReconciledReceipt(o), payload), s);
      r := Lift(e);
    }

    method RequestApproval(subject: StepId, kind: string) returns (r: Result<string>)
      requires Valid()
      modifies `acts, `errors, `deeds, journal
      ensures deeds == old(deeds) + [Requested(subject, kind, old(acts))]
      ensures errors == old(errors) + if r.Raised? then 1 else 0
      ensures Since(old(acts))
      ensures r.Ok? ==> var a := r.value;
                        && a in Db().approvals && Db().approvals[a].run == run && Db().approvals[a].step == Some(subject)
                        && Db().approvals[a].kind == kind && Db().approvals[a].status == Pending
    {
      hide LegalOp, Legal, Play;
      deeds := deeds + [Requested(subject, kind, acts)];
      Interfere();
      var now: int, approval: string := *, *;
      ghost var s := Db();
      var e := journal.RequestApproval(approval, run, Some(subject), kind, now);
      assert e.None? ==> approval in Db().approvals;
      FreeIsLegal(s, RequestApprovalOp(approval, run, Some(subject), kind, now));
      Record(RequestApprovalOp(approval, run, Some(subject), kind, now), s);
      Count(e.Some?);
      return if e.Some? then Raised(e.value) else Ok(approval);
    }

    method AppendEvent(topic: string, message: string, subject: Option<StepId>) returns (r: Result<()>)
      requires Valid()
      modifies `acts, `errors, journal
      ensures errors == old(errors) + if r.Raised? then 1 else 0
      ensures Since(old(acts))
      ensures r.Ok? ==> Db().events != [] && Db().events[|Db().events| - 1] == Event(run, subject, UserEvent(topic, Text(message)))
    {
      Interfere();
      ghost var s := Db();
      var e := journal.AppendEvent(run, subject, UserEvent(topic, Text(message)));
      Record(AppendEventOp(run, subject, UserEvent(topic, Text(message))), s);
      r := Lift(e);
    }

    lemma StatusDecides(s: State, target: RunStatus)
      requires target == Completed ==> RebuildFrom(s, run, 0).final.Some?
      ensures var op, d := MarkRunStatusOp(run, target), MarkRunStatus(s, run, target);
              && LegalOp(reg, run, s, op) && Decide(s, op) == d
              && (d.Commit? ==> var t := After(s, d); run in t.runs && t.runs[run].status == target)
    {
      hide RebuildFrom;
    }

    method MarkStatus(target: RunStatus, ghost why: Why, ghost seen: seq<Act>) returns (r: Result<()>)
      requires Valid() && seen <= acts && (target == Completed ==> RebuildFrom(Db(), run, 0).final.Some?)
      modifies `acts, `errors, `deeds, journal
      ensures deeds == old(deeds) + [Marked(target, why, seen, old(acts))]
      ensures errors == old(errors) + if r.Raised? then 1 else 0
      ensures Since(old(acts))
      ensures r.Ok? ==> run in Db().runs && Db().runs[run].status == target
    {
      hide RebuildFrom, Legal, Play, LegalOp, Decide, After, MarkRunStatus;
      ghost var before := acts;
      deeds := deeds + [Marked(target, why, seen, before)];
      Interfere();
      Later(before);
      RebuildStable(reg, Play(before).db, Db(), run, 0);
      ghost var s := Db();
      var e := journal.MarkRunStatus(run, target);
      StatusDecides(s, target);
      Record(MarkRunStatusOp(run, target), s);
      r := Lift(e);
    }

    method Reclaim()
      requires Valid()
      modifies `acts, journal
      ensures Since(old(acts))
      ensures acts != [] && acts[|acts| - 1].Do? && acts[|acts| - 1].op.ReclaimOp? && |acts| > |old(acts)|
    {
      Interfere();
      var now: int := *;
      var rows := journal.ReclaimExpiredLeases(now);
      Appended(acts, Do(ReclaimOp(rows, now)));
      acts := acts + [Do(ReclaimOp(rows, now))];
    }

    // --- billing ---

    method StartCall(subject: StepId) returns (r: Result<string>)
      requires Valid()
      modifies `acts, `errors, journal
      ensures errors == old(errors) + if r.Raised? then 1 else 0
      ensures Since(old(acts))
      ensures r.Ok? ==> r.value in Db().calls && Db().calls[r.value] == ProviderCall(run, Some(subject), Started)
    {
      hide LegalOp, Legal, Play;
      Interfere();
      var providerCall: string := *;
      ghost var s := Db();
      var e := journal.StartProviderCall(providerCall, run, Some(subject));
      FreeIsLegal(s, StartCallOp(providerCall, run, Some(subject)));
      Record(StartCallOp(providerCall, run, Some(subject)), s);
      Count(e.Some?);
      return if e.Some? then Raised(e.value) else Ok(providerCall);
    }

    lemma CompletionDecides(s: State, providerCall: string, status: CallStatus)
      ensures var op, d := CompleteCallOp(providerCall, status), CompleteProviderCall(s, providerCall, status);
              && Decide(s, op) == d
              && (d.Commit? ==> status != Started
                                && var t := After(s, d); providerCall in t.calls && t.calls[providerCall].status == status)
    {
    }

    method CompleteCall(providerCall: string, status: CallStatus) returns (r: Result<()>)
      requires Valid()
      modifies `acts, `errors, journal
      ensures errors == old(errors) + if r.Raised? then 1 else 0
      ensures Since(old(acts))
      ensures r.Ok? ==> status != Started && providerCall in Db().calls && Db().calls[providerCall].status == status
    {
      hide LegalOp, Legal, Play, Decide, After, CompleteProviderCall;
      Interfere();
      ghost var s := Db();
      var e := journal.CompleteProviderCall(providerCall, status);
      FreeIsLegal(s, CompleteCallOp(providerCall, status));
      CompletionDecides(s, providerCall, status);
      Record(CompleteCallOp(providerCall, status), s);
      r := Lift(e);
    }

    lemma ReserveDecides(s: State, reservation: string, amount: Amounts)
      ensures var op, d := ReserveOp(reservation, run, amount), ReserveBudget(s, reservation, run, amount);
              && Decide(s, op) == d
              && (d.Commit? ==> var t := After(s, d); reservation in t.reservations && t.reservations[reservation].run == run
                                                      && t.reservations[reservation].amount == amount)
              && (d == Refuse(BudgetExceeded) ==> After(s, d) == s && run in s.runs && JournalBudgets.PassesLimit(s.runs[run], amount))
    {
      if ReserveBudget(s, reservation, run, amount) == Refuse(BudgetExceeded) {
        JournalBudgets.ReservationRefusedExactly(s, reservation, run, amount);
      }
    }

    method Reserve(reservation: string, amount: Amounts) returns (r: Result<()>)
      requires Valid()
      modifies `acts, `errors, journal
      ensures errors == old(errors) + if r.Raised? && r.error != BudgetExceeded then 1 else 0
      ensures Since(old(acts))
      ensures r.Ok? ==> reservation in Db().reservations && Db().reservations[reservation].run == run
                        && Db().reservations[reservation].amount == amount
      // It is refused for its size only if it passes a limit.
      ensures r == Raised(BudgetExceeded) ==> run in Db().runs && JournalBudgets.PassesLimit(Db().runs[run], amount)
    {
      hide LegalOp, Legal, Play, Decide, After, ReserveBudget;
      Interfere();
      ghost var s := Db();
      var e := journal.ReserveBudget(reservation, run, amount);
      FreeIsLegal(s, ReserveOp(reservation, run, amount));
      ReserveDecides(s, reservation, amount);
      Record(ReserveOp(reservation, run, amount), s);
      Count(e.Some? && e.value != BudgetExceeded);
      return if e.Some? then Raised(e.value) else Ok(());
    }

    lemma SettleDecides(s: State, reservation: string, actual: Amounts)
      ensures var op, d := SettleOp(reservation, run, actual), SettleBudget(s, reservation, run, actual);
              && Decide(s, op) == d
              && (d.Commit? ==> var t := After(s, d); reservation in t.reservations && t.reservations[reservation].run == run
                                                      && t.reservations[reservation].actual == Some(actual))
    {
    }

    method Settle(reservation: string, actual: Amounts) returns (r: Result<()>)
      requires Valid()
      modifies `acts, `errors, journal
      ensures errors == old(errors) + if r.Raised? then 1 else 0
      ensures Since(old(acts))
      ensures r.Ok? ==> reservation in Db().reservations && Db().reservations[reservation].run == run
                        && Db().reservations[reservation].actual == Some(actual)
    {
      hide LegalOp, Legal, Play, Decide, After, SettleBudget;
      Interfere();
      ghost var s := Db();
      var e := journal.SettleBudget(reservation, run, actual);
      FreeIsLegal(s, SettleOp(reservation, run, actual));
      SettleDecides(s, reservation, actual);
      Record(SettleOp(reservation, run, actual), s);
      r := Lift(e);
    }
  }
}
