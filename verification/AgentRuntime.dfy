/**
 The agent runtime, as the methods that create, claim, execute and commit steps
 one after another.  Every transaction they make is legal in every state they
 can find the journal in, so the safety theorems hold of whatever they do,
 however often they are cut short and started again.
 */
module AgentRuntime {
  import opened Options
  import opened JournalTypes
  import opened JournalSpec
  import JournalBudgets
  import JournalHistory
  import opened AgentSpec
  import opened AgentInvariants
  import opened AgentReplay
  import opened AgentSafety
  import opened AgentSession
  import AgentRacing
  import AgentAnswers

  datatype Config = Config(
    maxIterations: nat, noProgressThreshold: nat, reservation: Amounts,
    defaultPrompt: string, defaultMemory: Option<string>, model: string)

  datatype AgentResult = AgentResult(status: RunStatus, final: Option<Content>)

  datatype Group = Continue | GroupPaused | GroupCancelled | GroupFailed

  // One handler has returned in between, for this step, and what it returned is
  // stored and recorded as the result of the call.
  ghost predicate Recording(s: State, before: seq<(StepId, Json)>, after: seq<(StepId, Json)>, id: StepId)
    requires id.input.ToolInput?
  {
    && |after| == |before| + 1 && before <= after && after[|before|].0 == id
    && CommittedJson(s, id) == Some(AgentAnswers.Stored(id.input.call, after[|before|].1))
    && Recorded(s, AgentSpec.Root(id), {}) == Some(after[|before|].1)
  }

  lemma IsRecorded(reg: Registry, s: State, run: RunId, before: seq<(StepId, Json)>, after: seq<(StepId, Json)>, id: StepId)
    requires Inv(reg, s, run) && IsTool(id, run) && |after| == |before| + 1 && before <= after && after[|before|].0 == id
    requires CommittedJson(s, id) == Some(CallOutput(id.input.call, after[|before|].1))
    ensures Recording(s, before, after, id)
  {
    hide Inv, Recorded;
    AgentAnswers.ResultIsRecorded(reg, s, run, id, id.input.call, after[|before|].1);
  }

  // What the earlier attempts of an iteration say about the next one.
  datatype Prior = Prior(committed: bool, failures: nat, resumable: Option<StepId>)

  // The outcome of `o` is known again: by a receipt or by a committed retry.
  predicate Recovered(s: State, o: StepId) {
    ReconciledReceipt(o) in s.receipts ||
    (o.input.ToolInput? && Replacement(o) in s.steps && s.steps[Replacement(o)].status == Committed)
  }

  predicate UncertainIn(s: State, run: RunId, o: StepId) {
    o in s.steps && o.run == run && s.steps[o].status == Uncertain
  }

  lemma UncertainBetween(s: State, m: State, t: State, run: RunId, o: StepId)
    requires JournalHistory.Extends(s, m) && JournalHistory.Extends(m, t) && UncertainIn(s, run, o) && UncertainIn(t, run, o)
    ensures UncertainIn(m, run, o)
  {
    assert JournalHistory.RowEvolves(s.steps[o], m.steps[o]) && JournalHistory.RowEvolves(m.steps[o], t.steps[o]);
  }

  // An original call of a group can no longer commit.
  ghost predicate GroupStuck(reg: Registry, s: State, run: RunId, i: nat, calls: seq<ToolCall>) {
    exists k: nat :: k < |calls| && calls[k].name in reg && GivenUp(s, Original(reg, run, i, k, calls[k]))
  }

  predicate GivenUp(s: State, o: StepId) {
    o in s.steps && Dead(s.steps[o].status)
  }

  // A reconcilable call was executed again, and that came to an end.
  predicate Retried(s: State, o: StepId) {
    o.input.ToolInput? && Replacement(o) in s.steps && Terminal(s.steps[Replacement(o)].status)
  }

  // The run is not going on.
  predicate Stopped(s: State, run: RunId) {
    run in s.runs && s.runs[run].status !in {RunCreated, Running}
  }

  // Every approval of the run asked for before is given now.
  ghost predicate ApprovedSince(s: State, t: State, run: RunId) {
    forall a <- s.approvals :: s.approvals[a].run == run ==> a in t.approvals && t.approvals[a].status == Approved
  }

  lemma GivenUpForGood(s: State, t: State, o: StepId)
    requires JournalHistory.Extends(s, t) && GivenUp(s, o)
    ensures GivenUp(t, o)
  {
    assert JournalHistory.RowEvolves(s.steps[o], t.steps[o]);
  }

  lemma StuckForGood(reg: Registry, s: State, t: State, run: RunId, i: nat, calls: seq<ToolCall>)
    requires JournalHistory.Extends(s, t) && GroupStuck(reg, s, run, i, calls)
    ensures GroupStuck(reg, t, run, i, calls) && !GroupDone(reg, t, run, i, calls, |calls|)
  {
    hide JournalHistory.Extends, GivenUp;
    var k: nat :| k < |calls| && calls[k].name in reg && GivenUp(s, Original(reg, run, i, k, calls[k]));
    GivenUpForGood(s, t, Original(reg, run, i, k, calls[k]));
    NotCommitted(t, Original(reg, run, i, k, calls[k]));
  }

  lemma NotCommitted(s: State, o: StepId)
    requires GivenUp(s, o)
    ensures o in s.steps && s.steps[o].status != Committed
  {
  }

  lemma RetriedForGood(s: State, t: State, o: StepId)
    requires JournalHistory.Extends(s, t) && Retried(s, o)
    ensures Retried(t, o)
  {
    assert JournalHistory.RowEvolves(s.steps[Replacement(o)], t.steps[Replacement(o)]);
  }

  // What recovery leaves behind of an uncertain step before it goes on.
  predicate Settled(s: State, o: StepId) {
    o.input.ToolInput? && if o.safety == Reconcilable then Recovered(s, o) else Replacement(o) in s.steps
  }

  lemma SettledStable(s: State, t: State, o: StepId)
    requires JournalHistory.Extends(s, t) && Settled(s, o)
    ensures Settled(t, o)
  {
    if o.safety == Reconcilable && ReconciledReceipt(o) !in s.receipts { CommittedStable(s, t, Replacement(o)); }
  }

  lemma GroupStable(reg: Registry, s: State, t: State, run: RunId, i: nat, calls: seq<ToolCall>, n: nat)
    requires JournalHistory.Extends(s, t) && n <= |calls| && Asked(s, run, i, calls) && GroupDone(reg, s, run, i, calls, n)
    ensures Asked(t, run, i, calls) && GroupDone(reg, t, run, i, calls, n)
  {
    hide GroupDone;
    AskedStable(s, t, run, i, calls);
    GroupDoneStable(reg, s, t, run, i, calls, n);
  }

  lemma AskedStable(s: State, t: State, run: RunId, i: nat, calls: seq<ToolCall>)
    requires JournalHistory.Extends(s, t) && Asked(s, run, i, calls)
    ensures Asked(t, run, i, calls)
  {
    var m :| CommittedModel(s, run, i, m) && s.steps[m].output.value.completion.message.toolCalls == calls;
    CommittedStable(s, t, m);
    assert CommittedModel(t, run, i, m);
  }

  lemma AskedIsJustified(reg: Registry, s: State, run: RunId, i: nat, k: nat, calls: seq<ToolCall>)
    requires Asked(s, run, i, calls) && k < |calls| && calls[k].name in reg && GroupDone(reg, s, run, i, calls, k)
    ensures Justified(reg, s, Original(reg, run, i, k, calls[k]))
  {
  }

  /** A group that the runtime reports as finished has every result recorded. */
  lemma FinishedGroupHasOutputs(reg: Registry, s: State, run: RunId, i: nat, calls: seq<ToolCall>)
    requires Inv(reg, s, run) && Asked(s, run, i, calls) && GroupDone(reg, s, run, i, calls, |calls|)
    ensures OutputsDone(s, run, i)
  {
    var m :| CommittedModel(s, run, i, m) && s.steps[m].output.value.completion.message.toolCalls == calls;
    CompletionIs(s, run, i, m);
    forall k: nat | k < |calls| ensures OutputAt(s, run, i, k).Some? {
      hide OutputAt, Recorded;
      var id := Original(reg, run, i, k, calls[k]);
      OutputIs(reg, s, run, i, k, id);
      CommittedIsRecorded(s, run, id);
    }
  }

  lemma CommittedIsRecorded(s: State, run: RunId, id: StepId)
    requires TypedOutputs(s, run) && IsTool(id, run) && id in s.steps && s.steps[id].status == Committed
    ensures Recorded(s, id, {}).Some?
  {
    assert CommittedJson(s, id).Some?;
  }

  // What a group of calls asks for, whatever the calls are named by.
  function Signature(calls: seq<ToolCall>): seq<(string, Json)> {
    seq(|calls|, k requires 0 <= k < |calls| => (calls[k].name, calls[k].arguments))
  }

  // The groups of calls of a conversation, in listed order.
  function Signatures(s: State, ids: seq<StepId>): seq<seq<(string, Json)>> {
    if ids == [] then []
    else
      var prior, id := Signatures(s, ids[..|ids| - 1]), ids[|ids| - 1];
      if IsCommittedModel(s, id) && CompletionOf(s, id).message.toolCalls != [] then
        prior + [Signature(CompletionOf(s, id).message.toolCalls)]
      else prior
  }

  // Some group was asked for `times` times at the end of the conversation.
  predicate Repeats(signatures: seq<seq<(string, Json)>>, times: nat) {
    1 <= times <= |signatures| && forall k | |signatures| - times <= k < |signatures| :: signatures[k] == signatures[|signatures| - times]
  }

  // A step was passed by, its handler failed, or it returned.
  datatype Attempted = Passed | Broken | Returned(result: Json)

  // Nothing is raised unless an operation of the session raised it.
  predicate Counted<T>(r: Result<T>, before: nat, after: nat) {
    if r.Raised? then before < after else before <= after
  }

  // What is asked for in a change of status for this reason.
  function TargetOf(why: Why): RunStatus {
    match why
    case Starting => Running
    case Finished => Completed
    case IterationLimit | NoProgress(_) | AttemptLimit(_) | BudgetSpent | HandlerFailed(_) => RunFailed
    case RejectedBy(_) => RunCancelled
    case Undecided(_) | Unsettled(_) | Busy(_) => Paused
  }

  class AgentRuntime {
    const session: Session
    const config: Config
    const requiresApproval: (string, SafetyClass) -> bool
    // The printed form of a step identifier.
    const textOf: StepId -> string
    // How many turns were made.
    ghost var made: nat

    constructor (session: Session, config: Config, requiresApproval: (string, SafetyClass) -> bool, textOf: StepId -> string)
      ensures this.session == session && made == 0
    {
      this.session, this.config, this.requiresApproval, this.textOf, this.made := session, config, requiresApproval, textOf, 0;
    }

    // --- reasons ---

    ghost predicate Holds(why: Why, s: State) {
      match why
      case Starting => session.run in s.runs && s.runs[session.run].status in {Paused, RunCreated}
      case Finished => RebuildFrom(s, session.run, 0).final.Some?
      case IterationLimit => RebuildFrom(s, session.run, 0).final.None? && config.maxIterations <= RebuildFrom(s, session.run, 0).iteration
      case NoProgress(ids) => IsListing(s, session.run, ids) && Repeats(Signatures(s, ids), config.noProgressThreshold)
      case AttemptLimit(i) => !HasModel(s, session.run, i) && config.maxIterations <= |AgentRacing.Failed(s, session.run, i)|
      case BudgetSpent => session.run in s.runs && JournalBudgets.PassesLimit(s.runs[session.run], config.reservation)
      case HandlerFailed(id) => id in s.steps && id.run == session.run && s.steps[id].status == Failed
      case RejectedBy(a) => a in s.approvals && s.approvals[a].run == session.run && s.approvals[a].status == Rejected
      case Undecided(a) => a in s.approvals && s.approvals[a].run == session.run && s.approvals[a].status == Pending
      case Unsettled(o) => Unresolved(s, o) && o.safety != Reconcilable && !RetryIsApproved(s, o)
      case Busy(id) => id in s.steps && id.run == session.run && s.steps[id].status != Ready
    }

    // The run has not been given this status, or one that forbids it, already.
    predicate Open(target: RunStatus, s: State) {
      match target
      case Paused => session.run in s.runs && s.runs[session.run].status in {RunCreated, Running}
      case RunFailed => session.run in s.runs && s.runs[session.run].status !in {RunFailed, RunCancelled}
      case _ => true
    }

    // No decision of the kind was asked for yet; an execution is not asked for twice
    // whatever was asked about its step.
    predicate Unasked(s: State, subject: StepId, kind: string) {
      if kind == "uncertain_outcome" then forall a <- s.approvals :: !Decides(s, a, subject)
      else forall a <- s.approvals :: !(s.approvals[a].run == session.run && s.approvals[a].step == Some(subject))
    }

    /** The status of the run is changed only for a reason that held shortly before,
        and a decision is asked for only once. */
    ghost predicate Warranted(d: Deed) {
      match d
      case Marked(target, why, seen, at) =>
        target == TargetOf(why) && seen <= at && Holds(why, Play(seen).db) && Open(target, Play(at).db)
      case Requested(subject, kind, at) => Unasked(Play(at).db, subject, kind)
    }

    ghost predicate AllWarranted()
      reads session`deeds
    {
      forall d <- session.deeds :: Warranted(d)
    }

    // One more warranted deed.
    method Mark(target: RunStatus, ghost why: Why, ghost seen: seq<Act>) returns (r: Result<()>)
      requires session.Valid() && AllWarranted() && seen <= session.acts
      requires target == TargetOf(why) && Holds(why, Play(seen).db) && Open(target, session.Db())
      modifies session`acts, session`errors, session`deeds, session.journal
      ensures session.Since(old(session.acts)) && AllWarranted()
      ensures Counted(r, old(session.errors), session.errors)
      ensures r.Ok? ==> session.run in session.Db().runs && session.Db().runs[session.run].status == target
      ensures session.deeds == old(session.deeds) + [Marked(target, why, seen, old(session.acts))]
    {
      hide Legal, Play, Holds, Open;
      ghost var at := session.acts;
      if target == Completed { StillFinal(seen); }
      r := session.MarkStatus(target, why, seen);
    }

    lemma StillFinal(seen: seq<Act>)
      requires session.Since(seen) && Holds(Finished, Play(seen).db)
      ensures RebuildFrom(session.Db(), session.run, 0).final.Some?
    {
      hide RebuildFrom, Inv, Grows, Legal, Play;
      session.Later(seen);
      RebuildStable(session.reg, Play(seen).db, session.Db(), session.run, 0);
    }

    method Request(subject: StepId, kind: string) returns (r: Result<string>)
      requires session.Valid() && AllWarranted() && Unasked(session.Db(), subject, kind)
      modifies session`acts, session`errors, session`deeds, session.journal
      ensures session.Since(old(session.acts)) && AllWarranted()
      ensures Counted(r, old(session.errors), session.errors)
      ensures r.Ok? ==> var a := r.value;
                        && a in session.Db().approvals && session.Db().approvals[a].run == session.run
                        && session.Db().approvals[a].step == Some(subject) && session.Db().approvals[a].kind == kind
                        && session.Db().approvals[a].status == Pending
      ensures session.deeds == old(session.deeds) + [Requested(subject, kind, old(session.acts))]
    {
      hide Legal, Play, Unasked;
      r := session.RequestApproval(subject, kind);
    }

    lemma IsStarting()
      requires session.Valid() && session.run in session.Db().runs && session.Db().runs[session.run].status in {Paused, RunCreated}
      ensures Holds(Starting, Play(session.acts).db)
    {
    }

    lemma IsFinished()
      requires session.Valid() && RebuildFrom(session.Db(), session.run, 0).final.Some?
      ensures Holds(Finished, Play(session.acts).db)
    {
    }

    lemma IsAtLimit()
      requires session.Valid() && RebuildFrom(session.Db(), session.run, 0).final.None?
      requires config.maxIterations <= RebuildFrom(session.Db(), session.run, 0).iteration
      ensures Holds(IterationLimit, Play(session.acts).db)
    {
    }

    lemma IsRepeating(ids: seq<StepId>)
      requires session.Valid() && IsListing(session.Db(), session.run, ids)
      requires Repeats(Signatures(session.Db(), ids), config.noProgressThreshold)
      ensures Holds(NoProgress(ids), Play(session.acts).db)
    {
    }

    lemma IsExhausted(i: nat)
      requires session.Valid() && !HasModel(session.Db(), session.run, i)
      requires config.maxIterations <= |AgentRacing.Failed(session.Db(), session.run, i)|
      ensures Holds(AttemptLimit(i), Play(session.acts).db)
    {
    }

    lemma IsOverBudget()
      requires session.Valid() && session.run in session.Db().runs
      requires JournalBudgets.PassesLimit(session.Db().runs[session.run], config.reservation)
      ensures Holds(BudgetSpent, Play(session.acts).db)
    {
    }

    lemma HasFailed(id: StepId)
      requires session.Valid() && id.run == session.run && id in session.Db().steps && session.Db().steps[id].status == Failed
      ensures Holds(HandlerFailed(id), Play(session.acts).db)
    {
    }

    lemma IsUndecided(a: string)
      requires session.Valid() && a in session.Db().approvals
      requires session.Db().approvals[a].run == session.run && session.Db().approvals[a].status == Pending
      ensures Holds(Undecided(a), Play(session.acts).db)
    {
    }

    lemma IsRejected(a: string)
      requires session.Valid() && a in session.Db().approvals
      requires session.Db().approvals[a].run == session.run && session.Db().approvals[a].status == Rejected
      ensures Holds(RejectedBy(a), Play(session.acts).db)
    {
    }

    lemma IsBusy(id: StepId)
      requires session.Valid() && id.run == session.run && id in session.Db().steps && session.Db().steps[id].status != Ready
      ensures Holds(Busy(id), Play(session.acts).db)
    {
    }

    // At some moment since `before` the run was stopped, or it waited for a call, and
    // afterwards it had this status.
    ghost predicate Rests(before: seq<Act>, status: RunStatus)
      reads session`acts
    {
      exists seen :: before <= seen <= session.acts && AtRest(Play(seen).db) && Tells(seen, status)
    }

    ghost predicate AtRest(s: State) {
      Stopped(s, session.run) || exists i: nat, calls, k: nat :: Awaits(s, i, calls, k)
    }

    // The calls before it have committed, and its own step is taken or given up.
    ghost predicate Awaits(s: State, i: nat, calls: seq<ToolCall>, k: nat) {
      && k < |calls| && calls[k].name in session.reg && Asked(s, session.run, i, calls) && GroupDone(session.reg, s, session.run, i, calls, k)
      && var id := Original(session.reg, session.run, i, k, calls[k]); id in s.steps && s.steps[id].status != Ready
    }

    lemma RestedAt(before: seq<Act>, seen: seq<Act>, status: RunStatus)
      requires before <= seen <= session.acts && Stopped(Play(seen).db, session.run) && Tells(seen, status)
      ensures Rests(before, status)
    {
      hide Tells;
    }

    lemma AwaitedAt(before: seq<Act>, seen: seq<Act>, status: RunStatus, i: nat, calls: seq<ToolCall>, k: nat)
      requires before <= seen <= session.acts && Awaits(Play(seen).db, i, calls, k) && Tells(seen, status)
      ensures Rests(before, status)
    {
      hide Awaits, Tells;
    }

    lemma RestsThrough(before: seq<Act>, later: seq<Act>, status: RunStatus)
      requires before <= later && Rests(later, status)
      ensures Rests(before, status)
    {
      hide AtRest, Tells;
    }

    // At some moment since `before` the run had this status.
    ghost predicate Tells(before: seq<Act>, status: RunStatus)
      reads session`acts
    {
      exists seen :: before <= seen <= session.acts && HasStatus(Play(seen).db, status)
    }

    lemma ToldAt(before: seq<Act>, seen: seq<Act>, status: RunStatus)
      requires before <= seen <= session.acts && HasStatus(Play(seen).db, status)
      ensures Tells(before, status)
    {
    }

    /** Run the conversation, for at most `turns` turns before the process dies. */
    method Execute(turns: nat) returns (r: Result<AgentResult>, ghost begun: seq<Act>)
      requires session.Valid() && AllWarranted()
      modifies this, session, session.journal
      ensures session.Since(old(session.acts)) && AllWarranted()
      ensures session.errors >= old(session.errors)
      // A run that ended is not taken up again.
      ensures r.Ok? && Ended(old(session.Db())) ==> r.value.status == old(session.Db()).runs[session.run].status
                                                    && session.asked == old(session.asked) && session.started == old(session.started)
      // The result carries the final text of the conversation, and a completed one has it.
      ensures r.Ok? ==> Reported(session.Db(), r.value)
      // Every attempt created asks for the conversation that was rebuilt for it, and the
      // provider is sent what its attempt asks for.
      ensures Asks(begun, old(session.asked), session.asked) && Sends(old(session.sent), session.sent)
      // None is created before the run is under way again, with every approval given.
      ensures old(session.acts) <= begun <= session.acts
      ensures session.asked != old(session.asked) ==> UnderWay(old(session.Db()), Play(begun).db) && Swept(old(session.acts), begun)
      // It returns only what came to rest, and it raises only what an operation raised -
      // or else the process has died, after all of its turns.
      ensures r.Ok? ==> Rests(old(session.acts), r.value.status)
      ensures r.Raised? ==> session.errors > old(session.errors) || made == old(made) + turns
    {
      hide Inv, Grows, RebuildFrom, ReadyFor, JournalHistory.Extends, Legal, Play, Asks, Sends, Holds, AtRest, Rests, Reported;
      hide UnderWay, AllWarranted, Swept;
      ghost var entry := session.acts;
      begun := session.acts;
      NothingAsked(begun);
      var row :- session.GetRun();
      EndedStays(entry);
      if row.status in {Completed, RunFailed, RunCancelled} {
        ghost var ended := session.acts;
        r := Outcome();
        if r.Ok? { RestedAt(entry, ended, r.value.status); }
        return;
      }
      ghost var running := session.acts;
      r, begun := Resume(turns);
      if r.Ok? { RestsThrough(entry, running, r.value.status); }
      GoesOnFrom(entry, running, begun);
    }

    // Take up a run that has not ended: its expired leases are reclaimed, and what was
    // left open is settled before the conversation goes on.
    method Resume(turns: nat) returns (r: Result<AgentResult>, ghost begun: seq<Act>)
      requires session.Valid() && AllWarranted()
      modifies this, session, session.journal
      ensures session.Since(old(session.acts)) && AllWarranted()
      ensures session.errors >= old(session.errors)
      ensures r.Ok? ==> Reported(session.Db(), r.value) && Rests(old(session.acts), r.value.status)
      ensures Asks(begun, old(session.asked), session.asked) && Sends(old(session.sent), session.sent)
      ensures old(session.acts) <= begun <= session.acts
      ensures session.asked != old(session.asked) ==> UnderWay(old(session.Db()), Play(begun).db) && Swept(old(session.acts), begun)
      ensures r.Raised? ==> session.errors > old(session.errors) || made == old(made) + turns
    {
      hide Inv, Grows, RebuildFrom, ReadyFor, JournalHistory.Extends, Legal, Play, Asks, Sends, Holds, AtRest, Rests, Reported;
      hide UnderWay, AllWarranted, Swept, HandledSince;
      ghost var entry := session.acts;
      begun := session.acts;
      NothingAsked(begun);
      session.Reclaim();
      IsSwept(entry);
      ghost var swept := session.acts;
      var stop :- HandleApprovalsAndUncertainty();
      ghost var handled := session.acts;
      if stop {
        r := Outcome();
        if r.Ok? { RestedAt(entry, handled, r.value.status); }
        return;
      }
      var _ :- TakeUp();
      begun := session.acts;
      GoesOn(entry, swept, handled);
      NothingAsked(begun);
      ghost var last;
      r, last := Loop(turns);
      if r.Ok? { RestsThrough(entry, begun, r.value.status); }
    }

    // Expired leases were reclaimed in between.
    ghost predicate Swept(before: seq<Act>, after: seq<Act>) {
      exists n | |before| <= n < |after| :: after[n].Do? && after[n].op.ReclaimOp?
    }

    lemma IsSwept(before: seq<Act>)
      requires |before| < |session.acts| && session.acts[|session.acts| - 1].Do? && session.acts[|session.acts| - 1].op.ReclaimOp?
      ensures forall later | session.acts <= later :: Swept(before, later)
    {
      forall later | session.acts <= later ensures Swept(before, later) {
        assert later[|session.acts| - 1] == session.acts[|session.acts| - 1];
      }
    }

    // A run that is new or paused goes on.
    method TakeUp() returns (r: Result<()>)
      requires session.Valid() && AllWarranted()
      modifies session`acts, session`errors, session`deeds, session.journal
      ensures session.Since(old(session.acts)) && AllWarranted()
      ensures Counted(r, old(session.errors), session.errors)
      ensures r.Ok? ==> session.run in session.Db().runs && session.Db().runs[session.run].status !in {Paused, RunCreated}
    {
      hide Legal, Play, Holds, AllWarranted;
      var row :- session.GetRun();
      if row.status in {Paused, RunCreated} {
        IsStarting();
        var _ :- Mark(Running, Starting, session.acts);
      }
      return Ok(());
    }

    // Once it is, a run stays started.
    predicate Launched(s: State) {
      session.run in s.runs && s.runs[session.run].status != RunCreated
    }

    lemma StaysLaunched(before: seq<Act>)
      requires session.Since(before)
      ensures Launched(Play(before).db) ==> Launched(session.Db())
    {
      hide Inv, Grows, Legal, Play;
      session.Later(before);
      var s := Play(before).db;
      if Launched(s) { assert JournalHistory.RunEvolves(s.runs[session.run], session.Db().runs[session.run]); }
    }

    lemma GoesOn(entry: seq<Act>, swept: seq<Act>, handled: seq<Act>)
      requires session.Since(handled) && entry <= swept <= handled && ApprovedSince(Play(swept).db, Play(handled).db, session.run)
      requires session.run in session.Db().runs && session.Db().runs[session.run].status !in {Paused, RunCreated}
      ensures UnderWay(Play(entry).db, session.Db()) && Launched(session.Db())
    {
      hide Inv, Grows, Legal, Play, ApprovedSince;
      StillApproved(swept, handled);
      assert swept <= session.acts;
      Between(entry, swept);
      GrowsExtends(session.reg, Play(entry).db, Play(swept).db, session.run);
      ApprovedEarlier(Play(entry).db, Play(swept).db, session.Db());
    }

    // What was under way from a later moment is so from an earlier one.
    lemma GoesOnFrom(before: seq<Act>, later: seq<Act>, begun: seq<Act>)
      requires session.Since(later) && before <= later
      ensures UnderWay(Play(later).db, Play(begun).db) ==> UnderWay(Play(before).db, Play(begun).db)
      ensures Swept(later, begun) ==> Swept(before, begun)
    {
      hide Inv, Grows, Legal, Play, ApprovedSince;
      Between(before, later);
      GrowsExtends(session.reg, Play(before).db, Play(later).db, session.run);
      if UnderWay(Play(later).db, Play(begun).db) { ApprovedEarlier(Play(before).db, Play(later).db, Play(begun).db); }
    }

    lemma ApprovedEarlier(s: State, m: State, t: State)
      requires JournalHistory.Extends(s, m) && ApprovedSince(m, t, session.run)
      ensures ApprovedSince(s, t, session.run)
    {
      forall a <- s.approvals | s.approvals[a].run == session.run ensures a in t.approvals && t.approvals[a].status == Approved {
        assert JournalHistory.ApprovalEvolves(s.approvals[a], m.approvals[a]);
      }
    }

    // The run has been started or taken up again, with every approval given.
    ghost predicate UnderWay(s: State, t: State) {
      session.run in t.runs && t.runs[session.run].status !in {RunCreated, Paused} && ApprovedSince(s, t, session.run)
    }

    method Loop(turns: nat) returns (r: Result<AgentResult>, ghost last: seq<Act>)
      requires session.Valid() && AllWarranted() && Launched(session.Db())
      modifies this, session, session.journal
      ensures session.Since(old(session.acts)) && AllWarranted()
      ensures Asks(old(session.acts), old(session.asked), session.asked) && Sends(old(session.sent), session.sent)
      ensures session.errors >= old(session.errors)
      ensures r.Ok? ==> Reported(session.Db(), r.value) && Rests(old(session.acts), r.value.status)
      // It comes to its end by itself only if the last turn found the conversation going on.
      ensures r.Raised? ==> session.errors > old(session.errors)
                            || (made == old(made) + turns && (turns > 0 ==> RebuildFrom(Play(last).db, session.run, 0).final.None?))
    {
      hide Legal, Play, Asks, Sends, Reported, Rests, AtRest, Holds, AllWarranted, RebuildFrom;
      ghost var start := session.acts;
      last := start;
      NothingAsked(start);
      for turn := 0 to turns
        invariant session.Since(start) && AllWarranted()
        invariant Asks(start, old(session.asked), session.asked) && Sends(old(session.sent), session.sent)
        invariant session.errors >= old(session.errors) && made == old(made) + turn
        invariant turn > 0 ==> RebuildFrom(Play(last).db, session.run, 0).final.None?
      {
        ghost var before, asked, sent := session.acts, session.asked, session.sent;
        StaysLaunched(start);
        var ended := Turn();
        AsksThrough(start, old(session.asked), before, asked, session.asked);
        SendsThrough(old(session.sent), sent, session.sent);
        if ended.Ok? && ended.value.Some? { RestsThrough(start, before, ended.value.value.status); }
        if ended.Raised? { return Raised(ended.error), last; }
        if ended.value.Some? { return Ok(ended.value.value), last; }
        last := before;
      }
      return Raised(Unexpected), last;
    }

    // The text is the one the conversation ends with, and a completed run has one.
    ghost predicate Reported(s: State, result: AgentResult) {
      result.final == RebuildFrom(s, session.run, 0).final && (result.status == Completed ==> result.final.Some?)
    }

    /** An attempt carries exactly the opening of the run and its rebuilt conversation,
        for the database it was read from; it is for the iteration at which that
        conversation stops, is numbered by the failures that were read, when no earlier
        attempt was alive, and keeps the two limits. */
    ghost predicate Rightly(a: Asking) {
      var s, t, spec := Play(a.rebuilt).db, Play(a.listed).db, RebuildFrom(Play(a.rebuilt).db, session.run, 0);
      && a.rebuilt <= a.listed && session.run in s.runs && spec.final.None?
      && a.id == StepId(session.run, "completion",
                        ModelInput(spec.iteration, |AgentRacing.Failed(t, session.run, spec.iteration)| + 1, config.model,
                                   InitialMessages(config.defaultPrompt, config.defaultMemory, s.runs[session.run].identity) + spec.messages),
                        ReadOnly, Some(spec.iteration * 1000))
      && (forall x <- t.steps :: IsModel(x, session.run, spec.iteration) ==> Dead(t.steps[x].status))
      && spec.iteration < config.maxIterations && |AgentRacing.Failed(t, session.run, spec.iteration)| < config.maxIterations
    }

    // Every attempt created in between was asked for rightly, with a conversation that
    // was rebuilt no earlier than `from`.
    ghost predicate Asks(from: seq<Act>, before: seq<Asking>, after: seq<Asking>) {
      before <= after && forall a <- after[|before|..] :: from <= a.rebuilt && Rightly(a)
    }

    // Every conversation sent in between is the one its attempt asks for.
    ghost predicate Sends(before: seq<(StepId, seq<Message>)>, after: seq<(StepId, seq<Message>)>) {
      before <= after && forall p <- after[|before|..] :: p.0.run == session.run && p.0.input.ModelInput? && p.1 == p.0.input.messages
    }

    lemma AsksThrough(from: seq<Act>, a: seq<Asking>, later: seq<Act>, b: seq<Asking>, c: seq<Asking>)
      requires from <= later && Asks(from, a, b) && Asks(later, b, c)
      ensures Asks(from, a, c)
    {
      hide Rightly;
      assert c[|a|..] == b[|a|..] + c[|b|..];
    }

    lemma SendsThrough(a: seq<(StepId, seq<Message>)>, b: seq<(StepId, seq<Message>)>, c: seq<(StepId, seq<Message>)>)
      requires Sends(a, b) && Sends(b, c)
      ensures Sends(a, c)
    {
      assert c[|a|..] == b[|a|..] + c[|b|..];
    }

    lemma NothingAsked(from: seq<Act>)
      ensures Asks(from, session.asked, session.asked) && Sends(session.sent, session.sent)
    {
    }

    lemma OneAsked(before: seq<Asking>, a: Asking)
      requires Rightly(a)
      ensures Asks(a.rebuilt, before, before + [a])
    {
    }

    lemma OneSent(before: seq<(StepId, seq<Message>)>, id: StepId)
      requires id.run == session.run && id.input.ModelInput?
      ensures Sends(before, before + [(id, id.input.messages)])
    {
    }

    // One turn of the loop; a result when the loop ends with it.
    method Turn() returns (r: Result<Option<AgentResult>>)
      requires session.Valid() && AllWarranted() && Launched(session.Db())
      modifies this, session, session.journal
      ensures session.Since(old(session.acts)) && AllWarranted()
      ensures Asks(old(session.acts), old(session.asked), session.asked) && Sends(old(session.sent), session.sent)
      ensures Counted(r, old(session.errors), session.errors)
      ensures r.Ok? && r.value.Some? ==> Reported(session.Db(), r.value.value) && Rests(old(session.acts), r.value.value.status)
      ensures made == old(made) + 1
      // The loop goes on only while the conversation has no end; calls that were
      // outstanding are done then, and otherwise the model has answered or is asked again.
      ensures r == Ok(None) ==> Advanced(old(session.Db()), session.Db())
    {
      hide Inv, Grows, RebuildFrom, ReadyFor, JournalHistory.Extends, Legal, Play, InitialMessages, Asks, Sends, Holds, Rests, AtRest, AllWarranted;
      hide Advanced, Asked;
      made := made + 1;
      ghost var entry := session.acts;
      NothingAsked(entry);
      var rebuilt :- Rebuild();
      ghost var before := session.acts;
      if rebuilt.final.Some? {
        var result :- Conclude();
        RestsThrough(entry, before, result.status);
        return Ok(Some(result));
      }
      if rebuilt.iteration >= config.maxIterations {
        IsAtLimit();
        var result :- StopFailed("runtime.iteration_limit", "maximum model iterations reached", None, IterationLimit, before);
        RestsThrough(entry, before, result.status);
        return Ok(Some(result));
      }
      StaysLaunched(entry);
      r := Step(rebuilt.messages, rebuilt.iteration);
      if r == Ok(None) {
        AdvancesFrom(entry, before);
      } else if r.Ok? {
        RestsThrough(entry, before, r.value.value.status);
      }
      AsksThrough(entry, old(session.asked), before, old(session.asked), session.asked);
    }

    // The conversation has come to its end.
    method Conclude() returns (r: Result<AgentResult>)
      requires session.Valid() && AllWarranted() && RebuildFrom(session.Db(), session.run, 0).final.Some?
      modifies session`acts, session`errors, session`deeds, session.journal
      ensures session.Since(old(session.acts)) && AllWarranted()
      ensures Counted(r, old(session.errors), session.errors)
      ensures r.Ok? ==> Reported(session.Db(), r.value) && Rests(old(session.acts), r.value.status)
    {
      hide Legal, Play, Holds, AllWarranted, Rests, RebuildFrom;
      ghost var entry := session.acts;
      IsFinished();
      var _ :- Mark(Completed, Finished, entry);
      ghost var ended := session.acts;
      r := Outcome();
      if r.Ok? { RestedAt(entry, ended, r.value.status); }
    }

    // Carry out the calls that are outstanding, or else ask the model.
    method Step(messages: seq<Message>, i: nat) returns (r: Result<Option<AgentResult>>)
      requires session.Valid() && AllWarranted() && Launched(session.Db())
      requires RebuiltAt(session.acts, messages, i) && ReadyFor(session.Db(), session.run, i) && i < config.maxIterations
      modifies session, session.journal
      ensures session.Since(old(session.acts)) && AllWarranted()
      ensures Asks(old(session.acts), old(session.asked), session.asked) && Sends(old(session.sent), session.sent)
      ensures Counted(r, old(session.errors), session.errors)
      ensures r.Ok? && r.value.Some? ==> Reported(session.Db(), r.value.value) && Rests(old(session.acts), r.value.value.status)
      ensures r == Ok(None) ==> Advanced(old(session.Db()), session.Db())
    {
      hide Inv, Grows, RebuildFrom, ReadyFor, JournalHistory.Extends, Legal, Play, InitialMessages, Asks, Sends, Holds, Rests, AllWarranted;
      hide Advanced, Asked, RebuiltAt, HasModel, OutputsDone, Reported;
      ghost var entry := session.acts;
      NothingAsked(entry);
      var calls := OutstandingToolCalls(i);
      ghost var listed := session.acts;
      if calls != [] {
        r := ToolTurn(i, calls);
      } else {
        session.Later(entry);
        ReadyForStable(session.reg, Play(entry).db, session.Db(), session.run, i);
        StaysLaunched(entry);
        r := ModelTurn(messages, i, entry);
      }
      if r == Ok(None) {
        Goes(entry, listed, i, messages);
      } else if r.Ok? {
        RestsThrough(entry, listed, r.value.value.status);
      }
    }

    // From `s` to `t` the conversation went on by a turn.
    ghost predicate Advanced(s: State, t: State) {
      var i := RebuildFrom(s, session.run, 0).iteration;
      && RebuildFrom(s, session.run, 0).final.None?
      && (HasModel(s, session.run, i) ==> OutputsDone(t, session.run, i))
      && (HasModel(t, session.run, i) || HasStatus(t, Running))
    }

    predicate HasStatus(s: State, status: RunStatus) {
      session.run in s.runs && s.runs[session.run].status == status
    }

    // The calls listed for the iteration were done, and the model was asked for it.
    lemma Goes(before: seq<Act>, listed: seq<Act>, i: nat, messages: seq<Message>)
      requires session.Since(listed) && before <= listed && RebuiltAt(before, messages, i)
      requires var l := Play(listed).db; HasModel(l, session.run, i) ==> CallsAt(l, session.run, i) == [] || OutputsDone(session.Db(), session.run, i)
      requires OutputsDone(session.Db(), session.run, i) || HasModel(session.Db(), session.run, i) || HasStatus(session.Db(), Running)
      ensures Advanced(Play(before).db, session.Db())
    {
      hide Inv, Grows, RebuildFrom, ReadyFor, OutputsDone, HasModel, CallsAt, Legal, Play, InitialMessages;
      Between(before, listed);
      AdvancesNow(Play(before).db, Play(listed).db, session.Db(), i);
    }

    lemma AdvancesNow(s: State, l: State, t: State, i: nat)
      requires Grows(session.reg, s, l, session.run)
      requires RebuildFrom(s, session.run, 0).final.None? && RebuildFrom(s, session.run, 0).iteration == i
      requires HasModel(l, session.run, i) ==> CallsAt(l, session.run, i) == [] || OutputsDone(t, session.run, i)
      requires OutputsDone(t, session.run, i) || HasModel(t, session.run, i) || HasStatus(t, Running)
      ensures Advanced(s, t)
    {
      hide Inv, Grows, RebuildFrom, OutputAt, HasModel, CompletionAt;
      if HasModel(s, session.run, i) {
        StopsAtCalls(s, session.run, 0);
        GrowsExtends(session.reg, s, l, session.run);
        CompletionStable(s, l, session.run, i);
      }
    }

    // What was an advance from a later moment is one from an earlier one.
    lemma AdvancesFrom(entry: seq<Act>, before: seq<Act>)
      requires session.Since(before) && entry <= before && Advanced(Play(before).db, session.Db())
      requires ReadyFor(Play(before).db, session.run, RebuildFrom(Play(before).db, session.run, 0).iteration)
      ensures Advanced(Play(entry).db, session.Db())
    {
      hide Inv, Grows, RebuildFrom, ReadyFor, OutputsDone, HasModel, Legal, Play, Advanced;
      Between(entry, before);
      session.Later(before);
      AdvancesThrough(Play(entry).db, Play(before).db, session.Db());
    }

    lemma Between(before: seq<Act>, later: seq<Act>)
      requires session.Since(later) && before <= later
      ensures Grows(session.reg, Play(before).db, Play(later).db, session.run) && Inv(session.reg, Play(later).db, session.run)
    {
      hide Inv, Grows, Play;
      assert session.acts[..|later|] == later && later[..|before|] == before;
      PlayGrows(session.reg, session.run, session.acts, |later|);
      PlayGrows(session.reg, session.run, later, |before|);
      PlayKeepsInv(session.reg, session.run, later);
    }

    lemma AdvancesThrough(s: State, m: State, t: State)
      requires Grows(session.reg, s, m, session.run) && Grows(session.reg, m, t, session.run) && Advanced(m, t)
      requires ReadyFor(m, session.run, RebuildFrom(m, session.run, 0).iteration)
      ensures Advanced(s, t)
    {
      hide Inv, Grows, RebuildFrom, OutputAt, HasModel, CompletionAt;
      var run := session.run;
      RebuildStable(session.reg, s, m, run, 0);
      var first, i := RebuildFrom(s, run, 0).iteration, RebuildFrom(m, run, 0).iteration;
      if first < i {
        OutputsDoneStable(session.reg, m, t, run, first);
      } else if HasModel(s, run, first) {
        GrowsExtends(session.reg, s, m, run);
        CompletionStable(s, m, run, first);
      }
    }

    lemma GrowsExtends(reg: Registry, s: State, t: State, run: RunId)
      requires Grows(reg, s, t, run)
      ensures JournalHistory.Extends(s, t) && OneLiveModel(t, run)
    {
    }

    // A conversation that stops at a committed model stops for its calls.
    lemma {:induction false} StopsAtCalls(s: State, run: RunId, i: nat)
      requires RebuildFrom(s, run, i).final.None? && HasModel(s, run, RebuildFrom(s, run, i).iteration)
      ensures CallsAt(s, run, RebuildFrom(s, run, i).iteration) != []
      decreases |ModelsFrom(s, run, i)|
    {
      if HasModel(s, run, i) && CallsAt(s, run, i) != [] && OutputsDone(s, run, i) {
        ModelsShrink(s, run, i);
        StopsAtCalls(s, run, i + 1);
      }
    }

    method ToolTurn(i: nat, calls: seq<ToolCall>) returns (r: Result<Option<AgentResult>>)
      requires session.Valid() && AllWarranted() && Asked(session.Db(), session.run, i, calls)
      modifies session`acts, session`errors, session`deeds, session`taken, session`started, session`answers, session.journal
      ensures session.Since(old(session.acts)) && AllWarranted()
      ensures Counted(r, old(session.errors), session.errors)
      ensures r.Ok? && r.value.Some? ==> Reported(session.Db(), r.value.value) && Rests(old(session.acts), r.value.value.status)
      // It goes on with every result recorded, unless the last groups were all the same.
      ensures r == Ok(None) ==> OutputsDone(session.Db(), session.run, i)
                                && exists ids :: IsListing(session.Db(), session.run, ids)
                                                 && !Repeats(Signatures(session.Db(), ids), config.noProgressThreshold)
    {
      hide Legal, Play, Asked, OutputsDone, GroupDone, Holds, Rests, AtRest, AllWarranted, Awaits, Inv, Grows, RebuildFrom, Reported;
      hide Repeats, Signatures, IsListing, GroupStuck, JournalHistory.Extends;
      ghost var entry := session.acts;
      var outcome, index :- ExecuteToolGroup(i, calls);
      ghost var done := session.acts;
      if outcome != Continue {
        var result :- Outcome();
        if outcome == GroupPaused && !Stopped(Play(done).db, session.run) { AwaitedAt(entry, done, result.status, i, calls, index); }
        else { RestedAt(entry, done, result.status); }
        return Ok(Some(result));
      }
      session.Keeps();
      FinishedGroupHasOutputs(session.reg, session.Db(), session.run, i, calls);
      var repeated := HasRepeatedToolCalls();
      session.Later(done);
      OutputsDoneStable(session.reg, Play(done).db, session.Db(), session.run, i);
      if repeated {
        ghost var seen := session.acts;
        var result :- StopRepeating();
        RestsThrough(entry, seen, result.status);
        return Ok(Some(result));
      }
      return Ok(None);
    }

    // The last groups of calls were all the same.
    method StopRepeating() returns (r: Result<AgentResult>)
      requires session.Valid() && AllWarranted()
      requires exists ids :: IsListing(session.Db(), session.run, ids) && Repeats(Signatures(session.Db(), ids), config.noProgressThreshold)
      modifies session`acts, session`errors, session`deeds, session.journal
      ensures session.Since(old(session.acts)) && AllWarranted()
      ensures Counted(r, old(session.errors), session.errors)
      ensures r.Ok? ==> Reported(session.Db(), r.value) && Rests(old(session.acts), r.value.status)
    {
      hide Legal, Play, Holds, AllWarranted, Rests, Repeats, Signatures, Reported;
      ghost var ids :| IsListing(session.Db(), session.run, ids) && Repeats(Signatures(session.Db(), ids), config.noProgressThreshold);
      IsRepeating(ids);
      r := StopFailed("runtime.no_progress", "repeated identical tool-call sets", None, NoProgress(ids), session.acts);
    }

    // The messages and the iteration come from the database as it was then.
    ghost predicate RebuiltAt(seen: seq<Act>, messages: seq<Message>, i: nat) {
      var s := Play(seen).db;
      && session.run in s.runs && RebuildFrom(s, session.run, 0).final.None? && RebuildFrom(s, session.run, 0).iteration == i
      && messages == InitialMessages(config.defaultPrompt, config.defaultMemory, s.runs[session.run].identity)
                     + RebuildFrom(s, session.run, 0).messages
    }

    method ModelTurn(messages: seq<Message>, i: nat, ghost rebuilt: seq<Act>) returns (r: Result<Option<AgentResult>>)
      requires Launched(session.Db())
      requires session.Valid() && AllWarranted() && ReadyFor(session.Db(), session.run, i)
      requires session.Since(rebuilt) && RebuiltAt(rebuilt, messages, i) && i < config.maxIterations
      modifies session`acts, session`errors, session`taken, session`deeds, session`asked, session`sent, session.journal
      ensures session.Since(old(session.acts)) && AllWarranted()
      ensures Asks(rebuilt, old(session.asked), session.asked) && Sends(old(session.sent), session.sent)
      ensures Counted(r, old(session.errors), session.errors)
      ensures r.Ok? && r.value.Some? ==> Reported(session.Db(), r.value.value) && Rests(old(session.acts), r.value.value.status)
      ensures r == Ok(None) ==> HasModel(session.Db(), session.run, i) || HasStatus(session.Db(), Running)
      // A completion that is there is not asked for again.
      ensures HasModel(old(session.Db()), session.run, i) && r.Ok? ==> r.value.None? && session.asked == old(session.asked)
    {
      hide Legal, Play, ReadyFor, Asks, Sends, RebuiltAt, HasModel, Rests, AtRest, Holds, AllWarranted;
      ghost var entry := session.acts;
      var completed :- ExecuteModel(messages, i, rebuilt);
      if !completed {
        var row :- session.GetRun();
        if row.status != Running {
          ghost var seen := session.acts;
          StaysLaunched(entry);
          var result :- Outcome();
          RestedAt(entry, seen, result.status);
          return Ok(Some(result));
        }
      }
      return Ok(None);
    }

    method Rebuild() returns (r: Result<Rebuilt>)
      requires session.Valid()
      modifies session`acts, session`errors, session.journal
      ensures session.Since(old(session.acts))
      ensures Counted(r, old(session.errors), session.errors)
      // The whole conversation, as the database has it when this returns.
      ensures r.Ok? ==> session.run in session.Db().runs
      ensures r.Ok? ==> var spec := RebuildFrom(session.Db(), session.run, 0);
                        && r.value.final == spec.final && r.value.iteration == spec.iteration
                        && r.value.messages == InitialMessages(config.defaultPrompt, config.defaultMemory, session.Db().runs[session.run].identity)
                                               + spec.messages
      ensures r.Ok? && r.value.final.None? ==> ReadyFor(session.Db(), session.run, r.value.iteration)
    {
      hide RebuildFrom, ReadyFor, InitialMessages;
      var row :- session.GetRun();
      ghost var before := session.acts;
      var ids := session.ListSteps();
      IdentityStays(before);
      session.Keeps();
      RebuildIsReady(session.Db(), session.run, 0);
      var rebuilt := Reconstruct(session.reg, session.Db(), session.run, ids,
                                 InitialMessages(config.defaultPrompt, config.defaultMemory, row.identity));
      return Ok(rebuilt);
    }

    lemma IdentityStays(before: seq<Act>)
      requires session.Since(before)
      ensures var s := Play(before).db;
              session.run in s.runs ==> session.run in session.Db().runs
                                        && session.Db().runs[session.run].identity == s.runs[session.run].identity
    {
      hide Inv, Grows, Legal, Play;
      session.Later(before);
      var s := Play(before).db;
      if session.run in s.runs { assert JournalHistory.RunEvolves(s.runs[session.run], session.Db().runs[session.run]); }
    }

    method Outcome() returns (r: Result<AgentResult>)
      requires session.Valid()
      modifies session`acts, session`errors, session.journal
      ensures session.Since(old(session.acts))
      ensures Counted(r, old(session.errors), session.errors)
      ensures r.Ok? && Ended(old(session.Db())) ==> r.value.status == old(session.Db()).runs[session.run].status
      ensures r.Ok? ==> Reported(session.Db(), r.value)
      // The status is the one the run had.
      ensures r.Ok? ==> Tells(old(session.acts), r.value.status)
    {
      hide Inv, RebuildFrom, ReadyFor, JournalHistory.Extends, Grows, Legal, Play, Tells;
      ghost var entry := session.acts;
      var row :- session.GetRun();
      EndedStays(entry);
      ghost var before := session.acts;
      EndIsReached();
      var rebuilt :- Rebuild();
      session.Later(before);
      RebuildStable(session.reg, Play(before).db, session.Db(), session.run, 0);
      ToldAt(entry, before, row.status);
      return Ok(AgentResult(row.status, rebuilt.final));
    }

    predicate Ended(s: State) {
      session.run in s.runs && JournalHistory.RunEnded(s.runs[session.run].status)
    }

    lemma EndedStays(before: seq<Act>)
      requires session.Since(before)
      ensures Ended(Play(before).db) ==>
                Ended(session.Db()) && session.Db().runs[session.run].status == Play(before).db.runs[session.run].status
    {
      session.Later(before);
      if Ended(Play(before).db) {
        assert JournalHistory.RunEvolves(Play(before).db.runs[session.run], session.Db().runs[session.run]);
      }
    }

    lemma EndIsReached()
      requires session.Valid()
      ensures EndReached(session.Db(), session.run)
    {
      session.Keeps();
    }

    method OutstandingToolCalls(i: nat) returns (calls: seq<ToolCall>)
      requires session.Valid()
      modifies session`acts, session.journal
      ensures session.Since(old(session.acts))
      // The calls the committed model of the iteration asked for, none without one.
      ensures if HasModel(session.Db(), session.run, i) then calls == CallsAt(session.Db(), session.run, i) else calls == []
      ensures calls != [] ==> Asked(session.Db(), session.run, i, calls)
    {
      hide Inv, Legal, Play, CompletionAt, HasModel;
      var ids := session.ListSteps();
      var s := session.Db();
      for n := 0 to |ids|
        invariant forall m | 0 <= m < n :: !CommittedModel(s, session.run, i, ids[m])
      {
        if IsModel(ids[n], session.run, i) && IsCommittedModel(s, ids[n]) {
          CallsAre(i, ids[n]);
          return CompletionOf(s, ids[n]).message.toolCalls;
        }
      }
      NoModel(s, i, ids);
      return [];
    }

    lemma CallsAre(i: nat, id: StepId)
      requires session.Valid() && CommittedModel(session.Db(), session.run, i, id)
      ensures HasModel(session.Db(), session.run, i)
      ensures CallsAt(session.Db(), session.run, i) == CompletionOf(session.Db(), id).message.toolCalls
      ensures Asked(session.Db(), session.run, i, CompletionOf(session.Db(), id).message.toolCalls)
    {
      session.Keeps();
      CompletionIs(session.Db(), session.run, i, id);
    }

    lemma NoModel(s: State, i: nat, ids: seq<StepId>)
      requires IsListing(s, session.run, ids) && forall m | 0 <= m < |ids| :: !CommittedModel(s, session.run, i, ids[m])
      ensures !HasModel(s, session.run, i)
    {
      forall id ensures !CommittedModel(s, session.run, i, id) { assert id in ids || id !in s.steps || id.run != session.run; }
    }

    // --- model attempts ---

    method ExecuteModel(messages: seq<Message>, i: nat, ghost rebuilt: seq<Act>) returns (r: Result<bool>)
      requires session.Valid() && AllWarranted() && ReadyFor(session.Db(), session.run, i)
      requires session.Since(rebuilt) && RebuiltAt(rebuilt, messages, i) && i < config.maxIterations
      modifies session`acts, session`errors, session`taken, session`deeds, session`asked, session`sent, session.journal
      ensures session.Since(old(session.acts)) && AllWarranted()
      ensures Asks(rebuilt, old(session.asked), session.asked) && Sends(old(session.sent), session.sent)
      ensures Counted(r, old(session.errors), session.errors)
      ensures r == Ok(true) ==> HasModel(session.Db(), session.run, i)
      // A completion that is there is not asked for again.
      ensures HasModel(old(session.Db()), session.run, i) && r.Ok? ==>
                r == Ok(true) && session.asked == old(session.asked) && session.sent == old(session.sent)
      // Otherwise either the attempts are used up and the run has ended, or an attempt was
      // taken by someone else or has failed.
      ensures r == Ok(false) ==> Ended(session.Db()) || exists id :: PassedBy(session.Db(), i, id)
      ensures r == Ok(false) && session.taken != old(session.taken) ==>
                exists id :: session.taken == old(session.taken) + [id] && PassedBy(session.Db(), i, id) && session.Db().steps[id].status == Failed
    {
      hide ReadyFor, Grows, Inv, JournalHistory.Extends, HasModel, Legal, Play, Dead, Asks, Sends, RebuiltAt, Holds, AllWarranted, Rightly;
      hide Rests, Reported;
      NothingAsked(rebuilt);
      var prior :- PriorAttempts(i);
      if prior.committed { return Ok(true); }
      if prior.failures >= config.maxIterations {
        IsExhausted(i);
        var _ :- StopFailed("provider.attempt_limit", "provider retry limit reached", None, AttemptLimit(i), session.acts);
        return Ok(false);
      }
      var id;
      if prior.resumable.None? {
        id := StepId(session.run, "completion", ModelInput(i, prior.failures + 1, config.model, messages), ReadOnly, Some(i * 1000));
        var created := CreateAttempt(id, messages, i, rebuilt);
        if created.Raised? { return Raised(created.error); }
        if session.journal.steps[id].status == Committed {
          CommittedAttempt(id, i);
          return Ok(true);
        }
      } else {
        id := prior.resumable.value;
      }
      r := RunAttempt(id, i);
    }

    // An attempt of the iteration that is not waiting to be claimed.
    predicate PassedBy(s: State, i: nat, id: StepId) {
      IsModel(id, session.run, i) && id in s.steps && s.steps[id].status != Ready
    }

    method CreateAttempt(id: StepId, messages: seq<Message>, i: nat, ghost rebuilt: seq<Act>) returns (r: Result<()>)
      requires session.Valid() && ReadyFor(session.Db(), session.run, i)
      requires session.Since(rebuilt) && RebuiltAt(rebuilt, messages, i) && i < config.maxIterations
      requires var t := session.Db();
               && |AgentRacing.Failed(t, session.run, i)| < config.maxIterations
               && (forall x <- t.steps :: IsModel(x, session.run, i) ==> Dead(t.steps[x].status))
               && id == StepId(session.run, "completion", ModelInput(i, |AgentRacing.Failed(t, session.run, i)| + 1, config.model, messages),
                               ReadOnly, Some(i * 1000))
      modifies session`acts, session`errors, session`asked, session.journal
      ensures session.Since(old(session.acts)) && Asks(rebuilt, old(session.asked), session.asked)
      ensures Counted(r, old(session.errors), session.errors)
      ensures r.Ok? ==> id in session.Db().steps
    {
      hide ReadyFor, Legal, Play, Asks, RebuiltAt;
      ghost var a := Asking(id, rebuilt, session.acts);
      IsRightly(a, messages, i);
      OneAsked(session.asked, a);
      r := session.CreateModelStep(id, rebuilt, session.acts);
    }

    // Claim an attempt and have it completed.
    method RunAttempt(id: StepId, i: nat) returns (r: Result<bool>)
      requires session.Valid() && AllWarranted() && IsModel(id, session.run, i) && id in session.Db().steps
      modifies session`acts, session`errors, session`taken, session`deeds, session`sent, session.journal
      ensures session.Since(old(session.acts)) && AllWarranted() && Sends(old(session.sent), session.sent)
      ensures Counted(r, old(session.errors), session.errors)
      ensures r == Ok(true) ==> HasModel(session.Db(), session.run, i)
      // An attempt that is claimed is carried out; one that is passed is not ready.
      ensures r == Ok(false) ==> PassedBy(session.Db(), i, id)
      ensures r == Ok(false) ==> session.taken == old(session.taken)
                                 || (session.taken == old(session.taken) + [id] && session.Db().steps[id].status == Failed)
      ensures session.sent != old(session.sent) ==> session.taken == old(session.taken) + [id]
    {
      hide Legal, Play, HasModel, Sends, Holds, AllWarranted;
      NothingAsked(session.acts);
      OneSent(session.sent, id);
      var claimed :- session.Claim(id);
      if !claimed { return Ok(false); }
      var _ :- session.MarkExecuting(id);
      r := Complete(id);
      if r == Ok(true) { CommittedAttempt(id, i); }
    }

    lemma IsRightly(a: Asking, messages: seq<Message>, i: nat)
      requires a.rebuilt <= a.listed && RebuiltAt(a.rebuilt, messages, i) && i < config.maxIterations
      requires var t := Play(a.listed).db;
               && |AgentRacing.Failed(t, session.run, i)| < config.maxIterations
               && (forall x <- t.steps :: IsModel(x, session.run, i) ==> Dead(t.steps[x].status))
               && a.id == StepId(session.run, "completion", ModelInput(i, |AgentRacing.Failed(t, session.run, i)| + 1, config.model, messages),
                                 ReadOnly, Some(i * 1000))
      ensures Rightly(a)
    {
    }

    lemma CommittedAttempt(id: StepId, i: nat)
      requires session.Valid() && IsModel(id, session.run, i)
      requires id in session.Db().steps && session.Db().steps[id].status == Committed
      ensures HasModel(session.Db(), session.run, i)
    {
      session.Keeps();
      assert CommittedModel(session.Db(), session.run, i, id);
    }

    // What the runtime learns from the earlier attempts of an iteration.
    method PriorAttempts(i: nat) returns (r: Result<Prior>)
      requires session.Valid() && ReadyFor(session.Db(), session.run, i)
      modifies session`acts, session`errors, session.journal
      ensures session.Since(old(session.acts))
      ensures Counted(r, old(session.errors), session.errors)
      ensures ReadyFor(session.Db(), session.run, i)
      ensures r.Ok? ==> (r.value.committed <==> HasModel(session.Db(), session.run, i))
      ensures HasModel(old(session.Db()), session.run, i) ==> HasModel(session.Db(), session.run, i)
      ensures r.Ok? && r.value.resumable.Some? ==>
                r.value.resumable.value in session.Db().steps && IsModel(r.value.resumable.value, session.run, i)
      ensures r.Ok? && !r.value.committed && r.value.resumable.None? ==>
                forall x <- session.Db().steps :: IsModel(x, session.run, i) ==> Dead(session.Db().steps[x].status)
      ensures r.Ok? ==> r.value.failures == |AgentRacing.Failed(session.Db(), session.run, i)|
    {
      hide ReadyFor, Grows, JournalHistory.Extends, Inv, Legal, Play, HasModel, Dead, IsListing;
      ghost var before := session.acts;
      var ids := session.ListSteps();
      session.Later(before);
      ReadyForStable(session.reg, Play(before).db, session.Db(), session.run, i);
      StillAnswered(before, i);
      RowsAreTyped(ids);
      var prior := PriorAmong(session.Db(), ids, i);
      return Ok(prior);
    }

    lemma StillAnswered(before: seq<Act>, i: nat)
      requires session.Since(before)
      ensures HasModel(Play(before).db, session.run, i) ==> HasModel(session.Db(), session.run, i)
    {
      hide Inv, Grows, HasModel, Legal, Play;
      session.Later(before);
      session.Keeps();
      if HasModel(Play(before).db, session.run, i) {
        GrowsExtends(session.reg, Play(before).db, session.Db(), session.run);
        CompletionStable(Play(before).db, session.Db(), session.run, i);
      }
    }

    lemma RowsAreTyped(ids: seq<StepId>)
      requires session.Valid() && IsListing(session.Db(), session.run, ids)
      ensures TypedOutputs(session.Db(), session.run) && forall id <- ids :: id in session.Db().steps && session.Db().steps[id].status != Created
    {
      session.Keeps();
    }

    method PriorAmong(s: State, ids: seq<StepId>, i: nat) returns (prior: Prior)
      requires IsListing(s, session.run, ids) && TypedOutputs(s, session.run) && forall id <- ids :: s.steps[id].status != Created
      ensures prior.committed <==> HasModel(s, session.run, i)
      ensures prior.resumable.Some? ==> prior.resumable.value in s.steps && IsModel(prior.resumable.value, session.run, i)
      ensures !prior.committed && prior.resumable.None? ==>
                forall x <- s.steps :: IsModel(x, session.run, i) ==> Dead(s.steps[x].status)
      ensures prior.failures == |AgentRacing.Failed(s, session.run, i)|
    {
      hide FailedAmong, TypedOutputs;
      prior := Prior(false, 0, None);
      NoneFailed(s, i);
      for n := 0 to |ids|
        invariant prior.committed ==> HasModel(s, session.run, i)
        invariant !prior.committed ==> forall x <- ids[..n] :: !CommittedModel(s, session.run, i, x)
        invariant prior.resumable.Some? ==> prior.resumable.value in s.steps && IsModel(prior.resumable.value, session.run, i)
        invariant !prior.committed && prior.resumable.None? ==>
                    forall x <- ids[..n] :: IsModel(x, session.run, i) ==> Dead(s.steps[x].status)
        invariant prior.failures == |FailedAmong(s, i, ids[..n])|
      {
        var id := ids[n];
        OneMoreFailed(s, i, ids, n);
        if IsModel(id, session.run, i) {
          match s.steps[id].status {
            case Committed =>
              CommittedIsModel(s, i, id);
              prior := prior.(committed := true);
            case Failed => prior := prior.(failures := prior.failures + 1);
            case Ready | Leased | Executing => prior := prior.(resumable := Some(id));
            case _ =>
          }
        }
      }
      assert ids[..|ids|] == ids;
      AllAmong(s, i, ids);
      if !prior.committed { NoModel(s, i, ids); }
    }

    lemma CommittedIsModel(s: State, i: nat, id: StepId)
      requires TypedOutputs(s, session.run) && id in s.steps && IsModel(id, session.run, i) && s.steps[id].status == Committed
      ensures HasModel(s, session.run, i)
    {
      assert CommittedModel(s, session.run, i, id);
    }

    lemma NoneFailed(s: State, i: nat)
      ensures FailedAmong(s, i, []) == {}
    {
    }

    lemma AllAmong(s: State, i: nat, ids: seq<StepId>)
      requires IsListing(s, session.run, ids)
      ensures FailedAmong(s, i, ids) == AgentRacing.Failed(s, session.run, i)
    {
    }

    ghost function FailedAmong(s: State, i: nat, ids: seq<StepId>): set<StepId> {
      set id <- s.steps | id in ids && IsModel(id, session.run, i) && s.steps[id].status == Failed
    }

    lemma OneMoreFailed(s: State, i: nat, ids: seq<StepId>, n: nat)
      requires n < |ids| && (forall a, b | 0 <= a < b < |ids| :: ids[a] != ids[b]) && ids[n] in s.steps
      ensures |FailedAmong(s, i, ids[..n + 1])| ==
              |FailedAmong(s, i, ids[..n])| + if IsModel(ids[n], session.run, i) && s.steps[ids[n]].status == Failed then 1 else 0
    {
      var prior, next := FailedAmong(s, i, ids[..n]), FailedAmong(s, i, ids[..n + 1]);
      assert ids[..n + 1] == ids[..n] + [ids[n]];
      assert ids[n] !in ids[..n];
      if IsModel(ids[n], session.run, i) && s.steps[ids[n]].status == Failed {
        assert next == prior + {ids[n]};
      } else {
        assert next == prior;
      }
    }

    // The provider call of a claimed attempt, with its billing.
    method Complete(id: StepId) returns (r: Result<bool>)
      requires session.Valid() && AllWarranted() && id.run == session.run && id.input.ModelInput?
      requires id in session.Db().steps && session.Db().steps[id].status == Executing && session.Db().steps[id].owner == Some(session.worker)
      modifies session`acts, session`errors, session`deeds, session`sent, session.journal
      ensures session.Since(old(session.acts)) && AllWarranted()
      ensures Counted(r, old(session.errors), session.errors)
      // The provider is sent the conversation the attempt asks for, once at most.
      ensures session.sent == old(session.sent) || session.sent == old(session.sent) + [(id, id.input.messages)]
      ensures r == Ok(true) ==> session.sent == old(session.sent) + [(id, id.input.messages)]
      ensures r == Ok(true) ==> id in session.Db().steps && session.Db().steps[id].status == Committed
      // An attempt that brings nothing has failed; one that was never sent has ended the run.
      ensures r == Ok(false) ==> id in session.Db().steps && session.Db().steps[id].status == Failed
      ensures r == Ok(false) && session.sent == old(session.sent) ==> Ended(session.Db())
      // No earlier call of the attempt is left open once the provider is asked again, and
      // the call is covered by a reservation.
      ensures session.sent != old(session.sent) ==> CallsClosed(old(session.Db()), session.Db(), id)
      ensures session.sent != old(session.sent) ==> Reserved(session.Db(), "budget_" + textOf(id))
    {
      hide Legal, Play, Holds, AllWarranted, CallsClosed;
      ghost var entry := session.acts;
      var _ :- AbandonStartedCalls(id);
      ghost var closed := session.acts;
      var reservation := "budget_" + textOf(id);
      var reserved := session.Reserve(reservation, config.reservation);
      if reserved == Raised(BudgetExceeded) {
        IsOverBudget();
        r := GiveUp(id, session.acts);
        return;
      }
      if reserved.Raised? { return Raised(reserved.error); }
      ghost var covered := session.acts;
      r := AskProvider(id, reservation);
      StillClosed(entry, closed, id);
      StillReserved(covered, reservation);
    }

    predicate Reserved(s: State, reservation: string) {
      && reservation in s.reservations && s.reservations[reservation].run == session.run
      && s.reservations[reservation].amount == config.reservation
    }

    lemma StillReserved(before: seq<Act>, reservation: string)
      requires session.Since(before) && Reserved(Play(before).db, reservation)
      ensures Reserved(session.Db(), reservation)
    {
      hide Inv, Grows, Legal, Play;
      session.Later(before);
      assert JournalHistory.ReservationEvolves(Play(before).db.reservations[reservation], session.Db().reservations[reservation]);
    }

    // The budget of the run does not cover another call.
    method GiveUp(id: StepId, ghost seen: seq<Act>) returns (r: Result<bool>)
      requires session.Valid() && AllWarranted() && seen <= session.acts && Holds(BudgetSpent, Play(seen).db)
      modifies session`acts, session`errors, session`deeds, session.journal
      ensures session.Since(old(session.acts)) && AllWarranted()
      ensures Counted(r, old(session.errors), session.errors)
      ensures r.Ok? ==> r == Ok(false) && Ended(session.Db())
      ensures r.Ok? ==> id in session.Db().steps && session.Db().steps[id].status == Failed
    {
      hide Legal, Play, Holds, AllWarranted, Rests, Reported;
      var _ :- session.Fail(id);
      ghost var failed := session.acts;
      var _ :- StopFailed("budget.exceeded", "budget exceeded", None, BudgetSpent, seen);
      StillTerminal(failed, id);
      return Ok(false);
    }

    method AskProvider(id: StepId, reservation: string) returns (r: Result<bool>)
      requires session.Valid() && id.run == session.run && id.input.ModelInput?
      modifies session`acts, session`errors, session`sent, session.journal
      ensures session.Since(old(session.acts))
      ensures Counted(r, old(session.errors), session.errors)
      ensures session.sent == old(session.sent) || session.sent == old(session.sent) + [(id, id.input.messages)]
      ensures r.Ok? ==> session.sent == old(session.sent) + [(id, id.input.messages)]
      ensures r.Ok? ==> id in session.Db().steps && session.Db().steps[id].status == if r.value then Committed else Failed
    {
      hide Legal, Play;
      var providerCall :- session.StartCall(id);
      var _ :- session.Heartbeat(id);
      var reply := session.Ask(id, id.input.messages);
      match reply
      case ProviderFailure =>
        var _ :- ReportFailure(id, providerCall, reservation);
        return Ok(false);
      case Answer(completion, microUsd) =>
        var _ :- SaveCompletion(id, providerCall, reservation, completion, microUsd);
        return Ok(true);
    }

    // A failed call is closed as such, one call is settled, and the attempt fails.
    method ReportFailure(id: StepId, providerCall: string, reservation: string) returns (r: Result<()>)
      requires session.Valid()
      modifies session`acts, session`errors, session.journal
      ensures session.Since(old(session.acts))
      ensures Counted(r, old(session.errors), session.errors)
      ensures r.Ok? ==> id in session.Db().steps && session.Db().steps[id].status == Failed
      ensures r.Ok? ==> ClosedAs(session.Db(), providerCall, CallFailed) && SettledAt(session.Db(), reservation, Amounts(1, 0, 0, 0))
    {
      hide Legal, Play, SettledAt, ClosedAs;
      var _ :- session.CompleteCall(providerCall, CallFailed);
      ghost var closed := session.acts;
      NowClosed(providerCall, CallFailed);
      var _ :- session.Settle(reservation, Amounts(1, 0, 0, 0));
      ghost var settled := session.acts;
      NowSettled(reservation, Amounts(1, 0, 0, 0));
      var _ :- session.Fail(id);
      ghost var failed := session.acts;
      r := session.AppendEvent("provider.retryable_failure", "response was not committed; retry may cause duplicate billing", Some(id));
      StillTerminal(failed, id);
      StillClosedAs(closed, providerCall, CallFailed);
      StillSettled(settled, reservation, Amounts(1, 0, 0, 0));
    }

    method SaveCompletion(id: StepId, providerCall: string, reservation: string, completion: Completion, microUsd: int)
      returns (r: Result<()>)
      requires session.Valid() && id.run == session.run && id.input.ModelInput?
      modifies session`acts, session`errors, session.journal
      ensures session.Since(old(session.acts))
      ensures Counted(r, old(session.errors), session.errors)
      ensures r.Ok? ==> id in session.Db().steps && session.Db().steps[id].status == Committed
                        && session.Db().steps[id].output == Some(CompletionOutput(completion))
      ensures r.Ok? ==> ClosedAs(session.Db(), providerCall, CallCompleted)
                        && SettledAt(session.Db(), reservation, Amounts(1, completion.totalTokens, microUsd, 0))
    {
      hide Legal, Play, SettledAt, ClosedAs;
      var _ :- session.Heartbeat(id);
      var _ :- session.CompleteCall(providerCall, CallCompleted);
      ghost var billed := session.acts;
      NowClosed(providerCall, CallCompleted);
      var _ :- session.Heartbeat(id);
      var _ :- session.Settle(reservation, Amounts(1, completion.totalTokens, microUsd, 0));
      ghost var settled := session.acts;
      NowSettled(reservation, Amounts(1, completion.totalTokens, microUsd, 0));
      var _ :- session.Heartbeat(id);
      r := session.Commit(id, CompletionOutput(completion), None);
      StillClosedAs(billed, providerCall, CallCompleted);
      StillSettled(settled, reservation, Amounts(1, completion.totalTokens, microUsd, 0));
    }

    predicate ClosedAs(s: State, providerCall: string, status: CallStatus) {
      status != Started && providerCall in s.calls && s.calls[providerCall].status == status
    }

    lemma NowClosed(providerCall: string, status: CallStatus)
      requires status != Started && providerCall in session.Db().calls && session.Db().calls[providerCall].status == status
      ensures ClosedAs(session.Db(), providerCall, status) && IsClosed(session.Db(), providerCall)
    {
    }

    lemma NowSettled(reservation: string, actual: Amounts)
      requires var s := session.Db();
               reservation in s.reservations && s.reservations[reservation].run == session.run && s.reservations[reservation].actual == Some(actual)
      ensures SettledAt(session.Db(), reservation, actual)
    {
    }

    // Every call of the step that was open before is closed.
    ghost predicate CallsClosed(s: State, t: State, id: StepId) {
      forall c <- s.calls | s.calls[c].run == session.run && s.calls[c].step == Some(id) && s.calls[c].status == Started ::
        c in t.calls && t.calls[c].status != Started
    }

    lemma StillClosed(before: seq<Act>, closed: seq<Act>, id: StepId)
      requires session.Since(closed) && CallsClosed(Play(before).db, Play(closed).db, id)
      ensures CallsClosed(Play(before).db, session.Db(), id)
    {
      hide Inv, Grows, Legal, Play;
      session.Later(closed);
      forall c <- Play(before).db.calls | c in Play(closed).db.calls ensures c in session.Db().calls {
        assert JournalHistory.CallEvolves(Play(closed).db.calls[c], session.Db().calls[c]);
      }
    }

    predicate SettledAt(s: State, reservation: string, actual: Amounts) {
      reservation in s.reservations && s.reservations[reservation].run == session.run && s.reservations[reservation].actual == Some(actual)
    }

    lemma StillClosedAs(before: seq<Act>, providerCall: string, status: CallStatus)
      requires session.Since(before)
      ensures ClosedAs(Play(before).db, providerCall, status) ==> ClosedAs(session.Db(), providerCall, status)
    {
      hide Inv, Grows, Legal, Play;
      session.Later(before);
      var s := Play(before).db;
      if providerCall in s.calls { assert JournalHistory.CallEvolves(s.calls[providerCall], session.Db().calls[providerCall]); }
    }

    lemma StillSettled(before: seq<Act>, reservation: string, actual: Amounts)
      requires session.Since(before)
      ensures SettledAt(Play(before).db, reservation, actual) ==> SettledAt(session.Db(), reservation, actual)
    {
      session.Later(before);
      var s := Play(before).db;
      if reservation in s.reservations {
        assert JournalHistory.ReservationEvolves(s.reservations[reservation], session.Db().reservations[reservation]);
      }
    }

    // The calls left open by an earlier try may have been billed.
    method AbandonStartedCalls(id: StepId) returns (r: Result<()>)
      requires session.Valid()
      modifies session`acts, session`errors, session.journal
      ensures session.Since(old(session.acts))
      ensures Counted(r, old(session.errors), session.errors)
      ensures r.Ok? ==> CallsClosed(old(session.Db()), session.Db(), id)
    {
      hide Legal, Play, CallsClosed, IsClosed, AllClosed;
      ghost var entry := session.acts;
      session.Interfere();
      var calls := session.journal.calls;
      ghost var listed := session.acts;
      var open := set c <- calls | calls[c].run == session.run && calls[c].step == Some(id) && calls[c].status == Started;
      var _ :- CloseCalls(open, id);
      OpenWereClosed(entry, listed, open, id);
      return Ok(());
    }

    method CloseCalls(open: set<string>, id: StepId) returns (r: Result<()>)
      requires session.Valid()
      modifies session`acts, session`errors, session.journal
      ensures session.Since(old(session.acts))
      ensures Counted(r, old(session.errors), session.errors)
      ensures r.Ok? ==> AllClosed(session.Db(), open)
    {
      hide Legal, Play, IsClosed, AllClosed;
      ghost var done := {};
      var todo := open;
      NoneOpen();
      while todo != {}
        invariant session.Since(old(session.acts)) && session.errors >= old(session.errors)
        invariant open == todo + done && AllClosed(session.Db(), done)
        decreases |todo|
      {
        var c :| c in todo;
        todo := todo - {c};
        ghost var before := session.acts;
        var _ :- session.CompleteCall(c, CallUncertain);
        NowClosed(c, CallUncertain);
        AllStayClosed(before, done);
        OneMoreClosed(done, c);
        done := done + {c};
        before := session.acts;
        var _ :- session.AppendEvent("provider.duplicate_billing_warning", "retry may cause duplicate billing", Some(id));
        AllStayClosed(before, done);
      }
      assert done == open;
      return Ok(());
    }

    lemma NoneOpen()
      ensures AllClosed(session.Db(), {})
    {
    }

    lemma OneMoreClosed(cs: set<string>, c: string)
      requires AllClosed(session.Db(), cs) && IsClosed(session.Db(), c)
      ensures AllClosed(session.Db(), cs + {c})
    {
    }

    predicate IsClosed(s: State, c: string) {
      c in s.calls && s.calls[c].status != Started
    }

    predicate AllClosed(s: State, cs: set<string>) {
      forall c <- cs :: IsClosed(s, c)
    }

    lemma AllStayClosed(before: seq<Act>, cs: set<string>)
      requires session.Since(before) && AllClosed(Play(before).db, cs)
      ensures AllClosed(session.Db(), cs)
    {
      hide Inv, Grows, Legal, Play;
      session.Later(before);
      forall c <- cs ensures IsClosed(session.Db(), c) {
        assert IsClosed(Play(before).db, c);
        assert JournalHistory.CallEvolves(Play(before).db.calls[c], session.Db().calls[c]);
      }
    }

    lemma OpenWereClosed(before: seq<Act>, listed: seq<Act>, open: set<string>, id: StepId)
      requires session.Since(listed) && before <= listed && AllClosed(session.Db(), open)
      requires var calls := Play(listed).db.calls;
               open == set c <- calls | calls[c].run == session.run && calls[c].step == Some(id) && calls[c].status == Started
      ensures CallsClosed(Play(before).db, session.Db(), id)
    {
      hide Inv, Grows, Legal, Play;
      Between(before, listed);
      GrowsExtends(session.reg, Play(before).db, Play(listed).db, session.run);
      session.Later(listed);
      var s, m, t := Play(before).db, Play(listed).db, session.Db();
      forall c <- s.calls | s.calls[c].run == session.run && s.calls[c].step == Some(id) && s.calls[c].status == Started
        ensures c in t.calls && t.calls[c].status != Started
      {
        assert JournalHistory.CallEvolves(s.calls[c], m.calls[c]) && JournalHistory.CallEvolves(m.calls[c], t.calls[c]);
        if c in open { assert IsClosed(t, c); }
      }
    }

    // --- tool groups ---

    /** Execute the calls of one iteration in order.  It goes on to the next model
        turn only when every call has committed under its own step. */
    method ExecuteToolGroup(i: nat, calls: seq<ToolCall>) returns (r: Result<Group>, ghost last: nat)
      requires session.Valid() && AllWarranted() && Asked(session.Db(), session.run, i, calls)
      modifies session`acts, session`errors, session`deeds, session`taken, session`started, session`answers, session.journal
      ensures session.Since(old(session.acts)) && AllWarranted()
      ensures Counted(r, old(session.errors), session.errors)
      ensures r == Ok(Continue) ==> Asked(session.Db(), session.run, i, calls)
                                    && GroupDone(session.reg, session.Db(), session.run, i, calls, |calls|)
      // An original that is uncertain, failed or cancelled keeps its group back for good;
      // a group that has committed is passed without starting a handler.
      ensures GroupStuck(session.reg, old(session.Db()), session.run, i, calls) ==> r != Ok(Continue)
      ensures GroupDone(session.reg, old(session.Db()), session.run, i, calls, |calls|) ==>
                r == Ok(Continue) && session.started == old(session.started)
      // It stops at a call that waits or is rejected, with the run stopped but for a call
      // that is claimed by someone else.
      ensures r.Ok? && r.value != Continue ==>
                Stopped(session.Db(), session.run) || (r.value == GroupPaused && Awaits(session.Db(), i, calls, last))
    {
      hide Asked, GroupDone, GroupStuck, Grows, Inv, JournalHistory.Extends, Legal, Play, Holds, AllWarranted;
      ghost var entry := session.acts;
      ghost var done := GroupDone(session.reg, session.Db(), session.run, i, calls, |calls|);
      last := 0;
      NothingDone(session.reg, session.Db(), session.run, i, calls);
      for index := 0 to |calls|
        invariant session.Since(entry) && AllWarranted() && session.errors >= old(session.errors)
        invariant done ==> session.started == old(session.started)
        invariant Asked(session.Db(), session.run, i, calls)
        invariant GroupDone(session.reg, session.Db(), session.run, i, calls, index)
      {
        DoneAt(entry, i, index, calls);
        last := index;
        var _ :- session.Entry(calls[index].name);
        ghost var before := session.acts;
        var outcome :- ExecuteCall(i, index, calls);
        session.Later(before);
        GroupStable(session.reg, Play(before).db, session.Db(), session.run, i, calls, index);
        if outcome != Continue { return Ok(outcome), last; }
        OneMoreDone(session.reg, session.Db(), session.run, i, calls, index);
      }
      NotStuck(entry, i, calls);
      return Ok(Continue), last;
    }

    // A group that was done before is still done.
    lemma DoneAt(before: seq<Act>, i: nat, index: nat, calls: seq<ToolCall>)
      requires session.Since(before) && index < |calls|
      ensures GroupDone(session.reg, Play(before).db, session.run, i, calls, |calls|) ==>
                && calls[index].name in session.reg
                && var id := Original(session.reg, session.run, i, index, calls[index]);
                   id in session.Db().steps && session.Db().steps[id].status == Committed
    {
      hide Inv, Grows, Legal, Play;
      session.Later(before);
      if GroupDone(session.reg, Play(before).db, session.run, i, calls, |calls|) {
        StillTerminal(before, Original(session.reg, session.run, i, index, calls[index]));
      }
    }

    lemma NotStuck(before: seq<Act>, i: nat, calls: seq<ToolCall>)
      requires session.Since(before) && GroupDone(session.reg, session.Db(), session.run, i, calls, |calls|)
      ensures !GroupStuck(session.reg, Play(before).db, session.run, i, calls)
    {
      hide GroupDone, GroupStuck, Inv, Grows, JournalHistory.Extends;
      session.Later(before);
      if GroupStuck(session.reg, Play(before).db, session.run, i, calls) {
        StuckForGood(session.reg, Play(before).db, session.Db(), session.run, i, calls);
      }
    }

    lemma NothingDone(reg: Registry, s: State, run: RunId, i: nat, calls: seq<ToolCall>)
      ensures GroupDone(reg, s, run, i, calls, 0)
    {
    }

    lemma OneMoreDone(reg: Registry, s: State, run: RunId, i: nat, calls: seq<ToolCall>, n: nat)
      requires n < |calls| && GroupDone(reg, s, run, i, calls, n) && calls[n].name in reg
      requires Original(reg, run, i, n, calls[n]) in s.steps && s.steps[Original(reg, run, i, n, calls[n])].status == Committed
      ensures GroupDone(reg, s, run, i, calls, n + 1)
    {
    }

    method ExecuteCall(i: nat, index: nat, calls: seq<ToolCall>) returns (r: Result<Group>)
      requires session.Valid() && AllWarranted() && Asked(session.Db(), session.run, i, calls)
      requires index < |calls| && calls[index].name in session.reg
      requires GroupDone(session.reg, session.Db(), session.run, i, calls, index)
      modifies session`acts, session`errors, session`deeds, session`taken, session`started, session`answers, session.journal
      ensures session.Since(old(session.acts)) && AllWarranted()
      ensures Counted(r, old(session.errors), session.errors)
      ensures r == Ok(Continue) ==>
                var id := Original(session.reg, session.run, i, index, calls[index]);
                id in session.Db().steps && session.Db().steps[id].status == Committed
      // A call that has committed is passed, and its handler not started again.
      ensures var id := Original(session.reg, session.run, i, index, calls[index]);
              id in old(session.Db()).steps && old(session.Db()).steps[id].status == Committed ==>
                r == Ok(Continue) && session.started == old(session.started)
      // Where a handler was started, what it returned is the recorded result.
      ensures r == Ok(Continue) && session.started != old(session.started) ==>
                Recording(session.Db(), old(session.answers), session.answers, Original(session.reg, session.run, i, index, calls[index]))
      // No handler is started for a call that lacks its approval.
      ensures session.started != old(session.started) ==>
                var id := Original(session.reg, session.run, i, index, calls[index]);
                session.started == old(session.started) + [id] && MayExecute(session.Db(), id, calls[index].name, id.safety)
      // A rejected call leaves its step and the run cancelled.
      ensures r == Ok(GroupCancelled) ==>
                var id := Original(session.reg, session.run, i, index, calls[index]);
                && id in session.Db().steps && session.Db().steps[id].status == Cancelled
                && session.run in session.Db().runs && session.Db().runs[session.run].status == RunCancelled
      ensures r == Ok(GroupFailed) ==> Ended(session.Db())
      // A call is passed without being executed only if the run is paused for it or its
      // step is not ready.
      ensures r == Ok(GroupPaused) ==>
                var id := Original(session.reg, session.run, i, index, calls[index]);
                && session.started == old(session.started)
                && (Stopped(session.Db(), session.run) || (id in session.Db().steps && session.Db().steps[id].status != Ready))
    {
      hide Legal, Play, Asked, Justified, GroupDone, Recording, Holds, AllWarranted, Undertaken, MayExecute, Exempt;
      var call := calls[index];
      var id := Original(session.reg, session.run, i, index, call);
      AskedIsJustified(session.reg, session.Db(), session.run, i, index, calls);
      var _ :- session.CreateStep(id);
      if session.journal.steps[id].status == Committed { return Ok(Continue); }
      var stopped :- Approve(id, call.name, id.safety, "tool approval required");
      if stopped.Some? { return Ok(stopped.value); }
      ghost var approved := session.acts;
      r := PerformCall(id, call);
      StillMayExecute(approved, id, call.name, id.safety);
    }

    // Claim, execute and commit an approved call.
    method PerformCall(id: StepId, call: ToolCall) returns (r: Result<Group>)
      requires session.Valid() && AllWarranted() && id.run == session.run && id.input.ToolInput? && call == id.input.call
      requires id in session.Db().steps
      modifies session`acts, session`errors, session`deeds, session`taken, session`started, session`answers, session.journal
      ensures session.Since(old(session.acts)) && AllWarranted()
      ensures Counted(r, old(session.errors), session.errors)
      ensures r == Ok(Continue) ==> id in session.Db().steps && session.Db().steps[id].status == Committed
      // What the handler returned is the recorded result.
      ensures r == Ok(Continue) ==> Recording(session.Db(), old(session.answers), session.answers, id)
      ensures r != Ok(GroupCancelled) && (r == Ok(GroupFailed) ==> Ended(session.Db()))
      ensures r == Ok(GroupPaused) ==> id in session.Db().steps && session.Db().steps[id].status != Ready
      ensures session.started == old(session.started) || session.started == old(session.started) + [id]
      // It is claimed only to be executed, and a handler that fails has it fail the run.
      ensures r.Ok? ==> Undertaken(old(session.taken), session.taken, old(session.started), session.started)
      ensures r.Ok? ==> (r == Ok(GroupPaused) <==> session.started == old(session.started))
      // A call that can be reconciled leaves a receipt with what was stored.
      ensures r == Ok(Continue) && id.safety == Reconcilable ==>
                && ToolReceipt(id) in session.Db().receipts && |session.answers| > |old(session.answers)|
                && session.Db().receipts[ToolReceipt(id)] ==
                     Receipt(session.run, id, AgentAnswers.Stored(call, session.answers[|old(session.answers)|].1))
    {
      hide Legal, Play, Recording, Holds, AllWarranted, Undertaken, Ended, HeldHere, Session.JustClaimed, IsTool;
      var attempt :- ClaimAndRun(id, "tool.failed", id);
      if attempt.Passed? { return Ok(GroupPaused); }
      if attempt.Broken? { return Ok(GroupFailed); }
      var output := CallOutput(call, attempt.result);
      var _ :- session.Commit(id, JsonOutput(output), if id.safety == Reconcilable then Some((ToolReceipt(id), output)) else None);
      NowRecorded(old(session.answers), id);
      return Ok(Continue);
    }

    // A step was claimed just in case its handler was started.
    predicate Undertaken(taken: seq<StepId>, takenNow: seq<StepId>, started: seq<StepId>, startedNow: seq<StepId>) {
      taken <= takenNow && started <= startedNow && takenNow[|taken|..] == startedNow[|started|..]
    }

    lemma NoneUndertaken(taken: seq<StepId>, started: seq<StepId>)
      ensures Undertaken(taken, taken, started, started)
    {
    }

    lemma OneUndertaken(taken: seq<StepId>, started: seq<StepId>, id: StepId)
      ensures Undertaken(taken, taken + [id], started, started + [id])
    {
    }

    lemma NowRecorded(before: seq<(StepId, Json)>, id: StepId)
      requires session.Valid() && IsTool(id, session.run)
      requires |session.answers| == |before| + 1 && before <= session.answers && session.answers[|before|].0 == id
      requires CommittedJson(session.Db(), id) == Some(CallOutput(id.input.call, session.answers[|before|].1))
      ensures Recording(session.Db(), before, session.answers, id)
    {
      session.Keeps();
      IsRecorded(session.reg, session.Db(), session.run, before, session.answers, id);
    }

    // A step is never deleted.
    lemma StepStays(before: seq<Act>, id: StepId)
      requires session.Since(before)
      ensures id in Play(before).db.steps ==> id in session.Db().steps
    {
      hide Inv, Grows, Legal, Play;
      session.Later(before);
    }

    method RejectCall(id: StepId, ghost a: string, ghost seen: seq<Act>) returns (r: Result<()>)
      requires session.Valid() && AllWarranted() && seen <= session.acts && Holds(RejectedBy(a), Play(seen).db)
      modifies session`acts, session`errors, session`deeds, session.journal
      ensures session.Since(old(session.acts)) && AllWarranted()
      ensures Counted(r, old(session.errors), session.errors)
      ensures r.Ok? ==> id in session.Db().steps && session.Db().steps[id].status == Cancelled
                        && session.run in session.Db().runs && session.Db().runs[session.run].status == RunCancelled
    {
      hide Legal, Play, Holds, AllWarranted;
      var _ :- session.Cancel(id);
      ghost var cancelled := session.acts;
      var _ :- Mark(RunCancelled, RejectedBy(a), seen);
      StillTerminal(cancelled, id);
      return Ok(());
    }

    // Claim a step and run its handler.
    method ClaimAndRun(id: StepId, topic: string, subject: StepId) returns (r: Result<Attempted>)
      requires session.Valid() && AllWarranted() && id.run == session.run && id in session.Db().steps
      modifies session`acts, session`errors, session`deeds, session`taken, session`started, session`answers, session.journal
      ensures session.Since(old(session.acts)) && AllWarranted()
      ensures Counted(r, old(session.errors), session.errors)
      ensures session.started == old(session.started) || session.started == old(session.started) + [id]
      ensures r.Ok? ==> Undertaken(old(session.taken), session.taken, old(session.started), session.started)
      ensures r.Ok? ==> session.started == if r.value.Passed? then old(session.started) else old(session.started) + [id]
      // It is passed only if it is not ready, and a handler that fails has failed the run.
      ensures r == Ok(Passed) ==> id in session.Db().steps && session.Db().steps[id].status != Ready
      ensures r == Ok(Broken) ==> Ended(session.Db())
      ensures r.Ok? && r.value.Returned? ==> session.answers == old(session.answers) + [(id, r.value.result)] && HeldHere(session.Db(), id)
      ensures Terminal(old(session.Db()).steps[id].status) ==> r.Ok? ==> !r.value.Returned?
    {
      hide Legal, Play, Holds, AllWarranted, Undertaken, HeldHere, Session.JustClaimed, Inv, Grows, JournalHistory.Extends, Ended;
      NoneUndertaken(session.taken, session.started);
      OneUndertaken(session.taken, session.started, id);
      var claimed :- session.Claim(id);
      if !claimed { return Ok(Passed); }
      var result :- RunHandler(id, topic, subject);
      return Ok(if result.None? then Broken else Returned(result.value));
    }

    // Execute a claimed step; None when the handler failed and the run with it.
    method RunHandler(id: StepId, topic: string, subject: StepId) returns (r: Result<Option<Json>>)
      requires session.Valid() && AllWarranted() && id.run == session.run
      modifies session`acts, session`errors, session`deeds, session`started, session`answers, session.journal
      ensures session.Since(old(session.acts)) && AllWarranted()
      ensures Counted(r, old(session.errors), session.errors)
      ensures session.started == old(session.started) || session.started == old(session.started) + [id]
      ensures r.Ok? ==> session.started == old(session.started) + [id]
      ensures r == Ok(None) ==> Ended(session.Db()) && id in session.Db().steps && session.Db().steps[id].status == Failed
      ensures r == Ok(None) ==> session.answers == old(session.answers) || session.errors > old(session.errors)
      // A result counts only while the lease is this worker's.
      ensures r.Ok? && r.value.Some? ==> session.answers == old(session.answers) + [(id, r.value.value)] && HeldHere(session.Db(), id)
    {
      hide Legal, Play, Holds, AllWarranted, Rests, Reported, Inv, Grows, JournalHistory.Extends;
      var _ :- session.Enter(id);
      var result := Attempt(id);
      if result.None? {
        var _ :- FailHandler(id, topic, subject);
      }
      return Ok(result);
    }

    method FailHandler(id: StepId, topic: string, subject: StepId) returns (r: Result<()>)
      requires session.Valid() && AllWarranted() && id.run == session.run
      modifies session`acts, session`errors, session`deeds, session.journal
      ensures session.Since(old(session.acts)) && AllWarranted()
      ensures Counted(r, old(session.errors), session.errors)
      ensures r.Ok? ==> Ended(session.Db()) && id in session.Db().steps && session.Db().steps[id].status == Failed
    {
      hide Legal, Play, Holds, AllWarranted, Rests, Reported, Inv, Grows, JournalHistory.Extends;
      var _ :- session.Fail(id);
      ghost var failed := session.acts;
      HasFailed(id);
      var _ :- StopFailed(topic, "tool failed", Some(subject), HandlerFailed(id), failed);
      StillTerminal(failed, id);
      return Ok(());
    }

    predicate HeldHere(s: State, id: StepId) {
      id in s.steps && Held(s.steps[id].status) && s.steps[id].owner == Some(session.worker)
    }

    // What the handler returned; None when it raised or its lease was lost meanwhile.
    method Attempt(id: StepId) returns (result: Option<Json>)
      requires session.Valid()
      modifies session`acts, session`errors, session`answers, session.journal
      ensures session.Since(old(session.acts))
      ensures session.errors >= old(session.errors)
      ensures result.Some? ==> session.answers == old(session.answers) + [(id, result.value)] && HeldHere(session.Db(), id)
      ensures result.None? ==> session.answers == old(session.answers) || session.errors > old(session.errors)
    {
      hide Legal, Play;
      result := session.Handle(id);
      if result.Some? {
        var beat := session.Heartbeat(id);
        if beat.Raised? { return None; }
      }
    }

    // The policy asks for no approval, or the run was given one for good.
    predicate Exempt(s: State, name: string, safety: SafetyClass) {
      || !requiresApproval(name, safety)
      || (session.run in s.runs && s.runs[session.run].identity.config.Mapping?
          && name in s.runs[session.run].identity.config.preapproved)
    }

    // Nothing stands against executing the step: no approval is needed, or one is given.
    predicate MayExecute(s: State, id: StepId, name: string, safety: SafetyClass) {
      Exempt(s, name, safety) || exists a <- s.approvals :: s.approvals[a].step == Some(id) && s.approvals[a].status == Approved
    }

    lemma StillMayExecute(before: seq<Act>, id: StepId, name: string, safety: SafetyClass)
      requires session.Since(before) && session.run in Play(before).db.runs && MayExecute(Play(before).db, id, name, safety)
      ensures MayExecute(session.Db(), id, name, safety)
    {
      hide Inv, Grows, Legal, Play;
      IdentityStays(before);
      session.Later(before);
      var s := Play(before).db;
      if !Exempt(s, name, safety) {
        var a :| a in s.approvals && s.approvals[a].step == Some(id) && s.approvals[a].status == Approved;
        assert JournalHistory.ApprovalEvolves(s.approvals[a], session.Db().approvals[a]);
      }
    }

    // A latest approval asked for about a step.
    predicate LatestApproval(s: State, id: StepId, a: string) {
      && a in s.approvals && s.approvals[a].run == session.run && s.approvals[a].step == Some(id)
      && forall b <- s.approvals :: s.approvals[b].run == session.run && s.approvals[b].step == Some(id) ==>
           s.approvals[b].createdAt <= s.approvals[a].createdAt
    }

    /** What needs no approval is approved.  Everything else has the status of the
        latest approval asked for about its step; where none was, one is asked for and
        pending.  `a` is that approval. */
    method ApprovalOutcome(id: StepId, name: string, safety: SafetyClass) returns (r: Result<ApprovalStatus>, ghost a: string)
      requires session.Valid() && AllWarranted()
      modifies session`acts, session`errors, session`deeds, session.journal
      ensures session.Since(old(session.acts)) && AllWarranted()
      ensures Counted(r, old(session.errors), session.errors)
      ensures session.run in old(session.Db()).runs && Exempt(old(session.Db()), name, safety) ==>
                r == Ok(Approved) && session.deeds == old(session.deeds)
      ensures r.Ok? ==> session.run in session.Db().runs && (Exempt(session.Db(), name, safety) ==> r == Ok(Approved))
      ensures r.Ok? && !Exempt(session.Db(), name, safety) ==>
                && a in session.Db().approvals && session.Db().approvals[a].run == session.run
                && session.Db().approvals[a].step == Some(id) && session.Db().approvals[a].status == r.value
                && if session.deeds == old(session.deeds) then LatestApproval(session.Db(), id, a)
                   else r.value == Pending && session.Db().approvals[a].kind == "tool_execution"
      ensures r == Ok(Approved) ==> MayExecute(session.Db(), id, name, safety)
    {
      hide Legal, Play, Holds, AllWarranted, LatestApproval;
      a := "";
      ghost var entry := session.acts;
      var found := session.GetRun();
      IdentityStays(entry);
      if found.Raised? { return Raised(found.error), a; }
      var row := found.value;
      ghost var before := session.acts;
      var durable := if row.identity.config.Mapping? then row.identity.config.preapproved else {};
      if name in durable || !requiresApproval(name, safety) { return Ok(Approved), a; }
      r, a := LatestStatus(id);
      IdentityStays(before);
    }

    // The status of the latest approval asked for about a step; where none was, one is
    // asked for.
    method LatestStatus(id: StepId) returns (r: Result<ApprovalStatus>, ghost a: string)
      requires session.Valid() && AllWarranted()
      modifies session`acts, session`errors, session`deeds, session.journal
      ensures session.Since(old(session.acts)) && AllWarranted()
      ensures Counted(r, old(session.errors), session.errors)
      ensures r.Ok? ==>
                && a in session.Db().approvals && session.Db().approvals[a].run == session.run
                && session.Db().approvals[a].step == Some(id) && session.Db().approvals[a].status == r.value
                && if session.deeds == old(session.deeds) then LatestApproval(session.Db(), id, a)
                   else r.value == Pending && session.Db().approvals[a].kind == "tool_execution"
    {
      hide Legal, Play, Holds, AllWarranted, LatestApproval, Unasked;
      a := "";
      var approvals := session.ListApprovals(Some(id));
      if approvals == [] {
        NoneIsUnasked(session.Db(), id, approvals);
        ghost var count := |session.deeds|;
        var asked :- Request(id, "tool_execution");
        assert |session.deeds| == count + 1;
        return Ok(Pending), asked;
      }
      LastIsLatest(session.Db(), id, approvals);
      a := approvals[|approvals| - 1];
      return Ok(session.journal.approvals[approvals[|approvals| - 1]].status), a;
    }

    /** Go on with an approved call alone: None.  A pending one pauses the run, a
        rejected one cancels it. */
    method Approve(id: StepId, name: string, safety: SafetyClass, waiting: string) returns (r: Result<Option<Group>>)
      requires session.Valid() && AllWarranted() && id.run == session.run && id in session.Db().steps
      modifies session`acts, session`errors, session`deeds, session.journal
      ensures session.Since(old(session.acts)) && AllWarranted()
      ensures Counted(r, old(session.errors), session.errors)
      ensures r == Ok(None) ==> session.run in session.Db().runs && MayExecute(session.Db(), id, name, safety)
      ensures r.Ok? ==> r.value in {None, Some(GroupPaused), Some(GroupCancelled)} && id in session.Db().steps
      ensures r.Ok? && r.value.Some? ==> Stopped(session.Db(), session.run)
      ensures r == Ok(Some(GroupCancelled)) ==> session.Db().steps[id].status == Cancelled
                                                && session.Db().runs[session.run].status == RunCancelled
      ensures session.run in old(session.Db()).runs && Exempt(old(session.Db()), name, safety) ==> r == Ok(None)
    {
      hide Legal, Play, Holds, AllWarranted, LatestApproval, MayExecute, Exempt;
      ghost var entry := session.acts;
      var approval, a :- ApprovalOutcome(id, name, safety);
      StepStays(entry, id);
      if approval == Pending {
        IsUndecided(a);
        var _ :- Pause(waiting, Some(id), Undecided(a), session.acts);
        StepStays(entry, id);
        return Ok(Some(GroupPaused));
      }
      if approval == Rejected {
        IsRejected(a);
        var _ :- RejectCall(id, a, session.acts);
        return Ok(Some(GroupCancelled));
      }
      return Ok(None);
    }

    lemma NoneIsUnasked(s: State, id: StepId, ids: seq<string>)
      requires IsApprovalListing(s, session.run, Some(id), ids) && ids == []
      ensures Unasked(s, id, "tool_execution")
    {
      forall a <- s.approvals ensures !(s.approvals[a].run == session.run && s.approvals[a].step == Some(id)) {
        assert s.approvals[a].run == session.run && s.approvals[a].step == Some(id) ==> a in ids;
      }
    }

    lemma LastIsLatest(s: State, id: StepId, ids: seq<string>)
      requires IsApprovalListing(s, session.run, Some(id), ids) && ids != []
      ensures LatestApproval(s, id, ids[|ids| - 1])
    {
      var last := ids[|ids| - 1];
      assert last in ids;
      forall b <- s.approvals | s.approvals[b].run == session.run && s.approvals[b].step == Some(id)
        ensures s.approvals[b].createdAt <= s.approvals[last].createdAt
      {
        assert b in ids;
      }
    }

    // --- approvals and uncertain outcomes ---

    /** Settle what an earlier run of the process left open.  False means that the
        conversation may go on, true that the run is stopped. */
    method HandleApprovalsAndUncertainty() returns (r: Result<bool>)
      requires session.Valid() && AllWarranted()
      modifies session`acts, session`errors, session`deeds, session`taken, session`started, session`answers, session.journal
      ensures session.Since(old(session.acts)) && AllWarranted()
      ensures Counted(r, old(session.errors), session.errors)
      ensures r == Ok(true) ==> Stopped(session.Db(), session.run)
      // The conversation goes on only if every approval asked for is given, and every
      // step that was and is uncertain is recovered or has been given a replacement -
      // never with a reconcilable one that has been executed again.
      ensures r == Ok(false) ==> ApprovedSince(old(session.Db()), session.Db(), session.run)
      ensures r == Ok(false) ==> HandledSince(old(session.Db()), session.Db())
    {
      hide Inv, Grows, JournalHistory.Extends, Legal, Play, Settled, Retried, ApprovedSince, Holds, AllWarranted;
      ghost var entry := session.acts;
      var stop :- HandleApprovals();
      if stop { return Ok(true); }
      ghost var handled := session.acts;
      stop :- HandleUncertainty();
      if stop { return Ok(true); }
      StillApproved(entry, handled);
      StillUncertain(entry, handled);
      StillRetried(entry, handled);
      return Ok(false);
    }

    // Every step that was uncertain and still is has been settled.
    ghost predicate HandledSince(s: State, t: State) {
      forall o | UncertainIn(s, session.run, o) && UncertainIn(t, session.run, o) ::
        Settled(t, o) && (o.safety == Reconcilable ==> !Retried(s, o))
    }

    method HandleApprovals() returns (r: Result<bool>)
      requires session.Valid() && AllWarranted()
      modifies session`acts, session`errors, session`deeds, session.journal
      ensures session.Since(old(session.acts)) && AllWarranted()
      ensures Counted(r, old(session.errors), session.errors)
      ensures r == Ok(true) ==> Stopped(session.Db(), session.run)
      ensures r == Ok(false) ==> ApprovedSince(old(session.Db()), session.Db(), session.run)
    {
      hide Inv, Grows, JournalHistory.Extends, Legal, Play, ApprovedSince, Holds, AllWarranted;
      ghost var entry := session.acts;
      var approvals := session.ListApprovals(None);
      ghost var listed := session.acts;
      var rows := session.journal.approvals;
      for n := 0 to |approvals|
        invariant rows == session.journal.approvals && session.acts == listed && session.Since(listed)
        invariant AllWarranted() && session.errors == old(session.errors)
        invariant forall m | 0 <= m < n :: rows[approvals[m]].status == Approved
      {
        var row := rows[approvals[n]];
        if row.status == Pending {
          IsUndecided(approvals[n]);
          var _ :- Pause("approval pending", row.step, Undecided(approvals[n]), listed);
          return Ok(true);
        }
        if row.status == Rejected {
          IsRejected(approvals[n]);
          var _ :- CancelRejected(row.step, approvals[n], listed);
          return Ok(true);
        }
      }
      AllApproved(entry, approvals);
      return Ok(false);
    }

    lemma AllApproved(before: seq<Act>, ids: seq<string>)
      requires session.Since(before) && IsApprovalListing(session.Db(), session.run, None, ids)
      requires forall id <- ids :: session.Db().approvals[id].status == Approved
      ensures ApprovedSince(Play(before).db, session.Db(), session.run)
    {
      hide Inv, Grows, Legal, Play;
      session.Later(before);
      var s, t := Play(before).db, session.Db();
      forall a <- s.approvals | s.approvals[a].run == session.run ensures a in t.approvals && t.approvals[a].status == Approved {
        assert JournalHistory.ApprovalEvolves(s.approvals[a], t.approvals[a]);
        assert a in ids;
      }
    }

    lemma StillApproved(before: seq<Act>, middle: seq<Act>)
      requires session.Since(middle) && before <= middle && ApprovedSince(Play(before).db, Play(middle).db, session.run)
      ensures ApprovedSince(Play(before).db, session.Db(), session.run)
    {
      hide Inv, Grows, Legal, Play;
      session.Later(middle);
      var s, m, t := Play(before).db, Play(middle).db, session.Db();
      forall a <- s.approvals | s.approvals[a].run == session.run ensures a in t.approvals && t.approvals[a].status == Approved {
        assert JournalHistory.ApprovalEvolves(m.approvals[a], t.approvals[a]);
      }
    }

    lemma StillRetried(before: seq<Act>, middle: seq<Act>)
      requires session.Since(middle) && before <= middle
      ensures forall o | Retried(Play(before).db, o) :: Retried(Play(middle).db, o)
    {
      hide Inv, Legal, Retried, JournalHistory.Extends, Play;
      PlayGrows(session.reg, session.run, session.acts, |middle|);
      assert session.acts[..|middle|] == middle;
      PlayGrows(session.reg, session.run, middle, |before|);
      assert middle[..|before|] == before;
      forall o | Retried(Play(before).db, o) ensures Retried(Play(middle).db, o) {
        RetriedForGood(Play(before).db, Play(middle).db, o);
      }
    }

    method HandleUncertainty() returns (r: Result<bool>)
      requires session.Valid() && AllWarranted()
      modifies session`acts, session`errors, session`deeds, session`taken, session`started, session`answers, session.journal
      ensures session.Since(old(session.acts)) && AllWarranted()
      ensures Counted(r, old(session.errors), session.errors)
      ensures r == Ok(true) ==> Stopped(session.Db(), session.run)
      ensures r == Ok(false) ==> HandledSince(old(session.Db()), session.Db())
    {
      hide Inv, Grows, JournalHistory.Extends, Legal, Play, Settled, Retried, Unresolved, UncertainIsRisky, Holds, AllWarranted;
      ghost var entry := session.acts;
      var ids := session.ListSteps();
      var s := session.Db();
      ghost var listed := session.acts;
      for n := 0 to |ids|
        invariant session.Since(old(session.acts)) && session.Since(listed) && AllWarranted() && session.errors >= old(session.errors)
        invariant forall m | 0 <= m < n :: s.steps[ids[m]].status == Uncertain ==>
                    Settled(session.Db(), ids[m]) && (ids[m].safety == Reconcilable ==> !Retried(s, ids[m]))
      {
        if s.steps[ids[n]].status == Uncertain {
          StillOpen(listed, ids[n]);
          ghost var before := session.acts;
          var settled :- SettleUncertain(ids[n]);
          if !settled { return Ok(true); }
          AllSettledStay(before, s, ids[..n]);
        }
      }
      StillUncertain(entry, listed);
      StillRetried(entry, listed);
      return Ok(false);
    }

    // A step listed as uncertain is still open, and of a class that is recovered.
    lemma StillOpen(listed: seq<Act>, o: StepId)
      requires session.Since(listed) && UncertainIn(Play(listed).db, session.run, o)
      ensures Unresolved(session.Db(), o) && !Retryable(o.safety)
      ensures Retried(Play(listed).db, o) ==> Retried(session.Db(), o)
    {
      hide Legal, Play, Retried, JournalHistory.Extends;
      UncertainIsOpen(Play(listed).db, o);
      session.Later(listed);
      UnresolvedStable(Play(listed).db, session.Db(), o);
      PlayGrows(session.reg, session.run, session.acts, |listed|);
      assert session.acts[..|listed|] == listed;
      PlayKeepsInv(session.reg, session.run, listed);
      if Retried(Play(listed).db, o) { RetriedForGood(Play(listed).db, session.Db(), o); }
    }

    lemma UncertainIsOpen(s: State, o: StepId)
      requires UncertainIn(s, session.run, o)
      ensures Unresolved(s, o)
    {
    }

    lemma AllSettledStay(before: seq<Act>, s: State, ids: seq<StepId>)
      requires session.Since(before) && forall id <- ids :: id in s.steps
      ensures forall id <- ids :: s.steps[id].status == Uncertain && Settled(Play(before).db, id) ==> Settled(session.Db(), id)
    {
      session.Later(before);
      forall id <- ids | Settled(Play(before).db, id) ensures Settled(session.Db(), id) {
        SettledStable(Play(before).db, session.Db(), id);
      }
    }

    // What was uncertain before and is so now was uncertain in between.
    lemma StillUncertain(before: seq<Act>, middle: seq<Act>)
      requires session.Since(before) && session.Since(middle) && before <= middle
      ensures forall o | UncertainIn(Play(before).db, session.run, o) && UncertainIn(session.Db(), session.run, o) ::
                UncertainIn(Play(middle).db, session.run, o)
    {
      hide Inv, Legal, UncertainIn, JournalHistory.Extends;
      PlayGrows(session.reg, session.run, session.acts, |middle|);
      assert session.acts[..|middle|] == middle;
      PlayGrows(session.reg, session.run, middle, |before|);
      assert middle[..|before|] == before;
      forall o | UncertainIn(Play(before).db, session.run, o) && UncertainIn(session.Db(), session.run, o)
        ensures UncertainIn(Play(middle).db, session.run, o)
      {
        UncertainBetween(Play(before).db, Play(middle).db, session.Db(), session.run, o);
      }
    }

    method CancelRejected(subject: Option<StepId>, ghost a: string, ghost seen: seq<Act>) returns (r: Result<()>)
      requires session.Valid() && AllWarranted() && seen <= session.acts && Holds(RejectedBy(a), Play(seen).db)
      modifies session`acts, session`errors, session`deeds, session.journal
      ensures session.Since(old(session.acts)) && AllWarranted()
      ensures Counted(r, old(session.errors), session.errors)
      ensures r.Ok? ==> session.run in session.Db().runs && session.Db().runs[session.run].status in {RunCancelled, Completed}
      // A rejected uncertain step is cancelled.
      ensures r.Ok? && subject.Some? && subject.value in old(session.Db()).steps && old(session.Db()).steps[subject.value].status == Uncertain ==>
                subject.value in session.Db().steps && session.Db().steps[subject.value].status == Cancelled
      // A run that is cancelled or completed already is left as it is.
      ensures session.run in old(session.Db()).runs && old(session.Db()).runs[session.run].status in {RunCancelled, Completed} ==>
                session.deeds == old(session.deeds)
    {
      hide Legal, Play, Inv, Grows, JournalHistory.Extends, Holds, AllWarranted;
      ghost var entry := session.acts;
      if subject.Some? { var _ :- CancelOpenStep(subject.value); }
      ghost var cancelled := session.acts;
      var run :- session.GetRun();
      EndedStays(entry);
      if run.status !in {RunCancelled, Completed} { var _ :- Mark(RunCancelled, RejectedBy(a), seen); }
      if subject.Some? { StillTerminal(cancelled, subject.value); }
      return Ok(());
    }

    method CancelOpenStep(id: StepId) returns (r: Result<()>)
      requires session.Valid()
      modifies session`acts, session`errors, session.journal
      ensures session.Since(old(session.acts))
      ensures Counted(r, old(session.errors), session.errors)
      ensures r.Ok? && id in old(session.Db()).steps && old(session.Db()).steps[id].status == Uncertain ==>
                id in session.Db().steps && session.Db().steps[id].status == Cancelled
      ensures r.Ok? ==> id in session.Db().steps && session.Db().steps[id].status !in {Ready, Uncertain}
    {
      hide Legal, Play, Inv, Grows, JournalHistory.Extends;
      ghost var before := session.acts;
      var row :- session.GetStep(id);
      UncertainIsLeft(before, id);
      if row.status == Ready || row.status == Uncertain { r := session.Cancel(id); } else { r := Ok(()); }
    }

    lemma UncertainIsLeft(before: seq<Act>, id: StepId)
      requires session.Since(before) && id in session.Db().steps
      ensures var s := Play(before).db;
              id in s.steps && s.steps[id].status == Uncertain ==> session.Db().steps[id].status in {Uncertain, Cancelled}
    {
      session.Later(before);
      var s := Play(before).db;
      if id in s.steps { assert JournalHistory.RowEvolves(s.steps[id], session.Db().steps[id]); }
    }

    // One uncertain step; true when the next one may be looked at.
    method SettleUncertain(o: StepId) returns (r: Result<bool>)
      requires session.Valid() && AllWarranted() && o.run == session.run && Unresolved(session.Db(), o) && !Retryable(o.safety)
      modifies session`acts, session`errors, session`deeds, session`taken, session`started, session`answers, session.journal
      ensures session.Since(old(session.acts)) && AllWarranted()
      ensures Counted(r, old(session.errors), session.errors)
      ensures r == Ok(true) ==> Settled(session.Db(), o)
      ensures r == Ok(false) ==> Stopped(session.Db(), session.run)
      ensures o.safety == Reconcilable && Retried(old(session.Db()), o) ==> r != Ok(true)
      // What cannot be reconciled waits for a decision.
      ensures r.Ok? && o.safety != Reconcilable ==> exists a :: Decides(session.Db(), a, o)
    {
      hide Legal, Play, Inv, Grows, JournalHistory.Extends, Retried, Holds, AllWarranted, Unresolved;
      if o.safety == Reconcilable {
        r := ReconcileUncertain(o);
        return;
      }
      ghost var before := session.acts;
      var latest := LatestDecision(o);
      UnresolvedLater(before, o);
      ghost var seen := session.acts;
      if latest.Some? && session.journal.approvals[latest.value].status == Approved {
        assert ApprovesRetry(session.journal.approvals[latest.value], o);
        r := RetryApprovedUncertain(o);
        StillDecides(seen, o, latest.value);
        return;
      }
      IsUnsettled(o, latest);
      var asked := "";
      if latest.None? { asked :- RequestUncertaintyDecision(o); } else { asked := latest.value; }
      ghost var decided := session.acts;
      var _ :- Pause("opaque tool outcome is uncertain", Some(o), Unsettled(o), seen);
      StillDecides(decided, o, asked);
      return Ok(false);
    }

    // The last decision asked for about an uncertain step is given.
    ghost predicate RetryIsApproved(s: State, o: StepId) {
      exists a :: Decides(s, a, o) && s.approvals[a].status == Approved
                  && forall b | Decides(s, b, o) :: s.approvals[b].createdAt < s.approvals[a].createdAt || b == a
    }

    lemma IsUnsettled(o: StepId, latest: Option<string>)
      requires session.Valid() && Unresolved(session.Db(), o) && o.safety != Reconcilable
      requires latest.Some? ==> Decides(session.Db(), latest.value, o) && session.Db().approvals[latest.value].status != Approved
      requires forall a | Decides(session.Db(), a, o) ::
                 latest.Some? && session.Db().approvals[a].createdAt <= session.Db().approvals[latest.value].createdAt
      ensures Holds(Unsettled(o), Play(session.acts).db)
    {
      hide Unresolved;
      var s := session.Db();
      forall a | Decides(s, a, o) && s.approvals[a].status == Approved
        ensures exists b :: Decides(s, b, o) && s.approvals[b].createdAt >= s.approvals[a].createdAt && b != a
      {
        assert Decides(s, latest.value, o);
      }
    }

    lemma StillDecides(before: seq<Act>, o: StepId, a: string)
      requires session.Since(before) && Decides(Play(before).db, a, o)
      ensures Decides(session.Db(), a, o)
    {
      hide Inv, Grows, Legal, Play;
      session.Later(before);
      assert JournalHistory.ApprovalEvolves(Play(before).db.approvals[a], session.Db().approvals[a]);
    }

    predicate Decides(s: State, a: string, o: StepId) {
      && a in s.approvals && s.approvals[a].run == session.run && s.approvals[a].step == Some(o)
      && s.approvals[a].kind == "uncertain_outcome"
    }

    // The last decision asked for about an uncertain step.
    method LatestDecision(o: StepId) returns (latest: Option<string>)
      requires session.Valid()
      modifies session`acts, session.journal
      ensures session.Since(old(session.acts))
      ensures latest.Some? ==> Decides(session.Db(), latest.value, o)
      ensures forall a | Decides(session.Db(), a, o) ::
                latest.Some? && session.Db().approvals[a].createdAt <= session.Db().approvals[latest.value].createdAt
    {
      hide Legal, Play;
      var approvals := session.ListApprovals(Some(o));
      var rows := session.journal.approvals;
      latest := None;
      for n := 0 to |approvals|
        invariant latest.Some? ==> latest.value in approvals[..n] && Decides(session.Db(), latest.value, o)
        invariant forall a <- approvals[..n] | Decides(session.Db(), a, o) ::
                    latest.Some? && rows[a].createdAt <= rows[latest.value].createdAt
      {
        assert approvals[..n + 1] == approvals[..n] + [approvals[n]];
        if rows[approvals[n]].kind == "uncertain_outcome" { latest := Some(approvals[n]); }
      }
      assert approvals[..|approvals|] == approvals;
    }

    method RequestUncertaintyDecision(o: StepId) returns (r: Result<string>)
      requires session.Valid() && AllWarranted()
      modifies session`acts, session`errors, session`deeds, session.journal
      ensures session.Since(old(session.acts)) && AllWarranted()
      ensures Counted(r, old(session.errors), session.errors)
      ensures r.Ok? ==> Decides(session.Db(), r.value, o)
    {
      hide Legal, Play, Holds, AllWarranted;
      var approvals := session.ListApprovals(Some(o));
      for n := 0 to |approvals|
        invariant forall a <- approvals[..n] :: !Decides(session.Db(), a, o)
      {
        if session.journal.approvals[approvals[n]].kind == "uncertain_outcome" { return Ok(approvals[n]); }
        assert approvals[..n + 1] == approvals[..n] + [approvals[n]];
      }
      assert approvals[..|approvals|] == approvals;
      r := Request(o, "uncertain_outcome");
    }

    /** Execute an opaque call again under a replacement step, once an operator
        has approved the risk. */
    method RetryApprovedUncertain(o: StepId) returns (r: Result<bool>)
      requires session.Valid() && AllWarranted() && o.run == session.run && o.safety == OpaqueSideEffect && Unresolved(session.Db(), o)
      requires exists a :: a in session.Db().approvals && ApprovesRetry(session.Db().approvals[a], o)
      modifies session`acts, session`errors, session`deeds, session`taken, session`started, session`answers, session.journal
      ensures session.Since(old(session.acts)) && AllWarranted()
      ensures Counted(r, old(session.errors), session.errors)
      ensures r == Ok(true) ==> o.input.ToolInput? && Replacement(o) in session.Db().steps
                                && session.Db().steps[Replacement(o)].status in {Committed, Uncertain}
      ensures r == Ok(false) ==> Stopped(session.Db(), session.run)
      // A retry that has committed is accepted, and its handler not started again.
      ensures o.input.ToolInput? && Replacement(o) in old(session.Db()).steps
              && old(session.Db()).steps[Replacement(o)].status == Committed ==>
                r == Ok(true) && session.started == old(session.started)
      // Only the handler of the retry is started, and what it returned is recorded.
      ensures session.started != old(session.started) ==>
                && o.input.ToolInput? && session.started == old(session.started) + [Replacement(o)]
                && (r == Ok(true) ==> Recording(session.Db(), old(session.answers), session.answers, Replacement(o)))
    {
      hide Grows, Inv, JournalHistory.Extends, Legal, Play, Recording, Holds, AllWarranted, Undertaken;
      if !o.input.ToolInput? {
        var e := session.NoCall(o);
        return Raised(e);
      }
      var existing := FindRetry(o);
      if existing.Some? && session.journal.steps[existing.value].status in {Committed, Uncertain} { return Ok(true); }
      var replacement := Replacement(o);
      if existing.None? {
        var _ :- session.CreateStep(replacement);
      }
      r := ExecuteReplacement(o, "uncertain tool retry is already leased", false);
    }

    // The replacement, if there is one already; creating it is justified in any case.
    method FindRetry(o: StepId) returns (existing: Option<StepId>)
      requires session.Valid() && o.run == session.run && o.safety == OpaqueSideEffect && o.input.ToolInput? && Unresolved(session.Db(), o)
      requires exists a :: a in session.Db().approvals && ApprovesRetry(session.Db().approvals[a], o)
      modifies session`acts, session.journal
      ensures session.Since(old(session.acts))
      ensures existing == if Replacement(o) in session.Db().steps then Some(Replacement(o)) else None
      ensures Justified(session.reg, session.Db(), Replacement(o))
      ensures Retried(old(session.Db()), o) ==>
                existing.Some? && session.Db().steps[existing.value] == old(session.Db()).steps[existing.value]
    {
      hide Grows, Inv, JournalHistory.Extends, Legal, Play;
      ghost var before := session.acts;
      assert MayRetry(session.Db(), o);
      var ids := session.ListSteps();
      existing := FindReplacement(ids, o);
      if existing.Some? { ReplacementIs(existing.value, o); }
      StillTerminal(before, Replacement(o));
      session.Later(before);
      UnresolvedStable(Play(before).db, session.Db(), o);
      MayRetryStable(Play(before).db, session.Db(), o);
    }

    // Claim, execute and commit the replacement of `o`.
    method ExecuteReplacement(o: StepId, busy: string, withReceipt: bool) returns (r: Result<bool>)
      requires session.Valid() && AllWarranted() && o.run == session.run && o.input.ToolInput?
      requires Replacement(o) in session.Db().steps
      modifies session`acts, session`errors, session`deeds, session`taken, session`started, session`answers, session.journal
      ensures session.Since(old(session.acts)) && AllWarranted()
      ensures Counted(r, old(session.errors), session.errors)
      ensures r.Ok? ==> Undertaken(old(session.taken), session.taken, old(session.started), session.started)
      ensures r == Ok(true) && withReceipt ==>
                && ToolReceipt(Replacement(o)) in session.Db().receipts && |session.answers| > |old(session.answers)|
                && session.Db().receipts[ToolReceipt(Replacement(o))] ==
                     Receipt(session.run, Replacement(o), session.answers[|old(session.answers)|].1)
      ensures r == Ok(true) ==> Replacement(o) in session.Db().steps && session.Db().steps[Replacement(o)].status == Committed
      ensures Retried(old(session.Db()), o) ==> r != Ok(true)
      ensures r == Ok(false) ==> Stopped(session.Db(), session.run)
      ensures session.started == old(session.started) || session.started == old(session.started) + [Replacement(o)]
      // What the handler returned is the recorded result of the call.
      ensures r == Ok(true) ==> Recording(session.Db(), old(session.answers), session.answers, Replacement(o))
    {
      hide Grows, Inv, JournalHistory.Extends, Legal, Play, Recording, Holds, AllWarranted, Undertaken, HeldHere, Session.JustClaimed;
      var replacement := Replacement(o);
      var attempt :- ClaimAndRun(replacement, "tool.failed", replacement);
      if attempt.Passed? {
        IsBusy(replacement);
        var _ :- Pause(busy, Some(replacement), Busy(replacement), session.acts);
        return Ok(false);
      }
      if attempt.Broken? { return Ok(false); }
      var _ :- session.Commit(replacement, JsonOutput(CallOutput(o.input.call, attempt.result)),
                              if withReceipt then Some((ToolReceipt(replacement), attempt.result)) else None);
      NowRecorded(old(session.answers), replacement);
      return Ok(true);
    }

    lemma ReplacementIs(id: StepId, o: StepId)
      requires session.Valid() && id in session.Db().steps && id.run == session.run
      requires id.input.ToolInput? && id.input.recoveryOf == Some(o)
      ensures o.input.ToolInput? && id == Replacement(o)
    {
      session.Keeps();
      assert Justified(session.reg, session.Db(), id);
    }

    /** Find out whether an uncertain reconcilable call was applied; record the
        answer as its result, or else execute it again under a replacement step. */
    method ReconcileUncertain(o: StepId) returns (r: Result<bool>)
      requires session.Valid() && AllWarranted() && o.run == session.run && o.safety == Reconcilable && Unresolved(session.Db(), o)
      modifies session`acts, session`errors, session`deeds, session`taken, session`started, session`answers, session.journal
      ensures session.Since(old(session.acts)) && AllWarranted()
      ensures Counted(r, old(session.errors), session.errors)
      ensures r == Ok(true) ==> o.input.ToolInput? && Recovered(session.Db(), o)
      ensures r == Ok(false) ==> Stopped(session.Db(), session.run)
      // A call that was recovered before is accepted exactly when a receipt says so;
      // one that was executed again never is, and then the run is stopped.
      ensures Recovered(old(session.Db()), o) ==> (r == Ok(true) <==> ReconciledReceipt(o) in old(session.Db()).receipts)
      ensures ReconciledReceipt(o) in old(session.Db()).receipts ==> session.started == old(session.started)
      // Once it is known that the call was applied, nothing but the reconciler was started.
      ensures o.input.ToolInput? && CommittedJson(session.Db(), ReconcileStep(o)).Some?
              && AgentAnswers.SaysApplied(CommittedJson(session.Db(), ReconcileStep(o)).value) ==>
                session.started in {old(session.started), old(session.started) + [ReconcileStep(o)]}
      // A receipt makes what was reported the recorded result.
      ensures r == Ok(true) && ReconciledReceipt(o) in session.Db().receipts ==>
                && CommittedJson(session.Db(), ReconcileStep(o)).Some?
                && Recorded(session.Db(), AgentSpec.Root(o), {}) ==
                     Some(AgentAnswers.Reported(CommittedJson(session.Db(), ReconcileStep(o)).value))
      ensures Retried(old(session.Db()), o) ==> r != Ok(true)
      // An answer that is there already decides between the receipt and the replacement.
      ensures r.Ok? && o.input.ToolInput? && CommittedJson(old(session.Db()), ReconcileStep(o)).Some? ==>
                if AgentAnswers.SaysApplied(CommittedJson(old(session.Db()), ReconcileStep(o)).value)
                then r == Ok(true) && ReconciledReceipt(o) in session.Db().receipts
                else Replacement(o) in session.Db().steps
    {
      hide Grows, Inv, JournalHistory.Extends, Legal, Play, Recorded, ProvesApplied, AgentAnswers.SaysApplied, Holds, AllWarranted;
      hide Unresolved, Retried;
      ghost var before := session.acts;
      session.Interfere();
      UnresolvedLater(before, o);
      NeverBoth(before, o);
      StillReceipt(before, o);
      AnswerStays(before, o);
      if ReconciledReceipt(o) in session.journal.receipts {
        ReportRecorded(o);
        return Ok(true);
      }
      ReconciliationIsReadOnly(o);
      if !o.input.ToolInput? {
        var e := session.NoCall(o);
        return Raised(e);
      }
      var answer :- Reconcile(o);
      if answer.None? { return Ok(false); }
      NeverSaid(before, o);
      r := ActOn(o, answer.value);
    }

    /** The answer of the reconciler decides: a receipt if it says that the call was
        applied, and the replacement otherwise. */
    method ActOn(o: StepId, answer: Json) returns (r: Result<bool>)
      requires session.Valid() && AllWarranted() && o.run == session.run && o.safety == Reconcilable && o.input.ToolInput?
      requires Unresolved(session.Db(), o) && ReconcileResult(session.Db(), o) == Some(answer)
      modifies session`acts, session`errors, session`deeds, session`taken, session`started, session`answers, session.journal
      ensures session.Since(old(session.acts)) && AllWarranted()
      ensures Counted(r, old(session.errors), session.errors)
      ensures if AgentAnswers.SaysApplied(answer) then r.Ok? ==> r == Ok(true) && ReconciledReceipt(o) in session.Db().receipts
              else r.Ok? ==> Replacement(o) in session.Db().steps
      ensures AgentAnswers.SaysApplied(answer) ==> session.started == old(session.started)
      ensures r == Ok(true) ==> Recovered(session.Db(), o)
      ensures r == Ok(false) ==> Stopped(session.Db(), session.run)
      ensures CommittedJson(session.Db(), ReconcileStep(o)) == Some(answer)
      ensures r == Ok(true) && ReconciledReceipt(o) in session.Db().receipts ==>
                Recorded(session.Db(), AgentSpec.Root(o), {}) == Some(AgentAnswers.Reported(answer))
      ensures !AgentAnswers.SaysApplied(answer) && Retried(old(session.Db()), o) ==> r != Ok(true)
    {
      hide Grows, Inv, JournalHistory.Extends, Legal, Play, Recorded, ProvesApplied, AgentAnswers.SaysApplied, Holds, AllWarranted;
      hide Unresolved, Retried;
      ghost var before := session.acts;
      AgentAnswers.ProvesExactly(answer);
      if ProvesApplied(answer) {
        r := AcceptReport(o, answer);
      } else {
        r := RetryReconciled(o);
      }
      AnswerStays(before, o);
      if ReconciledReceipt(o) in session.Db().receipts { ReportRecorded(o); }
    }

    method AcceptReport(o: StepId, answer: Json) returns (r: Result<bool>)
      requires session.Valid() && o.run == session.run && o.safety == Reconcilable && o.input.ToolInput?
      requires Unresolved(session.Db(), o) && ReconcileResult(session.Db(), o) == Some(answer) && ProvesApplied(answer)
      modifies session`acts, session`errors, session.journal
      ensures session.Since(old(session.acts))
      ensures Counted(r, old(session.errors), session.errors)
      ensures r.Ok? ==> r == Ok(true) && ReconciledReceipt(o) in session.Db().receipts
    {
      hide Grows, Inv, JournalHistory.Extends, Legal, Play, ProvesApplied;
      var _ :- session.RecordReconciled(o, ReconciledOutput(o.input.call, answer));
      ghost var recorded := session.acts;
      var _ :- session.AppendEvent("tool.reconciled", "already_applied", Some(o));
      session.Later(recorded);
      ReceiptStable(Play(recorded).db, session.Db(), ReconciledReceipt(o));
      return Ok(true);
    }

    // An answer that is recorded stays, and a receipt only follows one that says so.
    lemma AnswerStays(before: seq<Act>, o: StepId)
      requires session.Since(before) && o.run == session.run
      ensures o.input.ToolInput? && CommittedJson(Play(before).db, ReconcileStep(o)).Some? ==>
                && CommittedJson(session.Db(), ReconcileStep(o)) == CommittedJson(Play(before).db, ReconcileStep(o))
                && (ReconciledReceipt(o) in session.Db().receipts ==>
                      AgentAnswers.SaysApplied(CommittedJson(Play(before).db, ReconcileStep(o)).value))
    {
      hide Inv, Grows, Legal, Play, JournalHistory.Extends, AgentAnswers.SaysApplied;
      session.Later(before);
      if o.input.ToolInput? && CommittedJson(Play(before).db, ReconcileStep(o)).Some? {
        CommittedLater(before, ReconcileStep(o));
        if ReconciledReceipt(o) in session.Db().receipts {
          session.Keeps();
          AgentAnswers.ReceiptIsLegal(session.reg, session.Db(), session.run, o);
          AgentAnswers.ProvesExactly(CommittedJson(session.Db(), ReconcileStep(o)).value);
        }
      }
    }

    lemma CommittedLater(before: seq<Act>, id: StepId)
      requires session.Since(before) && CommittedJson(Play(before).db, id).Some?
      ensures CommittedJson(session.Db(), id) == CommittedJson(Play(before).db, id)
    {
      hide Inv, Legal, Play;
      session.Later(before);
      CommittedStable(Play(before).db, session.Db(), id);
    }

    lemma ReportRecorded(o: StepId)
      requires session.Valid() && o.run == session.run && ReconciledReceipt(o) in session.Db().receipts
      ensures o.input.ToolInput? && CommittedJson(session.Db(), ReconcileStep(o)).Some?
      ensures Recorded(session.Db(), AgentSpec.Root(o), {}) ==
                Some(AgentAnswers.Reported(CommittedJson(session.Db(), ReconcileStep(o)).value))
    {
      session.Keeps();
      AgentAnswers.ReceiptIsLegal(session.reg, session.Db(), session.run, o);
      AgentAnswers.ReportIsRecorded(session.reg, session.Db(), session.run, o, ReconcileResult(session.Db(), o).value);
    }

    lemma UnresolvedLater(before: seq<Act>, o: StepId)
      requires session.Since(before) && Unresolved(Play(before).db, o)
      ensures Unresolved(session.Db(), o)
    {
      session.Later(before);
      UnresolvedStable(Play(before).db, session.Db(), o);
    }

    lemma StillTerminal(before: seq<Act>, id: StepId)
      requires session.Since(before)
      ensures var s := Play(before).db;
              id in s.steps && Terminal(s.steps[id].status) ==> id in session.Db().steps && session.Db().steps[id] == s.steps[id]
    {
      session.Later(before);
      var s := Play(before).db;
      if id in s.steps { assert JournalHistory.RowEvolves(s.steps[id], session.Db().steps[id]); }
    }

    lemma StillReceipt(before: seq<Act>, o: StepId)
      requires session.Since(before)
      ensures ReconciledReceipt(o) in Play(before).db.receipts ==> ReconciledReceipt(o) in session.Db().receipts
    {
      session.Later(before);
    }

    lemma NeverBoth(before: seq<Act>, o: StepId)
      requires session.Since(before) && o.run == session.run
      ensures ReconciledReceipt(o) in session.Db().receipts ==>
                o.input.ToolInput? && Replacement(o) !in Play(before).db.steps && !Retried(Play(before).db, o)
    {
      session.Later(before);
      var t := session.Db();
      if ReconciledReceipt(o) in t.receipts {
        assert LegalReceipt(t, o, t.receipts[ReconciledReceipt(o)].payload);
        ReceiptExcludesReplacement(session.reg, t, session.run, o);
      }
    }

    // A call that was executed again was not reported as applied.
    lemma NeverSaid(before: seq<Act>, o: StepId)
      requires session.Since(before) && o.run == session.run && o.input.ToolInput? && o.safety == Reconcilable
      ensures var s := Play(before).db;
              Retried(s, o) || (Recovered(s, o) && ReconciledReceipt(o) !in s.receipts) ==>
                && Retried(session.Db(), o)
                && (ReconcileResult(session.Db(), o).Some? ==> !AgentAnswers.SaysApplied(ReconcileResult(session.Db(), o).value))
    {
      hide Legal, Play, AgentAnswers.SaysApplied, ProvesApplied;
      session.Later(before);
      StillTerminal(before, Replacement(o));
      if Replacement(o) in Play(before).db.steps {
        assert Justified(session.reg, session.Db(), Replacement(o));
        if ReconcileResult(session.Db(), o).Some? { AgentAnswers.ProvesExactly(ReconcileResult(session.Db(), o).value); }
      }
    }

    // A reconciliation is itself read-only, so it is never reconciled in turn.
    lemma ReconciliationIsReadOnly(o: StepId)
      requires session.Valid() && o in session.Db().steps && o.run == session.run && o.safety == Reconcilable
      ensures !o.input.ReconcileInput?
    {
      session.Keeps();
      assert !o.input.ModelInput? ==> Justified(session.reg, session.Db(), o);
    }

    lemma ReceiptStable(s: State, t: State, key: ReceiptKey)
      requires JournalHistory.Extends(s, t) && key in s.receipts
      ensures key in t.receipts
    {
    }

    // The answer of the reconciler, recorded as a step of its own; None when the
    // runtime has paused or failed the run instead.
    method Reconcile(o: StepId) returns (r: Result<Option<Json>>)
      requires session.Valid() && AllWarranted() && o.run == session.run && o.input.ToolInput? && o.safety == Reconcilable
      requires Unresolved(session.Db(), o)
      modifies session`acts, session`errors, session`deeds, session`taken, session`started, session`answers, session.journal
      ensures session.Since(old(session.acts)) && AllWarranted()
      ensures Counted(r, old(session.errors), session.errors)
      ensures r.Ok? && r.value.Some? ==> Unresolved(session.Db(), o) && ReconcileResult(session.Db(), o) == r.value
      ensures r == Ok(None) ==> Stopped(session.Db(), session.run)
      ensures session.started == old(session.started) || session.started == old(session.started) + [ReconcileStep(o)]
      // An answer that is there already is taken.
      ensures CommittedJson(old(session.Db()), ReconcileStep(o)).Some? && r.Ok? ==>
                r.value == CommittedJson(old(session.Db()), ReconcileStep(o)) && session.started == old(session.started)
      ensures r.Ok? ==> Undertaken(old(session.taken), session.taken, old(session.started), session.started)
    {
      hide Grows, JournalHistory.Extends, Legal, Play, Inv, Holds, AllWarranted, Undertaken;
      NoneUndertaken(session.taken, session.started);
      ghost var before := session.acts;
      var id := ReconcileStep(o);
      assert Justified(session.reg, session.Db(), id);
      var _ :- session.CreateStep(id);
      UnresolvedLater(before, o);
      if session.journal.steps[id].status == Committed {
        AnswerIsRecorded(id);
        return Ok(Some(session.journal.steps[id].output.value.json));
      }
      r := AskReconciler(o, id);
      UnresolvedLater(before, o);
    }

    lemma AnswerIsRecorded(id: StepId)
      requires session.Valid() && id.run == session.run && !id.input.ModelInput?
      requires id in session.Db().steps && session.Db().steps[id].status == Committed
      ensures var output := session.Db().steps[id].output;
              output.Some? && output.value.JsonOutput? && CommittedJson(session.Db(), id) == Some(output.value.json)
    {
      session.Keeps();
    }

    method AskReconciler(o: StepId, id: StepId) returns (r: Result<Option<Json>>)
      requires session.Valid() && AllWarranted() && o.run == session.run && o.input.ToolInput? && id == ReconcileStep(o)
      requires id in session.Db().steps
      modifies session`acts, session`errors, session`deeds, session`taken, session`started, session`answers, session.journal
      ensures session.Since(old(session.acts)) && AllWarranted()
      ensures Counted(r, old(session.errors), session.errors)
      ensures r.Ok? && r.value.Some? ==> ReconcileResult(session.Db(), o) == r.value
      ensures r.Ok? && r.value.Some? ==> session.answers == old(session.answers) + [(id, r.value.value)]
      ensures r == Ok(None) ==> Stopped(session.Db(), session.run)
      ensures session.started == old(session.started) || session.started == old(session.started) + [ReconcileStep(o)]
      ensures r.Ok? ==> Undertaken(old(session.taken), session.taken, old(session.started), session.started)
    {
      hide Legal, Play, Holds, AllWarranted, Undertaken, HeldHere, Session.JustClaimed, Inv, Grows, JournalHistory.Extends;
      var attempt :- ClaimAndRun(id, "tool.reconcile_failed", o);
      if attempt.Passed? {
        IsBusy(id);
        var _ :- Pause("reconciliation is already leased", Some(o), Busy(id), session.acts);
        return Ok(None);
      }
      if attempt.Broken? { return Ok(None); }
      var _ :- session.Commit(id, JsonOutput(attempt.result), Some((OtherReceipt("reconcile:" + textOf(id)), attempt.result)));
      return Ok(Some(attempt.result));
    }

    lemma ReplacementIsJustified(o: StepId)
      requires o.input.ToolInput? && o.safety == Reconcilable && Unresolved(session.Db(), o)
      requires ReconcileResult(session.Db(), o).Some? && !ProvesApplied(ReconcileResult(session.Db(), o).value)
      ensures Justified(session.reg, session.Db(), Replacement(o))
    {
    }

    method RetryReconciled(o: StepId) returns (r: Result<bool>)
      requires session.Valid() && AllWarranted() && o.run == session.run && o.input.ToolInput? && o.safety == Reconcilable
      requires Unresolved(session.Db(), o)
      requires ReconcileResult(session.Db(), o).Some? && !ProvesApplied(ReconcileResult(session.Db(), o).value)
      modifies session`acts, session`errors, session`deeds, session`taken, session`started, session`answers, session.journal
      ensures session.Since(old(session.acts)) && AllWarranted()
      ensures Counted(r, old(session.errors), session.errors)
      ensures r.Ok? ==> Replacement(o) in session.Db().steps
      ensures r == Ok(true) ==> session.Db().steps[Replacement(o)].status == Committed
      ensures r == Ok(true) && session.started != old(session.started) ==> ToolReceipt(Replacement(o)) in session.Db().receipts
      ensures r.Ok? ==> Undertaken(old(session.taken), session.taken, old(session.started), session.started)
      ensures Retried(old(session.Db()), o) ==> r != Ok(true)
      ensures r == Ok(false) ==> Stopped(session.Db(), session.run)
      ensures session.started != old(session.started) ==>
                && session.started == old(session.started) + [Replacement(o)] && o.input.call.name in session.reg
                && MayExecute(session.Db(), Replacement(o), o.input.call.name, session.reg[o.input.call.name])
    {
      hide Grows, Inv, JournalHistory.Extends, Legal, Play, Justified, ReconcileResult, ProvesApplied, Unresolved, Holds, AllWarranted;
      hide Undertaken, MayExecute, Exempt;
      NoneUndertaken(session.taken, session.started);
      ghost var before := session.acts;
      var call, replacement := o.input.call, Replacement(o);
      ReplacementIsJustified(o);
      var _ :- session.CreateStep(replacement);
      ghost var created := session.acts;
      var safety :- session.Entry(call.name);
      var stopped :- Approve(replacement, call.name, safety, "retry after reconciliation requires approval");
      if stopped.Some? { return Ok(false); }
      StillTerminal(before, replacement);
      ghost var approved := session.acts;
      r := ExecuteReplacement(o, "recovered tool is already leased", true);
      StillMayExecute(approved, replacement, call.name, safety);
      StepStays(created, replacement);
    }

    // --- stopping ---

    method Pause(reason: string, subject: Option<StepId>, ghost why: Why, ghost seen: seq<Act>) returns (r: Result<()>)
      requires session.Valid() && AllWarranted() && seen <= session.acts && TargetOf(why) == Paused && Holds(why, Play(seen).db)
      modifies session`acts, session`errors, session`deeds, session.journal
      ensures session.Since(old(session.acts)) && AllWarranted()
      ensures Counted(r, old(session.errors), session.errors)
      ensures r.Ok? ==> Stopped(session.Db(), session.run)
    {
      hide Legal, Play, Holds, AllWarranted;
      var _ :- session.AppendEvent("runtime.paused", reason, subject);
      var row :- session.GetRun();
      if row.status in {RunCreated, Running} { var _ :- Mark(Paused, why, seen); }
      return Ok(());
    }

    method StopFailed(topic: string, message: string, subject: Option<StepId>, ghost why: Why, ghost seen: seq<Act>)
      returns (r: Result<AgentResult>)
      requires session.Valid() && AllWarranted() && seen <= session.acts && TargetOf(why) == RunFailed && Holds(why, Play(seen).db)
      modifies session`acts, session`errors, session`deeds, session.journal
      ensures session.Since(old(session.acts)) && AllWarranted()
      ensures Counted(r, old(session.errors), session.errors)
      ensures r.Ok? ==> r.value.status in {RunFailed, RunCancelled} && Ended(session.Db())
      ensures r.Ok? ==> Reported(session.Db(), r.value) && Rests(old(session.acts), r.value.status)
    {
      hide Legal, Play, Holds, AllWarranted, Rests, RebuildFrom;
      ghost var entry := session.acts;
      var _ :- session.AppendEvent(topic, message, subject);
      var row :- session.GetRun();
      if row.status !in {RunFailed, RunCancelled} { var _ :- Mark(RunFailed, why, seen); }
      ghost var before := session.acts;
      r := Outcome();
      EndedStays(before);
      if r.Ok? { RestedAt(entry, before, r.value.status); }
    }

    // The last few groups of calls were all the same.
    method HasRepeatedToolCalls() returns (repeated: bool)
      requires session.Valid()
      modifies session`acts, session.journal
      ensures session.Since(old(session.acts))
      ensures exists ids :: IsListing(session.Db(), session.run, ids)
                            && (repeated <==> Repeats(Signatures(session.Db(), ids), config.noProgressThreshold))
    {
      var ids := session.ListSteps();
      var s := session.Db();
      var signatures: seq<seq<(string, Json)>> := [];
      for n := 0 to |ids|
        invariant signatures == Signatures(s, ids[..n])
      {
        assert ids[..n + 1][..n] == ids[..n];
        if IsCommittedModel(s, ids[n]) {
          var calls := CompletionOf(s, ids[n]).message.toolCalls;
          if calls != [] { signatures := signatures + [Signature(calls)]; }
        }
      }
      assert ids[..|ids|] == ids;
      var recent := |signatures| - config.noProgressThreshold;
      return 0 <= recent < |signatures| && forall k | recent <= k < |signatures| :: signatures[k] == signatures[recent];
    }
  }
}
