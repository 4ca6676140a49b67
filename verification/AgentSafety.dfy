/**
 Safety of the runtime over every legal interleaving of runtimes, crashes,
 lease reclaims and operators.
 */
module AgentSafety {
  import opened Options
  import opened JournalTypes
  import opened JournalSpec
  import opened JournalHistory
  import opened JournalLeases
  import opened AgentSpec
  import opened AgentInvariants
  import opened Sets

  // --- what is new after one operation ---

  lemma {:induction false} ReclaimAddsNothing(s: State, rows: seq<StepId>, now: int)
    ensures var t := ReclaimExpiredLeases(s, rows, now);
            t.steps.Keys == s.steps.Keys && t.receipts == s.receipts && t.runs == s.runs
  {
    if rows != [] { ReclaimAddsNothing(s, rows[..|rows| - 1], now); }
  }

  // A step row first appears through create_step.
  lemma NewStep(s: State, op: Op, id: StepId)
    requires id in Next(s, op).steps && id !in s.steps
    ensures op.CreateStepOp? && op.id == id
  {
    hide Written;
    if op.ReclaimOp? {
      ReclaimAddsNothing(s, op.rows, op.now);
    } else {
      PerformWritesOneStep(s, Written(s, op), id);
      FreshStepIsCreated(s, op);
    }
  }

  lemma FreshStepIsCreated(s: State, op: Op)
    requires !op.ReclaimOp? && Written(s, op).WriteStep? && Written(s, op).id !in s.steps
    ensures op.CreateStepOp? && op.id == Written(s, op).id
  {
    OnlyStepOpsWriteSteps(s, op);
    hide CreateRun, MarkRunStatus, AppendEvent, RecordReceipt, RequestApproval, DecideApproval,
      StartProviderCall, CompleteProviderCall, ReserveBudget, SettleBudget;
  }

  // What creating the step again finds: its run, and a name for it.
  predicate Creatable(s: State, id: StepId) {
    id.name != "" && (id.input.OtherInput? ==> id.input.kind != "") && id.run in s.runs
  }

  lemma NextKeepsCreatable(s: State, op: Op)
    requires forall id <- s.steps :: Creatable(s, id)
    ensures forall id <- Next(s, op).steps :: Creatable(Next(s, op), id)
  {
    hide Next;
    NextExtends(s, op);
    forall id <- Next(s, op).steps ensures Creatable(Next(s, op), id) {
      if id !in s.steps {
        NewStep(s, op, id);
        CreatedIsCreatable(s, op, id);
      }
    }
  }

  lemma CreatedIsCreatable(s: State, op: Op, id: StepId)
    requires op.CreateStepOp? && op.id == id && id !in s.steps && id in Next(s, op).steps
    ensures Creatable(s, id)
  {
  }

  lemma {:induction false} StepsStayCreatable(acts: seq<Act>)
    ensures forall id <- Play(acts).db.steps :: Creatable(Play(acts).db, id)
  {
    if acts != [] {
      StepsStayCreatable(acts[..|acts| - 1]);
      hide Next, Creatable;
      var act := acts[|acts| - 1];
      if act.Do? { NextKeepsCreatable(Play(acts[..|acts| - 1]).db, act.op); }
    }
  }

  // A receipt first appears through record_receipt or with a commit.
  lemma NewReceipt(s: State, op: Op, key: ReceiptKey)
    requires key in Next(s, op).receipts && key !in s.receipts
    ensures || (op.RecordReceiptOp? && op.receiptKey == key && Next(s, op).receipts[key].payload == op.payload
                && Next(s, op).receipts[key].step == op.id)
            || (op.CommitOp? && op.receipt.Some? && op.receipt.value.0 == key)
  {
    if op.ReclaimOp? {
      ReclaimAddsNothing(s, op.rows, op.now);
    } else {
      hide CreateRun, MarkRunStatus, AppendEvent, RequestApproval, DecideApproval,
        StartProviderCall, CompleteProviderCall, ReserveBudget, SettleBudget, Perform;
      PerformWritesReceipts(s, Written(s, op), key);
      OtherOpsWriteNoReceipt(s, op);
    }
  }

  lemma PerformWritesReceipts(s: State, w: Write, key: ReceiptKey)
    ensures key in Perform(s, w).receipts ==>
              || (w.WriteStep? && w.receipt.Some? && w.receipt.value.0 == key)
              || (w.InsertReceipt? && w.receiptKey == key && Perform(s, w).receipts[key] == w.inserted)
              || (key in s.receipts)
  {
  }

  lemma OtherOpsWriteNoReceipt(s: State, op: Op)
    requires !op.ReclaimOp? && (Written(s, op).InsertReceipt? || (Written(s, op).WriteStep? && Written(s, op).receipt.Some?))
    ensures op.RecordReceiptOp? || op.CommitOp?
  {
    hide RecordReceipt, CommitStep;
  }

  // A run first becomes completed through mark_run_status.
  lemma NewlyCompleted(s: State, op: Op, run: RunId)
    requires run in Next(s, op).runs && Next(s, op).runs[run].status == Completed
    requires run in s.runs ==> s.runs[run].status != Completed
    ensures op == MarkRunStatusOp(run, Completed)
  {
    if op.ReclaimOp? {
      ReclaimAddsNothing(s, op.rows, op.now);
    } else {
      hide Perform, CreateStep, ClaimReadyStep, MarkExecuting, Heartbeat, CommitStep, FinishOwnedStep, CancelStep;
      if StepOp(op) { OnlyStepOpsWriteStepsConverse(s, op); }
      PerformWritesRuns(s, Written(s, op), run);
    }
  }

  lemma OnlyStepOpsWriteStepsConverse(s: State, op: Op)
    requires StepOp(op)
    ensures Written(s, op).WriteStep? || Written(s, op).Nothing?
  {
    hide CreateRun, MarkRunStatus, AppendEvent, RecordReceipt, RequestApproval, DecideApproval,
      StartProviderCall, CompleteProviderCall, ReserveBudget, SettleBudget;
  }

  lemma PerformWritesRuns(s: State, w: Write, run: RunId)
    ensures var t := Perform(s, w);
            if (w.InsertRun? || w.WriteRun? || w.WriteBudget?) && w.run == run then run in t.runs && t.runs[run] == w.runRow
            else (run in t.runs <==> run in s.runs) && (run in s.runs ==> t.runs[run] == s.runs[run])
  {
  }

  // --- the invariant is kept ---

  lemma DeadStable(s: State, t: State, x: StepId)
    requires Extends(s, t) && x in s.steps && Dead(s.steps[x].status)
    ensures x in t.steps && Dead(t.steps[x].status)
  {
    assert RowEvolves(s.steps[x], t.steps[x]);
  }

  lemma KeepsOneLive(reg: Registry, s: State, op: Op, run: RunId)
    requires OneLiveModel(s, run) && LegalOp(reg, run, s, op)
    ensures OneLiveModel(Next(s, op), run)
  {
    var t := Next(s, op);
    hide Next, Justified;
    NextExtends(s, op);
    forall x <- t.steps, y <- t.steps
      | x.run == run && y.run == run && x.input.ModelInput? && y.input.ModelInput? && x.input.iteration == y.input.iteration && x != y
      ensures Dead(t.steps[x].status) || Dead(t.steps[y].status)
    {
      if x !in s.steps { NewStep(s, op, x); }
      if y !in s.steps { NewStep(s, op, y); }
      if x in s.steps && Dead(s.steps[x].status) { DeadStable(s, t, x); }
      if y in s.steps && Dead(s.steps[y].status) { DeadStable(s, t, y); }
    }
  }

  lemma KeepsTyped(reg: Registry, s: State, op: Op, run: RunId)
    requires LeaseInv(s) && TypedOutputs(s, run) && LegalOp(reg, run, s, op)
    ensures TypedOutputs(Next(s, op), run)
  {
    var t := Next(s, op);
    hide Next, Justified;
    NextExtends(s, op);
    forall id <- t.steps | id.run == run && t.steps[id].status == Committed
      ensures t.steps[id].output.Some? && (id.input.ModelInput? <==> t.steps[id].output.value.CompletionOutput?)
    {
      if id in s.steps && s.steps[id].status == Committed {
        CommittedStable(s, t, id);
      } else {
        CommitNeedsLiveLease(s, op, id);
      }
    }
  }

  lemma KeepsLineage(reg: Registry, s: State, op: Op, run: RunId)
    requires Lineage(reg, s, run) && LegalOp(reg, run, s, op)
    ensures Lineage(reg, Next(s, op), run)
  {
    var t := Next(s, op);
    hide Next;
    NextExtends(s, op);
    forall id <- t.steps | id.run == run && !id.input.ModelInput? ensures Justified(reg, t, id) {
      if id !in s.steps { NewStep(s, op, id); }
      assert Justified(reg, s, id);
      JustifiedStable(reg, s, t, id);
    }
    forall key <- t.receipts | key.ReconciledReceipt? && key.step.run == run
      ensures LegalReceipt(t, key.step, t.receipts[key].payload)
    {
      if key !in s.receipts { NewReceipt(s, op, key); }
      LegalReceiptStable(s, t, key.step, t.receipts[key].payload);
    }
  }

  lemma KeepsReady(reg: Registry, s: State, op: Op, run: RunId)
    requires Grows(reg, s, Next(s, op), run) && ModelsReady(s, run) && LegalOp(reg, run, s, op)
    ensures ModelsReady(Next(s, op), run)
  {
    var t := Next(s, op);
    hide Next, Grows, ReadyFor;
    forall id <- t.steps | id.run == run && id.input.ModelInput? ensures LegalModel(t, id) {
      if id !in s.steps { NewStep(s, op, id); }
      assert LegalModel(s, id);
      ReadyForStable(reg, s, t, run, id.input.iteration);
    }
  }

  lemma KeepsRisky(reg: Registry, s: State, op: Op, run: RunId)
    requires UncertainIsRisky(s, run) && LegalOp(reg, run, s, op)
    ensures UncertainIsRisky(Next(s, op), run)
  {
    var t := Next(s, op);
    hide Next, Justified, Retryable;
    forall id <- t.steps | id.run == run && t.steps[id].status == Uncertain ensures !Retryable(id.safety) {
      if !(id in s.steps && s.steps[id].status == Uncertain) { UncertainIsWritten(s, op, id); }
    }
  }

  lemma UncertainIsWritten(s: State, op: Op, id: StepId)
    requires id in Next(s, op).steps && Next(s, op).steps[id].status == Uncertain
    requires id in s.steps ==> s.steps[id].status != Uncertain
    ensures (op.ReclaimOp? && !Retryable(id.safety)) || (op.FinishOp? && op.id == id && op.verdict == Uncertain)
  {
    hide Written, Perform;
    if op.ReclaimOp? {
      ReclaimRecovers(s, op.rows, op.now, id);
    } else {
      PerformWritesOneStep(s, Written(s, op), id);
      VerdictIsWritten(s, op);
    }
  }

  lemma VerdictIsWritten(s: State, op: Op)
    requires !op.ReclaimOp? && Written(s, op).WriteStep? && Written(s, op).stepRow.status == Uncertain
    requires Written(s, op).id in s.steps ==> s.steps[Written(s, op).id].status != Uncertain
    ensures op.FinishOp? && op.id == Written(s, op).id && op.verdict == Uncertain
  {
    OnlyStepOpsWriteSteps(s, op);
    hide CreateRun, MarkRunStatus, AppendEvent, RecordReceipt, RequestApproval, DecideApproval,
      StartProviderCall, CompleteProviderCall, ReserveBudget, SettleBudget;
  }

  lemma KeepsEnd(reg: Registry, s: State, op: Op, run: RunId)
    requires Grows(reg, s, Next(s, op), run) && EndReached(s, run) && LegalOp(reg, run, s, op)
    ensures EndReached(Next(s, op), run)
  {
    var t := Next(s, op);
    hide Next, Grows, RebuildFrom;
    RebuildStable(reg, s, t, run, 0);
    if run in t.runs && t.runs[run].status == Completed && !(run in s.runs && s.runs[run].status == Completed) {
      NewlyCompleted(s, op, run);
    }
  }

  lemma NextKeepsInv(reg: Registry, s: State, op: Op, run: RunId)
    requires Inv(reg, s, run) && LegalOp(reg, run, s, op)
    ensures Inv(reg, Next(s, op), run) && Grows(reg, s, Next(s, op), run)
  {
    hide Next, LeaseInv, OneLiveModel, TypedOutputs, Lineage, ModelsReady, UncertainIsRisky, EndReached, LegalOp, Extends;
    NextExtends(s, op);
    NextKeepsLeases(s, op);
    KeepsOneLive(reg, s, op, run);
    KeepsTyped(reg, s, op, run);
    KeepsLineage(reg, s, op, run);
    KeepsReady(reg, s, op, run);
    KeepsRisky(reg, s, op, run);
    KeepsEnd(reg, s, op, run);
  }

  lemma EmptyInv(reg: Registry, run: RunId)
    ensures Inv(reg, EMPTY, run)
  {
  }

  // --- whole runs ---

  lemma {:induction false} PlayKeepsInv(reg: Registry, run: RunId, acts: seq<Act>)
    requires Legal(reg, run, acts)
    ensures Inv(reg, Play(acts).db, run)
  {
    hide Inv, Next, LegalOp;
    if acts == [] {
      EmptyInv(reg, run);
    } else {
      var prior, act := Play(acts[..|acts| - 1]), acts[|acts| - 1];
      PlayKeepsInv(reg, run, acts[..|acts| - 1]);
      if act.Do? { NextKeepsInv(reg, prior.db, act.op, run); }
    }
  }

  lemma {:induction false} PlayGrows(reg: Registry, run: RunId, acts: seq<Act>, n: nat)
    requires n <= |acts| && Legal(reg, run, acts)
    ensures Legal(reg, run, acts[..n]) && Grows(reg, Play(acts[..n]).db, Play(acts).db, run)
  {
    if n == |acts| {
      assert acts[..n] == acts;
      PlayKeepsInv(reg, run, acts);
      assert Extends(Play(acts).db, Play(acts).db);
    } else {
      hide Next, LegalOp, Inv, Extends, OneLiveModel, Lineage;
      var shorter := acts[..|acts| - 1];
      assert shorter[..n] == acts[..n];
      PlayGrows(reg, run, shorter, n);
      PlayKeepsInv(reg, run, shorter);
      var act := acts[|acts| - 1];
      if act.Do? { NextKeepsInv(reg, Play(shorter).db, act.op, run); }
      GrowsTransitive(reg, Play(acts[..n]).db, Play(shorter).db, Play(acts).db, run);
    }
  }

  lemma GrowsTransitive(reg: Registry, s: State, t: State, u: State, run: RunId)
    requires Grows(reg, s, t, run) && (u == t || Grows(reg, t, u, run))
    ensures Grows(reg, s, u, run)
  {
    hide Extends, OneLiveModel, Lineage;
    if u != t { ExtendsTransitive(s, t, u); }
  }

  /** Transcript stability: whatever happens later, the conversation rebuilt at
      one moment is a prefix of the one rebuilt afterwards, and a finished one
      never changes. */
  lemma TranscriptOnlyGrows(reg: Registry, run: RunId, acts: seq<Act>, n: nat)
    requires n <= |acts| && Legal(reg, run, acts)
    ensures Prefix(RebuildFrom(Play(acts[..n]).db, run, 0), RebuildFrom(Play(acts).db, run, 0))
  {
    PlayGrows(reg, run, acts, n);
    RebuildStable(reg, Play(acts[..n]).db, Play(acts).db, run, 0);
  }

  // --- handler invocations ---

  // Every invocation of a handler used up one execution of its step.
  ghost predicate Paid(w: World, id: StepId) {
    ClaimedBefore(w.db, id) && multiset(w.invoked)[id] <= Executions(w.db.events, id)
  }

  lemma {:induction false} ExecutionsMonotone(a: seq<Event>, b: seq<Event>, id: StepId)
    requires a <= b
    ensures Executions(a, id) <= Executions(b, id)
  {
    if |a| < |b| { ExecutionsMonotone(a, b[..|b| - 1], id); } else { assert a == b; }
  }

  lemma {:induction false} PlayPays(reg: Registry, run: RunId, acts: seq<Act>, id: StepId)
    requires Legal(reg, run, acts) && id.run == run
    ensures Paid(Play(acts), id)
  {
    hide Next, Inv, Extends, LegalOp;
    if acts != [] {
      var prior, act := Play(acts[..|acts| - 1]), acts[|acts| - 1];
      PlayPays(reg, run, acts[..|acts| - 1], id);
      if act.Do? {
        PlayKeepsInv(reg, run, acts[..|acts| - 1]);
        LegalIsHonest(reg, run, prior.db, act.op);
        InvHasLeases(reg, prior.db, run);
        NextKeepsCount(prior.db, act.op, id);
        NextEvents(prior.db, act.op);
        ExecutionsMonotone(prior.db.events, Next(prior.db, act.op).events, id);
      }
    }
  }

  lemma LegalIsHonest(reg: Registry, run: RunId, s: State, op: Op)
    requires LegalOp(reg, run, s, op)
    ensures HonestOp(op)
  {
  }

  lemma InvHasLeases(reg: Registry, s: State, run: RunId)
    requires Inv(reg, s, run)
    ensures LeaseInv(s)
  {
  }

  lemma NextEvents(s: State, op: Op)
    ensures s.events <= Next(s, op).events
  {
    hide Next;
    NextExtends(s, op);
  }

  /** A step whose effect must not be repeated has its handler invoked at most
      once, and only if the step exists. */
  lemma RiskyStepInvokedOnce(reg: Registry, run: RunId, acts: seq<Act>, id: StepId)
    requires Legal(reg, run, acts) && id.run == run && !Retryable(id.safety)
    ensures multiset(Play(acts).invoked)[id] <= 1
    ensures id in Play(acts).invoked ==> id in Play(acts).db.steps
  {
    PlayPays(reg, run, acts, id);
    PlayKeepsInv(reg, run, acts);
    InvHasLeases(reg, Play(acts).db, run);
    if id in Play(acts).db.steps { assert RowInv(id, Play(acts).db.steps[id]); }
  }

  // A call and, transitively, its replacements.
  predicate InChain(id: StepId, root: StepId) {
    id.run == root.run && Root(id) == root
  }

  function Chain(ids: set<StepId>, root: StepId): set<StepId> {
    set id <- ids | InChain(id, root)
  }

  function Elements(ids: seq<StepId>): set<StepId> {
    set id <- ids
  }

  // The invocations along a recovery chain.
  function ChainInvocations(invoked: seq<StepId>, root: StepId): nat {
    if invoked == [] then 0
    else ChainInvocations(invoked[..|invoked| - 1], root) + if InChain(invoked[|invoked| - 1], root) then 1 else 0
  }

  // The decisions that allow a retry somewhere along a recovery chain.
  function ChainApprovals(s: State, root: StepId): set<string> {
    set a <- s.approvals | s.approvals[a].step.Some? && s.approvals[a].kind == "uncertain_outcome"
                           && s.approvals[a].status == Approved && InChain(s.approvals[a].step.value, root)
  }

  lemma {:induction false} InvocationsAreDistinct(invoked: seq<StepId>, root: StepId)
    requires forall id :: InChain(id, root) ==> multiset(invoked)[id] <= 1
    ensures ChainInvocations(invoked, root) == |Chain(Elements(invoked), root)|
  {
    if invoked != [] {
      var rest, last := invoked[..|invoked| - 1], invoked[|invoked| - 1];
      assert invoked == rest + [last];
      InvocationsAreDistinct(rest, root);
      if InChain(last, root) {
        assert multiset(invoked)[last] == multiset(rest)[last] + 1;
        assert Chain(Elements(invoked), root) == Chain(Elements(rest), root) + {last};
      } else {
        assert Chain(Elements(invoked), root) == Chain(Elements(rest), root);
      }
    }
  }

  // A chain keeps its run and its safety class.
  lemma {:induction false} RootOfChain(reg: Registry, s: State, run: RunId, id: StepId)
    requires Lineage(reg, s, run) && id in s.steps && id.run == run
    ensures Root(id).run == run && Root(id).safety == id.safety
    ensures id != Root(id) ==> id.input.ToolInput? && id.input.recoveryOf.Some?
    decreases id
  {
    if id.input.ToolInput? && id.input.recoveryOf.Some? {
      assert Justified(reg, s, id);
      RootOfChain(reg, s, run, id.input.recoveryOf.value);
    }
  }

  ghost function RetryApproval(s: State, o: StepId): string
    requires exists a :: a in s.approvals && ApprovesRetry(s.approvals[a], o)
  {
    var a :| a in s.approvals && ApprovesRetry(s.approvals[a], o); a
  }

  lemma ReplacementIsApproved(reg: Registry, s: State, run: RunId, root: StepId, id: StepId)
    requires Lineage(reg, s, run) && root.run == run && root.safety == OpaqueSideEffect
    requires id in s.steps && InChain(id, root) && id != root
    ensures id.input.ToolInput? && id.input.recoveryOf.Some?
    ensures var o := id.input.recoveryOf.value;
            && o.input.ToolInput? && id == Replacement(o) && InChain(o, root)
            && exists a :: a in s.approvals && ApprovesRetry(s.approvals[a], o)
  {
    RootOfChain(reg, s, run, id);
    assert LegalReplacement(s, id);
  }

  // Each replacement on an opaque chain has an approval of its own.
  lemma ReplacementsAreApproved(reg: Registry, s: State, run: RunId, root: StepId, ids: set<StepId>)
    requires Lineage(reg, s, run) && root.run == run && root.safety == OpaqueSideEffect
    requires ids <= s.steps.Keys && forall id <- ids :: InChain(id, root) && id != root
    ensures |ids| <= |ChainApprovals(s, root)|
  {
    hide Lineage, Replacement, Root;
    forall id <- ids
      ensures id.input.ToolInput? && id.input.recoveryOf.Some?
      ensures var o := id.input.recoveryOf.value;
              && o.input.ToolInput? && id == Replacement(o) && InChain(o, root)
              && exists a :: a in s.approvals && ApprovesRetry(s.approvals[a], o)
    {
      ReplacementIsApproved(reg, s, run, root, id);
    }
    InjectionSize(ids, ChainApprovals(s, root), map id <- ids :: RetryApproval(s, id.input.recoveryOf.value));
  }

  /** At most once per decision: along the recovery chain of an opaque call, the
      handler is invoked at most once plus once for every approved
      `uncertain_outcome` decision on that chain - over every interleaving of
      runtimes, crashes, lease expiries, reclaims and resumes. */
  lemma OpaqueCallInvocations(reg: Registry, run: RunId, acts: seq<Act>, root: StepId)
    requires Legal(reg, run, acts) && root.run == run && root.safety == OpaqueSideEffect
    ensures ChainInvocations(Play(acts).invoked, root) <= 1 + |ChainApprovals(Play(acts).db, root)|
  {
    var w := Play(acts);
    var chain := Chain(Elements(w.invoked), root);
    PlayKeepsInv(reg, run, acts);
    forall id | id in w.invoked && InChain(id, root) ensures multiset(w.invoked)[id] <= 1 && id in w.db.steps {
      ChainStepInvokedOnce(reg, run, acts, id);
    }
    InvocationsAreDistinct(w.invoked, root);
    ReplacementsAreApproved(reg, w.db, run, root, chain - {root});
    SubsetSize(chain, {root} + (chain - {root}));
  }

  lemma ChainStepInvokedOnce(reg: Registry, run: RunId, acts: seq<Act>, id: StepId)
    requires Legal(reg, run, acts) && id.run == run && id in Play(acts).invoked
    requires Root(id).safety == OpaqueSideEffect
    ensures multiset(Play(acts).invoked)[id] <= 1 && id in Play(acts).db.steps
  {
    PlayPays(reg, run, acts, id);
    PlayKeepsInv(reg, run, acts);
    RootOfChain(reg, Play(acts).db, run, id);
    RiskyStepInvokedOnce(reg, run, acts, id);
  }

  /** A replacement of a reconcilable call runs only after a committed
      reconciliation of its predecessor that does not prove it applied. */
  lemma ReconcilableReplacementIsJustified(reg: Registry, run: RunId, acts: seq<Act>, id: StepId)
    requires Legal(reg, run, acts) && id.run == run && id in Play(acts).invoked
    requires id.input.ToolInput? && id.input.recoveryOf.Some? && id.safety == Reconcilable
    ensures var o, s := id.input.recoveryOf.value, Play(acts).db;
            && o.input.ToolInput? && id == Replacement(o) && Unresolved(s, o)
            && ReconcileResult(s, o).Some? && !ProvesApplied(ReconcileResult(s, o).value)
            && ReconciledReceipt(o) !in s.receipts
  {
    PlayPays(reg, run, acts, id);
    PlayKeepsInv(reg, run, acts);
    assert Justified(reg, Play(acts).db, id);
    var o := id.input.recoveryOf.value;
    if ReconciledReceipt(o) in Play(acts).db.receipts {
      ReceiptExcludesReplacement(reg, Play(acts).db, run, o);
    }
  }
}
