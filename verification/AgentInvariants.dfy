/**
 The invariant every legal interleaving keeps, and the stability of everything
 the runtime rebuilds from the journal.
 */
module AgentInvariants {
  import opened Options
  import opened JournalTypes
  import opened JournalSpec
  import opened JournalHistory
  import opened JournalLeases
  import opened AgentSpec
  import opened Sets

  // At most one model attempt of an iteration can still commit.
  ghost predicate OneLiveModel(s: State, run: RunId) {
    forall x <- s.steps, y <- s.steps ::
      x.run == run && y.run == run && x.input.ModelInput? && y.input.ModelInput? && x.input.iteration == y.input.iteration && x != y
      ==> Dead(s.steps[x].status) || Dead(s.steps[y].status)
  }

  ghost predicate TypedOutputs(s: State, run: RunId) {
    forall id <- s.steps :: id.run == run && s.steps[id].status == Committed ==>
      s.steps[id].output.Some? && (id.input.ModelInput? <==> s.steps[id].output.value.CompletionOutput?)
  }

  // Original calls, replacements, reconciliations and receipts are all justified.
  ghost predicate Lineage(reg: Registry, s: State, run: RunId) {
    && (forall id <- s.steps :: id.run == run && !id.input.ModelInput? ==> Justified(reg, s, id))
    && (forall key <- s.receipts :: key.ReconciledReceipt? && key.step.run == run ==>
          LegalReceipt(s, key.step, s.receipts[key].payload))
  }

  ghost predicate ModelsReady(s: State, run: RunId) {
    forall id <- s.steps :: id.run == run && id.input.ModelInput? ==> LegalModel(s, id)
  }

  ghost predicate EndReached(s: State, run: RunId) {
    run in s.runs && s.runs[run].status == Completed ==> RebuildFrom(s, run, 0).final.Some?
  }

  // Only a step whose effect must not be repeated is left uncertain.
  ghost predicate UncertainIsRisky(s: State, run: RunId) {
    forall id <- s.steps :: id.run == run && s.steps[id].status == Uncertain ==> !Retryable(id.safety)
  }

  ghost predicate Inv(reg: Registry, s: State, run: RunId) {
    && LeaseInv(s) && OneLiveModel(s, run) && TypedOutputs(s, run) && Lineage(reg, s, run)
    && ModelsReady(s, run) && UncertainIsRisky(s, run) && EndReached(s, run)
  }

  // --- single facts are stable ---

  lemma UnresolvedStable(s: State, t: State, o: StepId)
    requires Extends(s, t) && Unresolved(s, o)
    ensures Unresolved(t, o)
  {
    assert RowEvolves(s.steps[o], t.steps[o]);
  }

  lemma CommittedStable(s: State, t: State, id: StepId)
    requires Extends(s, t) && id in s.steps && s.steps[id].status == Committed
    ensures id in t.steps && t.steps[id] == s.steps[id]
  {
    assert RowEvolves(s.steps[id], t.steps[id]);
  }

  lemma MayRetryStable(s: State, t: State, o: StepId)
    requires Extends(s, t) && o.input.ToolInput? && MayRetry(s, o)
    ensures MayRetry(t, o)
  {
    if o.safety == Reconcilable {
      CommittedStable(s, t, ReconcileStep(o));
    } else {
      var a :| a in s.approvals && ApprovesRetry(s.approvals[a], o);
      assert ApprovalEvolves(s.approvals[a], t.approvals[a]);
    }
  }

  lemma GroupDoneStable(reg: Registry, s: State, t: State, run: RunId, i: nat, calls: seq<ToolCall>, n: nat)
    requires Extends(s, t) && n <= |calls| && GroupDone(reg, s, run, i, calls, n)
    ensures GroupDone(reg, t, run, i, calls, n)
  {
    forall k: nat | k < n
      ensures Original(reg, run, i, k, calls[k]) in t.steps && t.steps[Original(reg, run, i, k, calls[k])].status == Committed
    {
      CommittedStable(s, t, Original(reg, run, i, k, calls[k]));
    }
  }

  lemma JustifiedStable(reg: Registry, s: State, t: State, id: StepId)
    requires Extends(s, t) && !id.input.ModelInput? && Justified(reg, s, id)
    ensures Justified(reg, t, id)
  {
    match id.input
    case ToolInput(i, k, call, None) =>
      var m :| CommittedModel(s, id.run, i, m) && var calls := s.steps[m].output.value.completion.message.toolCalls;
                                                  k < |calls| && calls[k] == call && GroupDone(reg, s, id.run, i, calls, k);
      CommittedStable(s, t, m);
      assert CommittedModel(t, id.run, i, m);
      GroupDoneStable(reg, s, t, id.run, i, s.steps[m].output.value.completion.message.toolCalls, k);
    case ToolInput(_, _, _, Some(o)) =>
      UnresolvedStable(s, t, o);
      MayRetryStable(s, t, o);
    case ReconcileInput(o, _) => UnresolvedStable(s, t, o);
    case _ =>
  }

  lemma LegalReceiptStable(s: State, t: State, o: StepId, payload: Json)
    requires Extends(s, t) && LegalReceipt(s, o, payload)
    ensures LegalReceipt(t, o, payload)
  {
    UnresolvedStable(s, t, o);
    CommittedStable(s, t, ReconcileStep(o));
  }

  // --- the committed model of an iteration is unique and stable ---

  lemma CompletionIs(s: State, run: RunId, i: nat, id: StepId)
    requires OneLiveModel(s, run) && CommittedModel(s, run, i, id)
    ensures HasModel(s, run, i) && CompletionAt(s, run, i) == s.steps[id].output.value.completion
  {
  }

  lemma CompletionStable(s: State, t: State, run: RunId, i: nat)
    requires Extends(s, t) && OneLiveModel(t, run) && HasModel(s, run, i)
    ensures HasModel(t, run, i) && CompletionAt(t, run, i) == CompletionAt(s, run, i)
  {
    var id :| CommittedModel(s, run, i, id) && CompletionAt(s, run, i) == s.steps[id].output.value.completion;
    CommittedStable(s, t, id);
    CompletionIs(t, run, i, id);
  }

  // --- recorded outputs are stable ---

  // A receipt and a replacement never both exist for one step.
  lemma ReceiptExcludesReplacement(reg: Registry, s: State, run: RunId, o: StepId)
    requires Lineage(reg, s, run) && IsTool(o, run)
    requires ReconciledReceipt(o) in s.receipts
    ensures Replacement(o) !in s.steps
  {
    assert LegalReceipt(s, o, s.receipts[ReconciledReceipt(o)].payload);
    assert !Justified(reg, s, Replacement(o));
  }

  // Neither exists for a step that committed.
  lemma RecoveredNeverCommitted(reg: Registry, s: State, run: RunId, o: StepId)
    requires Lineage(reg, s, run) && IsTool(o, run)
    requires ReconciledReceipt(o) in s.receipts || Replacement(o) in s.steps
    ensures Unresolved(s, o)
  {
    if Replacement(o) in s.steps {
      assert Justified(reg, s, Replacement(o));
    } else {
      assert LegalReceipt(s, o, s.receipts[ReconciledReceipt(o)].payload);
    }
  }

  lemma {:induction false} RecordedStable(reg: Registry, s: State, t: State, run: RunId, id: StepId, visited: set<StepId>)
    requires Extends(s, t) && Lineage(reg, s, run) && Lineage(reg, t, run)
    requires id.run == run && Recorded(s, id, visited).Some?
    ensures Recorded(t, id, visited) == Recorded(s, id, visited)
    decreases |s.steps.Keys - visited|
  {
    hide Lineage;
    if CommittedJson(s, id).Some? {
      CommittedStable(s, t, id);
    } else if ReconciledReceipt(id) in s.receipts {
      RecoveredNeverCommitted(reg, t, run, id);
    } else {
      RecoveredNeverCommitted(reg, t, run, id);
      if ReconciledReceipt(id) in t.receipts { ReceiptExcludesReplacement(reg, t, run, id); }
      assert id in s.steps.Keys - visited && id !in s.steps.Keys - (visited + {id});
      SubsetSize(s.steps.Keys - (visited + {id}), s.steps.Keys - visited);
      RecordedStable(reg, s, t, run, Replacement(id), visited + {id});
    }
  }

  lemma OriginalUnique(reg: Registry, s: State, run: RunId, i: nat, k: nat, a: StepId, b: StepId)
    requires OneLiveModel(s, run) && Lineage(reg, s, run)
    requires a in s.steps && IsOriginal(a, run, i, k) && b in s.steps && IsOriginal(b, run, i, k)
    ensures a == b
  {
    assert LegalOriginal(reg, s, a) && LegalOriginal(reg, s, b);
    var m :| CommittedModel(s, run, i, m) && var calls := s.steps[m].output.value.completion.message.toolCalls;
                                             k < |calls| && calls[k] == a.input.call;
    var n :| CommittedModel(s, run, i, n) && var calls := s.steps[n].output.value.completion.message.toolCalls;
                                             k < |calls| && calls[k] == b.input.call;
    assert m == n;
  }

  lemma OutputIs(reg: Registry, s: State, run: RunId, i: nat, k: nat, id: StepId)
    requires OneLiveModel(s, run) && Lineage(reg, s, run) && id in s.steps && IsOriginal(id, run, i, k)
    ensures OutputAt(s, run, i, k) == Recorded(s, id, {})
  {
    var chosen :| chosen in s.steps && IsOriginal(chosen, run, i, k) && OutputAt(s, run, i, k) == Recorded(s, chosen, {});
    OriginalUnique(reg, s, run, i, k, chosen, id);
  }

  // Enough of the invariant, before and after, for the transcript to be stable.
  ghost predicate Grows(reg: Registry, s: State, t: State, run: RunId) {
    && Extends(s, t) && OneLiveModel(s, run) && OneLiveModel(t, run)
    && Lineage(reg, s, run) && Lineage(reg, t, run)
  }

  lemma OutputStable(reg: Registry, s: State, t: State, run: RunId, i: nat, k: nat)
    requires Grows(reg, s, t, run) && OutputAt(s, run, i, k).Some?
    ensures OutputAt(t, run, i, k) == OutputAt(s, run, i, k)
  {
    var id :| id in s.steps && IsOriginal(id, run, i, k) && OutputAt(s, run, i, k) == Recorded(s, id, {});
    RecordedStable(reg, s, t, run, id, {});
    assert id in t.steps;
    OutputIs(reg, t, run, i, k, id);
  }

  lemma OutputsDoneStable(reg: Registry, s: State, t: State, run: RunId, i: nat)
    requires Grows(reg, s, t, run) && OutputsDone(s, run, i)
    ensures OutputsDone(t, run, i) && CallsAt(t, run, i) == CallsAt(s, run, i)
  {
    CompletionStable(s, t, run, i);
    forall k: nat | k < |CallsAt(t, run, i)| ensures OutputAt(t, run, i, k).Some? {
      OutputStable(reg, s, t, run, i, k);
    }
  }

  lemma ReadyForStable(reg: Registry, s: State, t: State, run: RunId, i: nat)
    requires Grows(reg, s, t, run) && ReadyFor(s, run, i)
    ensures ReadyFor(t, run, i)
  {
    forall j: nat | j < i ensures OutputsDone(t, run, j) && CallsAt(t, run, j) != [] {
      OutputsDoneStable(reg, s, t, run, j);
    }
  }

  lemma {:induction false} ToolMessagesStable(reg: Registry, s: State, t: State, run: RunId, i: nat, k: nat)
    requires Grows(reg, s, t, run) && OutputsDone(s, run, i)
    ensures HasModel(t, run, i) && ToolMessages(t, run, i, k) == ToolMessages(s, run, i, k)
    decreases |CallsAt(s, run, i)| - k
  {
    hide Grows, OutputAt;
    OutputsDoneStable(reg, s, t, run, i);
    if k < |CallsAt(s, run, i)| {
      OutputStable(reg, s, t, run, i, k);
      ToolMessagesStable(reg, s, t, run, i, k + 1);
    }
  }

  // Once the conversation ended it is fixed; before that it only grows.
  ghost predicate Prefix(a: Rebuilt, b: Rebuilt) {
    a.messages <= b.messages && a.iteration <= b.iteration && (a.final.Some? ==> b == a)
  }

  lemma {:induction false} RebuildStable(reg: Registry, s: State, t: State, run: RunId, i: nat)
    requires Grows(reg, s, t, run)
    ensures Prefix(RebuildFrom(s, run, i), RebuildFrom(t, run, i))
    decreases |ModelsFrom(s, run, i)|
  {
    hide Extends, Lineage, OutputAt;
    if !HasModel(s, run, i) {
      IterationGrows(t, run, i);
    } else {
      CompletionStable(s, t, run, i);
      if CallsAt(s, run, i) != [] {
        if OutputsDone(s, run, i) {
          OutputsDoneStable(reg, s, t, run, i);
          ToolMessagesStable(reg, s, t, run, i, 0);
          ModelsShrink(s, run, i);
          RebuildStable(reg, s, t, run, i + 1);
        } else if OutputsDone(t, run, i) {
          IterationGrows(t, run, i + 1);
        }
      }
    }
  }

  lemma ModelsShrink(s: State, run: RunId, i: nat)
    requires HasModel(s, run, i)
    ensures |ModelsFrom(s, run, i + 1)| < |ModelsFrom(s, run, i)|
  {
    var id :| CommittedModel(s, run, i, id);
    assert id in ModelsFrom(s, run, i) && id !in ModelsFrom(s, run, i + 1);
    SubsetSize(ModelsFrom(s, run, i + 1), ModelsFrom(s, run, i));
  }

  lemma {:induction false} IterationGrows(s: State, run: RunId, i: nat)
    ensures RebuildFrom(s, run, i).iteration >= i
    decreases |ModelsFrom(s, run, i)|
  {
    if HasModel(s, run, i) && CallsAt(s, run, i) != [] && OutputsDone(s, run, i) {
      ModelsShrink(s, run, i);
      IterationGrows(s, run, i + 1);
    }
  }
}
