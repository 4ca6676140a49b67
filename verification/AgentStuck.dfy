/**
 A run that recovery cannot get going again.  An uncertain reconcilable call that
 was recovered by executing it again is not accepted by any later recovery, and
 its group of calls never goes on: for every history, and in a concrete one.
 */
module AgentStuck {
  import opened Options
  import opened JournalTypes
  import opened JournalSpec
  import opened JournalLeases
  import opened AgentSpec
  import opened AgentInvariants
  import opened AgentSafety
  import opened AgentRuntime

  /** Over every later history, a call that was executed again is never accepted
      by recovery, which asks for a receipt. */
  lemma NeverAccepted(reg: Registry, run: RunId, acts: seq<Act>, n: nat, o: StepId)
    requires Legal(reg, run, acts) && n <= |acts| && o.run == run && Retried(Play(acts[..n]).db, o)
    ensures Retried(Play(acts).db, o) && ReconciledReceipt(o) !in Play(acts).db.receipts
  {
    hide Legal, Play, Retried, Inv;
    PlayGrows(reg, run, acts, n);
    PlayKeepsInv(reg, run, acts);
    RetriedForGood(Play(acts[..n]).db, Play(acts).db, o);
    RetriedHasNoReceipt(reg, Play(acts).db, run, o);
  }

  lemma RetriedHasNoReceipt(reg: Registry, s: State, run: RunId, o: StepId)
    requires Inv(reg, s, run) && o.run == run && Retried(s, o)
    ensures ReconciledReceipt(o) !in s.receipts
  {
    if ReconciledReceipt(o) in s.receipts { ReceiptExcludesReplacement(reg, s, run, o); }
  }

  /** Over every later history, a group with an original that was given up is
      never done. */
  lemma NeverDone(reg: Registry, run: RunId, acts: seq<Act>, n: nat, i: nat, calls: seq<ToolCall>)
    requires Legal(reg, run, acts) && n <= |acts| && GroupStuck(reg, Play(acts[..n]).db, run, i, calls)
    ensures GroupStuck(reg, Play(acts).db, run, i, calls) && !GroupDone(reg, Play(acts).db, run, i, calls, |calls|)
  {
    hide Legal, Play, GroupStuck, GroupDone, Inv;
    PlayGrows(reg, run, acts, n);
    StuckForGood(reg, Play(acts[..n]).db, Play(acts).db, run, i, calls);
  }

  /** Over every later history, a run never completes once an original that is not
      the last of its group was given up: the calls after it are never made. */
  lemma NeverCompleted(reg: Registry, run: RunId, acts: seq<Act>, n: nat, i: nat, k: nat, calls: seq<ToolCall>)
    requires Legal(reg, run, acts) && n <= |acts| && Asked(Play(acts[..n]).db, run, i, calls)
    requires k + 1 < |calls| && calls[k].name in reg && GivenUp(Play(acts[..n]).db, Original(reg, run, i, k, calls[k]))
    ensures var s := Play(acts).db;
            && !HasOriginal(s, run, i, k + 1) && RebuildFrom(s, run, 0).final.None?
            && (run in s.runs ==> s.runs[run].status != Completed)
  {
    hide Legal, Play, Inv, Asked, GivenUp, RebuildFrom;
    PlayGrows(reg, run, acts, n);
    PlayKeepsInv(reg, run, acts);
    var s := Play(acts).db;
    AskedStable(Play(acts[..n]).db, s, run, i, calls);
    GivenUpForGood(Play(acts[..n]).db, s, Original(reg, run, i, k, calls[k]));
    NothingAfter(reg, s, run, i, k, calls);
    NoEnd(reg, s, run, i, k + 1, calls);
  }

  lemma NothingAfter(reg: Registry, s: State, run: RunId, i: nat, k: nat, calls: seq<ToolCall>)
    requires Inv(reg, s, run) && Asked(s, run, i, calls)
    requires k + 1 < |calls| && calls[k].name in reg && GivenUp(s, Original(reg, run, i, k, calls[k]))
    ensures !HasOriginal(s, run, i, k + 1)
  {
    forall id <- s.steps ensures !IsOriginal(id, run, i, k + 1) {
      if IsOriginal(id, run, i, k + 1) { OnlyOneGroup(reg, s, run, i, k + 1, calls, id); }
    }
  }

  // The calls before an original have committed.
  lemma OnlyOneGroup(reg: Registry, s: State, run: RunId, i: nat, k: nat, calls: seq<ToolCall>, id: StepId)
    requires Inv(reg, s, run) && Asked(s, run, i, calls) && id in s.steps && IsOriginal(id, run, i, k)
    ensures k <= |calls| && GroupDone(reg, s, run, i, calls, k)
  {
    hide GroupDone;
    assert Justified(reg, s, id);
    var m :| CommittedModel(s, run, i, m) && var asked := s.steps[m].output.value.completion.message.toolCalls;
                                             k < |asked| && GroupDone(reg, s, run, i, asked, k);
    var n :| CommittedModel(s, run, i, n) && s.steps[n].output.value.completion.message.toolCalls == calls;
    CompletionIs(s, run, i, m);
    CompletionIs(s, run, i, n);
  }

  lemma NoEnd(reg: Registry, s: State, run: RunId, i: nat, k: nat, calls: seq<ToolCall>)
    requires Inv(reg, s, run) && Asked(s, run, i, calls) && k < |calls| && !HasOriginal(s, run, i, k)
    ensures RebuildFrom(s, run, 0).final.None? && (run in s.runs ==> s.runs[run].status != Completed)
  {
    hide RebuildFrom, Lineage, LeaseInv, TypedOutputs;
    var m :| CommittedModel(s, run, i, m) && s.steps[m].output.value.completion.message.toolCalls == calls;
    CompletionIs(s, run, i, m);
    assert OutputAt(s, run, i, k).None?;
    StopsAt(s, run, 0, i);
  }

  lemma {:induction false} StopsAt(s: State, run: RunId, j: nat, i: nat)
    requires j <= i && ReadyFor(s, run, i) && HasModel(s, run, i) && CallsAt(s, run, i) != [] && !OutputsDone(s, run, i)
    ensures RebuildFrom(s, run, j).final.None?
    decreases i - j
  {
    hide OutputsDone;
    if j < i {
      ReadyHasModel(s, run, i, j);
      StopsAt(s, run, j + 1, i);
    }
  }

  lemma ReadyHasModel(s: State, run: RunId, i: nat, j: nat)
    requires ReadyFor(s, run, i) && j < i
    ensures HasModel(s, run, j) && OutputsDone(s, run, j) && CallsAt(s, run, j) != []
  {
    assert OutputsDone(s, run, j);
  }

  // --- a history that gets there ---

  const RUN := "run"
  const REG: Registry := map["tool" := Reconcilable]
  const FIRST := ToolCall("call_0", "tool", Null)
  const CALLS := [FIRST, ToolCall("call_1", "tool", Null)]
  const ATTEMPT := StepId(RUN, "completion", ModelInput(0, 1, "model", []), ReadOnly, Some(0))
  const ASKED := CompletionOutput(Completion(Message("assistant", NoContent, None, CALLS, None), "model", 0))
  const CALL := Original(REG, RUN, 0, 0, FIRST)

  const WAITING := StepRow(Ready, None, None, 0, None, 0)
  const CLAIMED := StepRow(Leased, Some("worker"), Some(60), 1, None, 0)
  const STARTED := CLAIMED.(status := Executing)
  const LOST := StepRow(Uncertain, None, None, 1, None, 0)

  function Finished(output: Output): StepRow {
    StepRow(Committed, None, None, 1, Some(output), 0)
  }

  // Nothing but the steps and the log differs.
  predicate OnlySteps(s: State, t: State, steps: map<StepId, StepRow>, events: seq<Event>) {
    t == s.(steps := steps, events := events)
  }

  lemma Extend(acts: seq<Act>, act: Act) returns (more: seq<Act>)
    requires Legal(REG, RUN, acts) && LegalAct(REG, RUN, Play(acts), act)
    ensures more == acts + [act] && Legal(REG, RUN, more) && Play(more) == Step(Play(acts), act)
  {
    hide LegalAct, Step;
    more := acts + [act];
    assert more[..|acts|] == acts;
  }

  lemma CreateIt(s: State, id: StepId)
    requires id !in s.steps && Creatable(s, id)
    ensures OnlySteps(s, Next(s, CreateStepOp(id, 0)), s.steps[id := WAITING], s.events + [Event(id.run, Some(id), StepCreatedEvent)])
  {
  }

  lemma ClaimIt(s: State, id: StepId)
    requires id.run == RUN && RUN in s.runs && id in s.steps && s.steps[id] == WAITING
    requires forall x <- s.steps :: s.steps[x].status == Ready ==> x == id
    ensures OnlySteps(s, Next(s, ClaimOp("worker", 60, Some(RUN), 0, Some(id))), s.steps[id := CLAIMED],
                      s.events + [Event(RUN, Some(id), StepLeasedEvent("worker", 60, 1))])
  {
    assert FirstReady(s, Some(RUN), Some(id));
  }

  lemma ExecuteIt(s: State, id: StepId)
    requires id in s.steps && s.steps[id] == CLAIMED
    ensures OnlySteps(s, Next(s, MarkExecutingOp(id, "worker", 0)), s.steps[id := STARTED],
                      s.events + [Event(id.run, Some(id), StepExecutingEvent("worker"))])
  {
  }

  lemma CommitIt(s: State, id: StepId, output: Output)
    requires id in s.steps && s.steps[id] == STARTED
    ensures OnlySteps(s, Next(s, CommitOp(id, "worker", output, None, 0)), s.steps[id := Finished(output)],
                      s.events + [Event(id.run, Some(id), StepCommittedEvent("worker"))])
  {
  }

  lemma LoseIt(s: State, id: StepId)
    requires id in s.steps && s.steps[id] == STARTED && id.safety == Reconcilable
    ensures var t := Next(s, ReclaimOp([id], 100)); OnlySteps(s, t, s.steps[id := LOST], t.events)
  {
    assert [id][..0] == [];
    assert ReclaimExpiredLeases(s, [], 100) == s;
  }

  lemma OneMoreExecution(events: seq<Event>, id: StepId)
    ensures Executions(events + [Event(RUN, Some(id), StepCreatedEvent)] + [Event(RUN, Some(id), StepLeasedEvent("worker", 60, 1))]
                       + [Event(RUN, Some(id), StepExecutingEvent("worker"))], id) == Executions(events, id) + 1
  {
    var created := events + [Event(RUN, Some(id), StepCreatedEvent)];
    var leased := created + [Event(RUN, Some(id), StepLeasedEvent("worker", 60, 1))];
    ExecutionsAppend(events, Event(RUN, Some(id), StepCreatedEvent), id);
    ExecutionsAppend(created, Event(RUN, Some(id), StepLeasedEvent("worker", 60, 1)), id);
    ExecutionsAppend(leased, Event(RUN, Some(id), StepExecutingEvent("worker")), id);
  }

  // Create a step, claim it, put it into execution and start its handler.
  lemma Begin(acts: seq<Act>, id: StepId) returns (more: seq<Act>)
    requires Legal(REG, RUN, acts) && id.run == RUN
    requires var s := Play(acts).db;
             && id !in s.steps && Creatable(s, id) && Justified(REG, s, id) && (id.input.ModelInput? ==> NoLiveModel(s, id))
             && forall x <- s.steps :: s.steps[x].status != Ready
    ensures Legal(REG, RUN, more)
    ensures OnlySteps(Play(acts).db, Play(more).db, Play(acts).db.steps[id := STARTED], Play(more).db.events)
  {
    hide Legal, Play, Next, Justified, NoLiveModel, Executions, FirstReady;
    var s := Play(acts).db;
    PlayPays(REG, RUN, acts, id);
    CreateIt(s, id);
    more := Extend(acts, Do(CreateStepOp(id, 0)));
    ClaimIt(Play(more).db, id);
    more := Extend(more, Do(ClaimOp("worker", 60, Some(RUN), 0, Some(id))));
    ExecuteIt(Play(more).db, id);
    more := Extend(more, Do(MarkExecutingOp(id, "worker", 0)));
    OneMoreExecution(s.events, id);
    more := Extend(more, Invoke(id));
    assert s.steps[id := WAITING][id := CLAIMED][id := STARTED] == s.steps[id := STARTED];
  }

  // The whole life of a step that commits.
  lemma Execute(acts: seq<Act>, id: StepId, output: Output) returns (more: seq<Act>)
    requires Legal(REG, RUN, acts) && id.run == RUN && (id.input.ModelInput? <==> output.CompletionOutput?)
    requires var s := Play(acts).db;
             && id !in s.steps && Creatable(s, id) && Justified(REG, s, id) && (id.input.ModelInput? ==> NoLiveModel(s, id))
             && forall x <- s.steps :: s.steps[x].status != Ready
    ensures Legal(REG, RUN, more)
    ensures OnlySteps(Play(acts).db, Play(more).db, Play(acts).db.steps[id := Finished(output)], Play(more).db.events)
  {
    hide Legal, Play, Next, Justified, NoLiveModel, Creatable;
    more := Begin(acts, id);
    CommitIt(Play(more).db, id, output);
    more := Extend(more, Do(CommitOp(id, "worker", output, None, 0)));
    var s := Play(acts).db;
    assert s.steps[id := STARTED][id := Finished(output)] == s.steps[id := Finished(output)];
  }

  const IDENTITY := RunIdentity("chat", Null, NotMapping, Limits(None, None, None, None), None)
  const ROWS0 := map[RUN := RunRow(IDENTITY, Running, NOTHING, NOTHING)]

  lemma AtFirst()
    ensures Legal(REG, RUN, []) && Play([]) == GENESIS
  {
  }

  lemma CreateRunIt()
    ensures var t := Next(EMPTY, CreateRunOp(RUN, IDENTITY, None));
            t == EMPTY.(runs := map[RUN := RunRow(IDENTITY, RunCreated, NOTHING, NOTHING)], events := t.events)
  {
  }

  lemma SetRunningIt(s: State)
    requires s == EMPTY.(runs := map[RUN := RunRow(IDENTITY, RunCreated, NOTHING, NOTHING)], events := s.events)
    ensures var t := Next(s, MarkRunStatusOp(RUN, Running)); t == EMPTY.(runs := ROWS0, events := t.events)
  {
    assert s.runs[RUN := RunRow(IDENTITY, Running, NOTHING, NOTHING)] == ROWS0;
  }

  // The run is created and set running.
  lemma Open() returns (acts: seq<Act>)
    ensures Legal(REG, RUN, acts) && Play(acts).db == EMPTY.(runs := ROWS0, events := Play(acts).db.events)
  {
    hide Legal, Play, Next;
    AtFirst();
    CreateRunIt();
    acts := Extend([], Do(CreateRunOp(RUN, IDENTITY, None)));
    SetRunningIt(Play(acts).db);
    acts := Extend(acts, Do(MarkRunStatusOp(RUN, Running)));
  }

  const EMPTY_ANSWER := JsonOutput(Null)
  const RETRY := Replacement(CALL)
  const INQUIRY := ReconcileStep(CALL)
  const STEPS1 := map[ATTEMPT := Finished(ASKED)]
  const STEPS2 := STEPS1[CALL := LOST]
  const STEPS3 := STEPS2[INQUIRY := Finished(EMPTY_ANSWER)]
  const STEPS4 := STEPS3[RETRY := Finished(EMPTY_ANSWER)]

  predicate At(s: State, steps: map<StepId, StepRow>) {
    s == EMPTY.(runs := ROWS0, steps := steps, events := s.events)
  }

  lemma AttemptIsLegal(s: State)
    requires At(s, map[])
    ensures Creatable(s, ATTEMPT) && Justified(REG, s, ATTEMPT) && NoLiveModel(s, ATTEMPT)
  {
  }

  lemma CallIsLegal(s: State)
    requires At(s, STEPS1)
    ensures Creatable(s, CALL) && Justified(REG, s, CALL)
  {
    assert CommittedModel(s, RUN, 0, ATTEMPT);
  }

  lemma InquiryIsLegal(s: State)
    requires At(s, STEPS2)
    ensures Creatable(s, INQUIRY) && Justified(REG, s, INQUIRY)
  {
  }

  lemma RetryIsLegal(s: State)
    requires At(s, STEPS3)
    ensures Creatable(s, RETRY) && Justified(REG, s, RETRY)
  {
    assert ReconcileResult(s, CALL) == Some(Null);
  }

  // The state it gets to: the call is uncertain, its retry has committed, and the
  // second call of the group is outstanding.
  lemma ThatIsStuck(s: State)
    requires At(s, STEPS4) && Inv(REG, s, RUN)
    ensures UncertainIn(s, RUN, CALL) && Recovered(s, CALL) && Retried(s, CALL) && ReconciledReceipt(CALL) !in s.receipts
    ensures Asked(s, RUN, 0, CALLS) && GroupStuck(REG, s, RUN, 0, CALLS)
    ensures !OutputsDone(s, RUN, 0)
  {
    hide Inv, OutputsDone;
    assert CommittedModel(s, RUN, 0, ATTEMPT);
    assert CALLS[0].name in REG && GivenUp(s, Original(REG, RUN, 0, 0, CALLS[0]));
    SecondIsOutstanding(s);
  }

  lemma SecondIsOutstanding(s: State)
    requires At(s, STEPS4) && Inv(REG, s, RUN)
    ensures !OutputsDone(s, RUN, 0)
  {
    hide OutputAt;
    assert CommittedModel(s, RUN, 0, ATTEMPT);
    CompletionIs(s, RUN, 0, ATTEMPT);
    NoSecondOutput(s);
  }

  lemma NoSecondOutput(s: State)
    requires At(s, STEPS4)
    ensures OutputAt(s, RUN, 0, 1).None?
  {
    assert !HasOriginal(s, RUN, 0, 1);
  }

  /** A legal history that ends in such a state: a model asks for two calls; the
      first is lost while its handler runs; reconciliation finds no trace of it, so
      it is executed again and commits.  The run is still running, yet by
      `NeverAccepted` and `NeverCompleted` no recovery gets past that call, and no
      later history completes the run. */
  lemma StuckHappens() returns (acts: seq<Act>)
    ensures Legal(REG, RUN, acts)
    ensures var s := Play(acts).db;
            && UncertainIn(s, RUN, CALL) && Recovered(s, CALL) && Retried(s, CALL) && ReconciledReceipt(CALL) !in s.receipts
            && Asked(s, RUN, 0, CALLS) && GroupStuck(REG, s, RUN, 0, CALLS) && !OutputsDone(s, RUN, 0)
            && RUN in s.runs && s.runs[RUN].status == Running
  {
    hide Legal, Play, Next, Justified, NoLiveModel, Creatable, Inv, Asked, GroupStuck, OutputsDone;
    acts := Open();
    AttemptIsLegal(Play(acts).db);
    acts := Execute(acts, ATTEMPT, ASKED);
    CallIsLegal(Play(acts).db);
    acts := Begin(acts, CALL);
    LoseIt(Play(acts).db, CALL);
    acts := Extend(acts, Do(ReclaimOp([CALL], 100)));
    assert STEPS1[CALL := STARTED][CALL := LOST] == STEPS2;
    InquiryIsLegal(Play(acts).db);
    acts := Execute(acts, INQUIRY, EMPTY_ANSWER);
    RetryIsLegal(Play(acts).db);
    acts := Execute(acts, RETRY, EMPTY_ANSWER);
    PlayKeepsInv(REG, RUN, acts);
    ThatIsStuck(Play(acts).db);
  }
}
