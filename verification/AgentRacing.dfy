/**
 Runtimes of one run that race for its next model attempt.  Each reads the journal,
 decides on the next attempt, and creates it later, when others may have created
 attempts of their own.  As long as they share their configuration, the identity of
 an attempt by its content keeps one of them alive at most: every such history is
 legal.
 */
module AgentRacing {
  import opened Options
  import opened JournalTypes
  import opened JournalSpec
  import opened JournalHistory
  import opened AgentSpec
  import opened AgentInvariants
  import opened AgentSafety
  import opened AgentReplay
  import opened Sets

  // The configuration the runtimes share.
  datatype Shared = Shared(prompt: string, memory: Option<string>, model: string)

  predicate IsAttempt(id: StepId, run: RunId) {
    id.run == run && id.input.ModelInput?
  }

  function Attempt(run: RunId, i: nat, n: nat, model: string, messages: seq<Message>): StepId {
    StepId(run, "completion", ModelInput(i, n, model, messages), ReadOnly, Some(i * 1000))
  }

  ghost function Failed(s: State, run: RunId, i: nat): set<StepId> {
    set id <- s.steps | IsModel(id, run, i) && s.steps[id].status == StepStatus.Failed
  }

  // The conversation was rebuilt from one state and the earlier attempts were read
  // from another: none of them is alive, and their failures number the next one.
  ghost predicate Read(c: Shared, rebuilt: State, listed: State, run: RunId, id: StepId)
    requires id.input.ModelInput?
  {
    var i, r := id.input.iteration, RebuildFrom(rebuilt, run, 0);
    && run in rebuilt.runs && r.iteration == i && r.final.None?
    && (forall x <- listed.steps :: IsModel(x, run, i) ==> Dead(listed.steps[x].status))
    && id == Attempt(run, i, |Failed(listed, run, i)| + 1, c.model, RebuiltMessages(rebuilt, run, c.prompt, c.memory))
  }

  // Both reads happened before, in this order.
  ghost predicate ReadBefore(c: Shared, run: RunId, acts: seq<Act>, m: int, n: int, id: StepId)
    requires id.input.ModelInput?
  {
    0 <= m <= n <= |acts| && Read(c, Play(acts[..m]).db, Play(acts[..n]).db, run, id)
  }

  // The act creates an attempt that is not there yet.
  predicate Creates(run: RunId, s: State, act: Act) {
    act.Do? && act.op.CreateStepOp? && IsAttempt(act.op.id, run) && act.op.id !in s.steps
  }

  // Like a legal history, but an attempt may be created on an earlier reading.
  ghost predicate Racing(c: Shared, reg: Registry, run: RunId, acts: seq<Act>) {
    acts != [] ==>
      var prior, act := acts[..|acts| - 1], acts[|acts| - 1];
      && Racing(c, reg, run, prior)
      && if Creates(run, Play(prior).db, act) then exists m, n :: ReadBefore(c, run, prior, m, n, act.op.id)
         else LegalAct(reg, run, Play(prior), act)
  }

  // --- the conversation before an iteration ---

  ghost function Conversation(s: State, run: RunId, i: nat): seq<Message> {
    if forall j: nat | j < i :: HasModel(s, run, j) then Segments(s, run, i) else []
  }

  lemma ReadyHasModels(s: State, run: RunId, i: nat)
    requires ReadyFor(s, run, i)
    ensures forall j: nat | j < i :: HasModel(s, run, j) && OutputsDone(s, run, j) && CallsAt(s, run, j) != []
  {
    forall j: nat | j < i ensures HasModel(s, run, j) { assert OutputsDone(s, run, j); }
  }

  lemma {:induction false} ConversationStable(reg: Registry, s: State, t: State, run: RunId, i: nat)
    requires Grows(reg, s, t, run) && ReadyFor(s, run, i)
    ensures ReadyFor(t, run, i) && Conversation(t, run, i) == Conversation(s, run, i)
  {
    hide Grows, OutputAt, OutputsDone, HasModel, CompletionAt;
    ReadyForStable(reg, s, t, run, i);
    ReadyHasModels(s, run, i);
    ReadyHasModels(t, run, i);
    if i > 0 {
      assert ReadyFor(s, run, i - 1);
      ConversationStable(reg, s, t, run, i - 1);
      SegmentStable(reg, s, t, run, i - 1);
    }
  }

  lemma SegmentStable(reg: Registry, s: State, t: State, run: RunId, i: nat)
    requires Grows(reg, s, t, run) && OutputsDone(s, run, i)
    ensures HasModel(t, run, i) && Segment(t, run, i) == Segment(s, run, i)
  {
    CompletionStable(s, t, run, i);
    ToolMessagesStable(reg, s, t, run, i, 0);
  }

  lemma {:induction false} RebuildUpTo(s: State, run: RunId, j: nat, i: nat)
    requires j <= i && ReadyFor(s, run, i) && !HasModel(s, run, i)
    ensures (forall k: nat | k < i :: HasModel(s, run, k)) && Segments(s, run, j) + RebuildFrom(s, run, j).messages == Segments(s, run, i)
    decreases i - j
  {
    hide OutputAt, OutputsDone, CompletionAt;
    ReadyHasModels(s, run, i);
    if j < i {
      RebuildUpTo(s, run, j + 1, i);
      RebuildStep(s, run, j);
    }
  }

  // What was rebuilt is the conversation before the iteration.
  lemma RebuiltIs(c: Shared, s: State, run: RunId, i: nat)
    requires run in s.runs && RebuildFrom(s, run, 0).iteration == i && RebuildFrom(s, run, 0).final.None? && !HasModel(s, run, i)
    ensures ReadyFor(s, run, i)
    ensures RebuiltMessages(s, run, c.prompt, c.memory) == Opened(c, s, run) + Conversation(s, run, i)
  {
    hide RebuildFrom, HasModel, OutputsDone, InitialMessages;
    RebuildIsReady(s, run, 0);
    RebuildUpTo(s, run, 0, i);
    NoSegments(s, run);
  }

  ghost function Opened(c: Shared, s: State, run: RunId): seq<Message>
    requires run in s.runs
  {
    InitialMessages(c.prompt, c.memory, s.runs[run].identity)
  }

  // --- the attempts of a run are numbered ---

  function Sibling(id: StepId, n: nat): StepId
    requires id.input.ModelInput?
  {
    id.(input := id.input.(attempt := n))
  }

  // The attempt with this number and the content every attempt of the iteration has.
  ghost predicate Proper(c: Shared, s: State, run: RunId, id: StepId)
    requires id.input.ModelInput?
  {
    var i := id.input.iteration;
    && run in s.runs && ReadyFor(s, run, i) && id.input.attempt >= 1
    && id == Attempt(run, i, id.input.attempt, c.model, Opened(c, s, run) + Conversation(s, run, i))
  }

  // All attempts before it are there.
  predicate Follows(s: State, id: StepId)
    requires id.input.ModelInput?
  {
    forall n: nat | 1 <= n < id.input.attempt :: Sibling(id, n) in s.steps
  }

  ghost predicate Numbered(c: Shared, s: State, run: RunId) {
    forall id <- s.steps | IsAttempt(id, run) :: Proper(c, s, run, id) && Follows(s, id)
  }

  lemma ProperStable(c: Shared, reg: Registry, s: State, t: State, run: RunId, id: StepId)
    requires Grows(reg, s, t, run) && id.input.ModelInput? && Proper(c, s, run, id)
    ensures Proper(c, t, run, id)
  {
    hide ReadyFor, Conversation, InitialMessages;
    ConversationStable(reg, s, t, run, id.input.iteration);
    assert RunEvolves(s.runs[run], t.runs[run]);
  }

  lemma NumberedStable(c: Shared, reg: Registry, s: State, t: State, run: RunId)
    requires Grows(reg, s, t, run) && Numbered(c, s, run)
    requires forall id <- t.steps | IsAttempt(id, run) :: id in s.steps || (Proper(c, t, run, id) && Follows(t, id))
    ensures Numbered(c, t, run)
  {
    hide Proper;
    forall id <- t.steps | IsAttempt(id, run) ensures Proper(c, t, run, id) && Follows(t, id) {
      if id in s.steps {
        ProperStable(c, reg, s, t, run, id);
        assert forall n: nat | 1 <= n < id.input.attempt :: Sibling(id, n) in s.steps;
      }
    }
  }

  // --- the next attempt ---

  function Numbers(id: StepId, n: nat): set<StepId>
    requires id.input.ModelInput?
  {
    set k: nat | 1 <= k <= n :: Sibling(id, k)
  }

  lemma {:induction false} NumbersSize(id: StepId, n: nat)
    requires id.input.ModelInput?
    ensures |Numbers(id, n)| == n
  {
    if n == 0 {
      assert Numbers(id, n) == {};
    } else {
      NumbersSize(id, n - 1);
      assert Numbers(id, n) == Numbers(id, n - 1) + {Sibling(id, n)};
      assert Sibling(id, n) !in Numbers(id, n - 1) by {
        forall k: nat | 1 <= k <= n - 1 ensures Sibling(id, k) != Sibling(id, n) {
          assert Sibling(id, k).input.attempt == k && Sibling(id, n).input.attempt == n;
        }
      }
    }
  }

  // Two proper attempts of an iteration differ in their number only.
  lemma SameContent(c: Shared, s: State, run: RunId, id: StepId, x: StepId)
    requires id.input.ModelInput? && Proper(c, s, run, id) && IsModel(x, run, id.input.iteration) && Proper(c, s, run, x)
    ensures x == Sibling(id, x.input.attempt)
  {
  }

  /** An attempt numbered by the failures that were read, and not yet there, comes
      next: every attempt before it failed. */
  lemma AllBeforeFailed(c: Shared, s: State, run: RunId, id: StepId, k: nat)
    requires id.input.ModelInput? && Proper(c, s, run, id) && Numbered(c, s, run) && id !in s.steps
    requires id.input.attempt == |Failed(s, run, id.input.iteration)| + 1
    requires 1 <= k < id.input.attempt
    ensures Sibling(id, k) in Failed(s, run, id.input.iteration)
  {
    hide Proper;
    var i, failed := id.input.iteration, Failed(s, run, id.input.iteration);
    var n := id.input.attempt - 1;
    forall x | x in failed ensures x in Numbers(id, n) {
      SameContent(c, s, run, id, x);
      BelowTheGap(s, id, x);
      PositiveNumber(c, s, run, x);
    }
    NumbersSize(id, n);
    SubsetSize(failed, Numbers(id, n));
    assert failed == Numbers(id, n);
  }

  lemma PositiveNumber(c: Shared, s: State, run: RunId, x: StepId)
    requires x.input.ModelInput? && Proper(c, s, run, x)
    ensures x.input.attempt >= 1 && x.run == run
  {
  }

  lemma BelowTheGap(s: State, id: StepId, x: StepId)
    requires id.input.ModelInput? && id !in s.steps && id.input.attempt >= 1
    requires x.input.ModelInput? && x in s.steps && Follows(s, x) && x == Sibling(id, x.input.attempt)
    ensures x.input.attempt < id.input.attempt
  {
    assert Sibling(x, id.input.attempt) == id;
  }

  // --- every racing history is legal ---

  lemma {:induction false} RacingBefore(c: Shared, reg: Registry, run: RunId, acts: seq<Act>, n: nat)
    requires Racing(c, reg, run, acts) && n <= |acts|
    ensures Racing(c, reg, run, acts[..n])
    decreases |acts|
  {
    if n < |acts| {
      assert acts[..|acts| - 1][..n] == acts[..n];
      RacingBefore(c, reg, run, acts[..|acts| - 1], n);
    } else {
      assert acts[..n] == acts;
    }
  }

  // No model had answered when the conversation was rebuilt.
  lemma NoneCommitted(rebuilt: State, listed: State, run: RunId, i: nat)
    requires Extends(rebuilt, listed) && forall x <- listed.steps :: IsModel(x, run, i) ==> Dead(listed.steps[x].status)
    ensures !HasModel(rebuilt, run, i)
  {
    forall x ensures !CommittedModel(rebuilt, run, i, x) {
      if CommittedModel(rebuilt, run, i, x) { CommittedStable(rebuilt, listed, x); }
    }
  }

  lemma ReadIsProper(c: Shared, reg: Registry, rebuilt: State, listed: State, run: RunId, id: StepId)
    requires id.input.ModelInput? && Read(c, rebuilt, listed, run, id) && Grows(reg, rebuilt, listed, run)
    ensures Proper(c, rebuilt, run, id) && Proper(c, listed, run, id)
  {
    hide RebuildFrom, Conversation, InitialMessages, ReadyFor;
    NoneCommitted(rebuilt, listed, run, id.input.iteration);
    RebuiltIs(c, rebuilt, run, id.input.iteration);
    ProperStable(c, reg, rebuilt, listed, run, id);
  }

  lemma FailedStays(s: State, t: State, run: RunId, i: nat, x: StepId)
    requires Extends(s, t) && x in Failed(s, run, i)
    ensures x in t.steps && t.steps[x].status == StepStatus.Failed
  {
    assert RowEvolves(s.steps[x], t.steps[x]);
  }

  /** What was read before still allows the creation, whatever others created since. */
  lemma StillNext(c: Shared, reg: Registry, listed: State, s: State, run: RunId, id: StepId)
    requires id.input.ModelInput? && Grows(reg, listed, s, run) && Proper(c, listed, run, id)
    requires Numbered(c, listed, run) && Numbered(c, s, run) && id !in s.steps
    requires id.input.attempt == |Failed(listed, run, id.input.iteration)| + 1
    ensures Proper(c, s, run, id) && Follows(s, id) && NoLiveModel(s, id)
  {
    hide Proper, Failed, Numbered;
    var i := id.input.iteration;
    ProperStable(c, reg, listed, s, run, id);
    forall k: nat | 1 <= k < id.input.attempt
      ensures Sibling(id, k) in s.steps && s.steps[Sibling(id, k)].status == StepStatus.Failed
    {
      AllBeforeFailed(c, listed, run, id, k);
      FailedStays(listed, s, run, i, Sibling(id, k));
    }
    PositiveNumber(c, s, run, id);
    forall x <- s.steps | IsModel(x, run, i) ensures Dead(s.steps[x].status) {
      AttemptIs(c, s, run, x);
      SameContent(c, s, run, id, x);
      PositiveNumber(c, s, run, x);
      BelowTheGap(s, id, x);
    }
  }

  lemma AttemptIs(c: Shared, s: State, run: RunId, x: StepId)
    requires Numbered(c, s, run) && x in s.steps && IsAttempt(x, run)
    ensures Proper(c, s, run, x) && Follows(s, x)
  {
  }

  lemma CreationIsLegal(c: Shared, reg: Registry, s: State, run: RunId, id: StepId, now: int)
    requires IsAttempt(id, run) && Proper(c, s, run, id) && NoLiveModel(s, id)
    ensures LegalOp(reg, run, s, CreateStepOp(id, now))
  {
  }

  /** Reading the earlier attempts and creating the next need not be one step: with a
      shared configuration every racing history is a legal one, so one attempt of an
      iteration is alive at most and all safety theorems hold of it. */
  lemma {:induction false} RacingIsLegal(c: Shared, reg: Registry, run: RunId, acts: seq<Act>)
    requires Racing(c, reg, run, acts)
    ensures Legal(reg, run, acts) && Numbered(c, Play(acts).db, run) && OneLiveModel(Play(acts).db, run)
    decreases |acts|
  {
    hide Numbered, OneLiveModel, Inv, LegalOp, Next, Read, Proper, Follows, NoLiveModel;
    if acts == [] {
      NothingNumbered(c, run);
    } else {
      var prior, act := acts[..|acts| - 1], acts[|acts| - 1];
      RacingIsLegal(c, reg, run, prior);
      if Creates(run, Play(prior).db, act) {
        var m, n :| ReadBefore(c, run, prior, m, n, act.op.id);
        RacingBefore(c, reg, run, prior, n);
        RacingIsLegal(c, reg, run, prior[..n]);
        MayCreate(c, reg, run, prior, m, n, act.op.id);
        CreationIsLegal(c, reg, Play(prior).db, run, act.op.id, act.op.now);
      }
      StaysNumbered(c, reg, run, prior, act);
    }
    PlayKeepsInv(reg, run, acts);
    InvIsOneLive(reg, Play(acts).db, run);
  }

  lemma NothingNumbered(c: Shared, run: RunId)
    ensures Numbered(c, EMPTY, run)
  {
  }

  lemma InvIsOneLive(reg: Registry, s: State, run: RunId)
    requires Inv(reg, s, run)
    ensures OneLiveModel(s, run)
  {
  }

  lemma MayCreate(c: Shared, reg: Registry, run: RunId, acts: seq<Act>, m: nat, n: nat, id: StepId)
    requires Legal(reg, run, acts) && IsAttempt(id, run) && ReadBefore(c, run, acts, m, n, id)
    requires Numbered(c, Play(acts[..n]).db, run) && Numbered(c, Play(acts).db, run) && id !in Play(acts).db.steps
    ensures var s := Play(acts).db; Proper(c, s, run, id) && Follows(s, id) && NoLiveModel(s, id)
  {
    hide Legal, Play, Numbered, Proper, Follows, NoLiveModel, RebuildFrom, RebuiltMessages;
    PlayGrows(reg, run, acts, n);
    PlayGrows(reg, run, acts[..n], m);
    assert acts[..n][..m] == acts[..m];
    ReadIsProper(c, reg, Play(acts[..m]).db, Play(acts[..n]).db, run, id);
    StillNext(c, reg, Play(acts[..n]).db, Play(acts).db, run, id);
  }

  lemma StaysNumbered(c: Shared, reg: Registry, run: RunId, prior: seq<Act>, act: Act)
    requires Legal(reg, run, prior) && LegalAct(reg, run, Play(prior), act) && Numbered(c, Play(prior).db, run)
    requires Creates(run, Play(prior).db, act) ==> Proper(c, Play(prior).db, run, act.op.id) && Follows(Play(prior).db, act.op.id)
    ensures Numbered(c, Step(Play(prior), act).db, run)
  {
    hide Legal, Play, Numbered, Proper, Inv, Grows, LegalOp, Next;
    if act.Do? {
      var s := Play(prior).db;
      var t := Next(s, act.op);
      PlayKeepsInv(reg, run, prior);
      NextKeepsInv(reg, s, act.op, run);
      StepsStay(reg, s, t, run);
      forall id <- t.steps | IsAttempt(id, run) ensures id in s.steps || (Proper(c, t, run, id) && Follows(t, id)) {
        if id !in s.steps {
          NewStep(s, act.op, id);
          ProperStable(c, reg, s, t, run, id);
        }
      }
      NumberedStable(c, reg, s, t, run);
    }
  }

  lemma StepsStay(reg: Registry, s: State, t: State, run: RunId)
    requires Grows(reg, s, t, run)
    ensures s.steps.Keys <= t.steps.Keys
  {
  }
}
