/**
 Rebuilding and replaying a conversation from the journal, as the loops that do
 it, and the agreement of the two.
 */
module AgentReplay {
  import opened Options
  import opened JournalTypes
  import opened JournalSpec
  import opened JournalLeases
  import opened AgentSpec
  import opened AgentInvariants
  import opened AgentSafety
  import opened Sets

  predicate IsCommittedModel(s: State, id: StepId) {
    id in s.steps && id.input.ModelInput? && s.steps[id].status == Committed
    && s.steps[id].output.Some? && s.steps[id].output.value.CompletionOutput?
  }

  function CompletionOf(s: State, id: StepId): Completion
    requires IsCommittedModel(s, id)
  {
    s.steps[id].output.value.completion
  }

  // --- recorded tool results ---

  // The first listed step that recovers `o`, if any.
  method FindReplacement(ids: seq<StepId>, o: StepId) returns (r: Option<StepId>)
    ensures r.Some? ==> r.value in ids && r.value.input.ToolInput? && r.value.input.recoveryOf == Some(o)
    ensures r.None? ==> forall id <- ids :: !(id.input.ToolInput? && id.input.recoveryOf == Some(o))
  {
    for n := 0 to |ids|
      invariant forall m | 0 <= m < n :: !(ids[m].input.ToolInput? && ids[m].input.recoveryOf == Some(o))
    {
      if ids[n].input.ToolInput? && ids[n].input.recoveryOf == Some(o) { return Some(ids[n]); }
    }
    return None;
  }

  /** Resolve a tool result through receipts and recovery lineage. */
  method RecordedToolOutput(ghost reg: Registry, s: State, run: RunId, ids: seq<StepId>, original: StepId)
    returns (output: Option<Json>)
    requires IsListing(s, run, ids) && Lineage(reg, s, run) && TypedOutputs(s, run)
    requires original in s.steps && IsTool(original, run)
    ensures output == Recorded(s, original, {})
  {
    var current := original;
    var visited: set<StepId> := {};
    while current !in visited
      invariant current in s.steps && IsTool(current, run)
      invariant Recorded(s, original, {}) == Recorded(s, current, visited)
      decreases s.steps.Keys - visited
    {
      assert current in s.steps.Keys - visited;
      var row := s.steps[current];
      if row.status == Committed { return Some(ToolResult(row.output.value.json)); }
      if ReconciledReceipt(current) in s.receipts {
        return Some(ToolResult(s.receipts[ReconciledReceipt(current)].payload));
      }
      var replacement := FindReplacement(ids, current);
      if replacement.None? {
        assert Replacement(current) !in ids;
        return None;
      }
      assert Justified(reg, s, replacement.value);
      visited := visited + {current};
      current := replacement.value;
    }
    return None;
  }

  // The original tool steps of an iteration, by call index.
  method Originals(s: State, run: RunId, ids: seq<StepId>, i: nat) returns (originals: map<nat, StepId>)
    requires IsListing(s, run, ids)
    ensures forall k <- originals :: originals[k] in s.steps && IsOriginal(originals[k], run, i, k)
    ensures forall k: nat :: HasOriginal(s, run, i, k) ==> k in originals
  {
    originals := map[];
    for n := 0 to |ids|
      invariant forall k <- originals :: originals[k] in s.steps && IsOriginal(originals[k], run, i, k)
      invariant forall id <- ids[..n] :: id.input.ToolInput? && IsOriginal(id, run, i, id.input.callIndex) ==>
                id.input.callIndex in originals
    {
      var id := ids[n];
      if id.input.ToolInput? && id.input.iteration == i && id.input.recoveryOf.None? {
        originals := originals[id.input.callIndex := id];
      }
    }
    assert ids[..|ids|] == ids;
  }

  /** All results of one group of calls, or None when one is missing. */
  method ToolOutputs(ghost reg: Registry, s: State, run: RunId, ids: seq<StepId>, i: nat, calls: seq<ToolCall>)
    returns (outputs: Option<seq<Json>>)
    requires IsListing(s, run, ids) && Lineage(reg, s, run) && TypedOutputs(s, run) && OneLiveModel(s, run)
    ensures outputs.None? ==> exists k: nat | k < |calls| :: OutputAt(s, run, i, k).None?
    ensures outputs.Some? ==> |outputs.value| == |calls| &&
                              forall k: nat | k < |calls| :: OutputAt(s, run, i, k) == Some(outputs.value[k])
  {
    hide Lineage, Recorded, TypedOutputs, OneLiveModel;
    var originals := Originals(s, run, ids, i);
    var found: seq<Json> := [];
    for k := 0 to |calls|
      invariant |found| == k
      invariant forall n: nat | n < k :: OutputAt(s, run, i, n) == Some(found[n])
    {
      if k !in originals {
        assert OutputAt(s, run, i, k).None?;
        return None;
      }
      OutputIs(reg, s, run, i, k, originals[k]);
      var output := RecordedToolOutput(reg, s, run, ids, originals[k]);
      if output.None? { return None; }
      found := found + [output.value];
    }
    return Some(found);
  }

  lemma {:induction false} ToolMessagesAre(s: State, run: RunId, i: nat, k: nat, outputs: seq<Json>)
    requires HasModel(s, run, i) && |outputs| == |CallsAt(s, run, i)| && k <= |outputs|
    requires forall n: nat | n < |outputs| :: OutputAt(s, run, i, n) == Some(outputs[n])
    ensures |ToolMessages(s, run, i, k)| == |outputs| - k
    ensures forall n: nat | k <= n < |outputs| :: ToolMessages(s, run, i, k)[n - k] == ToolMessage(CallsAt(s, run, i)[n], outputs[n])
    decreases |outputs| - k
  {
    if k < |outputs| { ToolMessagesAre(s, run, i, k + 1, outputs); }
  }

  // The committed completions by iteration.
  method Completions(s: State, run: RunId, ids: seq<StepId>) returns (committed: map<nat, Completion>)
    requires IsListing(s, run, ids) && OneLiveModel(s, run)
    ensures forall i: nat :: i in committed <==> HasModel(s, run, i)
    ensures forall i <- committed :: committed[i] == CompletionAt(s, run, i)
  {
    hide OneLiveModel, HasModel, CompletionAt, CommittedModel, NotAfter;
    committed := map[];
    for n := 0 to |ids|
      invariant forall i <- committed :: HasModel(s, run, i) && committed[i] == CompletionAt(s, run, i)
      invariant forall id <- ids[..n] :: IsCommittedModel(s, id) ==> id.input.iteration in committed
    {
      if IsCommittedModel(s, ids[n]) {
        ListedCompletion(s, run, ids[n]);
        committed := committed[ids[n].input.iteration := CompletionOf(s, ids[n])];
      }
    }
    assert ids[..|ids|] == ids;
    forall i: nat | HasModel(s, run, i) ensures i in committed {
      var id := ModelIsListed(s, run, ids, i);
    }
  }

  lemma ListedCompletion(s: State, run: RunId, id: StepId)
    requires OneLiveModel(s, run) && IsCommittedModel(s, id) && id.run == run
    ensures HasModel(s, run, id.input.iteration) && CompletionAt(s, run, id.input.iteration) == CompletionOf(s, id)
  {
    assert CommittedModel(s, run, id.input.iteration, id);
    CompletionIs(s, run, id.input.iteration, id);
  }

  lemma ModelIsListed(s: State, run: RunId, ids: seq<StepId>, i: nat) returns (id: StepId)
    requires IsListing(s, run, ids) && HasModel(s, run, i)
    ensures id in ids && IsCommittedModel(s, id) && id.input.iteration == i
  {
    id :| CommittedModel(s, run, i, id);
  }

  /** The conversation rebuilt by following the committed completions up to the
      first gap. */
  method Reconstruct(ghost reg: Registry, s: State, run: RunId, ids: seq<StepId>, initial: seq<Message>) returns (r: Rebuilt)
    requires IsListing(s, run, ids) && Lineage(reg, s, run) && TypedOutputs(s, run) && OneLiveModel(s, run)
    ensures var spec := RebuildFrom(s, run, 0); r == spec.(messages := initial + spec.messages)
  {
    hide Lineage, OutputAt, TypedOutputs, OneLiveModel, IsListing;
    var committed := Completions(s, run, ids);
    var messages, next := initial, 0;
    ghost var spec := RebuildFrom(s, run, 0);
    while next in committed
      invariant var rest := RebuildFrom(s, run, next);
                initial + spec.messages == messages + rest.messages && spec.iteration == rest.iteration && spec.final == rest.final
      decreases |ModelsFrom(s, run, next)|
    {
      ghost var rest := RebuildFrom(s, run, next);
      ghost var before := messages;
      var message := committed[next].message;
      messages := messages + [message];
      if message.toolCalls == [] {
        return Rebuilt(messages, next + 1, Some(MessageText(message)));
      }
      var outputs := ToolOutputs(reg, s, run, ids, next, message.toolCalls);
      if outputs.None? { return Rebuilt(messages, next, None); }
      ToolMessagesAre(s, run, next, 0, outputs.value);
      var tools := seq(|outputs.value|, k requires 0 <= k < |outputs.value| => ToolMessage(message.toolCalls[k], outputs.value[k]));
      assert tools == ToolMessages(s, run, next, 0);
      messages := messages + tools;
      ModelsShrink(s, run, next);
      next := next + 1;
      assert rest.messages == [message] + tools + RebuildFrom(s, run, next).messages;
      assert before + rest.messages == messages + RebuildFrom(s, run, next).messages;
    }
    return Rebuilt(messages, next, None);
  }

  // --- recorded replay ---

  // What one listed step contributes: its message and the results that follow it.
  ghost function Segment(s: State, run: RunId, i: nat): seq<Message>
    requires HasModel(s, run, i)
  {
    [CompletionAt(s, run, i).message] + ToolMessages(s, run, i, 0)
  }

  datatype Replay = Replay(messages: seq<Message>, final: Option<Content>)

  // The steps in listed order, with no check that iterations are contiguous.
  ghost function Replayed(s: State, run: RunId, ids: seq<StepId>): Replay
    requires OneLiveModel(s, run) && forall id <- ids :: id.run == run
  {
    if ids == [] then Replay([], None)
    else
      var prior, id := Replayed(s, run, ids[..|ids| - 1]), ids[|ids| - 1];
      if IsCommittedModel(s, id) then
        assert CommittedModel(s, run, id.input.iteration, id);
        Replay(prior.messages + Segment(s, run, id.input.iteration),
               if CompletionOf(s, id).message.toolCalls == [] then Some(MessageText(CompletionOf(s, id).message)) else prior.final)
      else prior
  }

  lemma ReplayedNext(s: State, run: RunId, ids: seq<StepId>, n: nat)
    requires OneLiveModel(s, run) && n < |ids| && forall id <- ids :: id.run == run
    ensures var prior, next, id := Replayed(s, run, ids[..n]), Replayed(s, run, ids[..n + 1]), ids[n];
            if IsCommittedModel(s, id) then
              && HasModel(s, run, id.input.iteration)
              && next == Replay(prior.messages + Segment(s, run, id.input.iteration),
                                if CompletionOf(s, id).message.toolCalls == [] then Some(MessageText(CompletionOf(s, id).message)) else prior.final)
            else next == prior
  {
    hide OneLiveModel;
    assert ids[..n + 1][..n] == ids[..n] && ids[..n + 1][n] == ids[n];
    if IsCommittedModel(s, ids[n]) { assert CommittedModel(s, run, ids[n].input.iteration, ids[n]); }
  }

  /** The timeline replayed step by step, executing nothing. */
  method RecordedReplay(ghost reg: Registry, s: State, run: RunId, ids: seq<StepId>) returns (r: Replay)
    requires run in s.runs && IsListing(s, run, ids)
    requires Lineage(reg, s, run) && TypedOutputs(s, run) && OneLiveModel(s, run)
    ensures var spec := Replayed(s, run, ids);
            r == spec.(messages := ReplayInitial(s.runs[run].identity) + spec.messages)
  {
    hide Lineage, OutputAt, OneLiveModel, Replayed, ReplayInitial;
    var initial := ReplayInitial(s.runs[run].identity);
    var messages, final := initial, None;
    NothingReplayed(s, run);
    for n := 0 to |ids|
      invariant messages == initial + Replayed(s, run, ids[..n]).messages && final == Replayed(s, run, ids[..n]).final
    {
      var id := ids[n];
      ReplayedNext(s, run, ids, n);
      if id.input.ModelInput? && s.steps[id].status == Committed {
        CompletionIs(s, run, id.input.iteration, id);
        var message := CompletionOf(s, id).message;
        if message.toolCalls == [] {
          final := Some(MessageText(message));
          messages := messages + [message];
        } else {
          var tools := ReplayTools(reg, s, run, ids, id.input.iteration, message.toolCalls);
          messages := messages + [message] + tools;
        }
      }
    }
    assert ids[..|ids|] == ids;
    return Replay(messages, final);
  }

  // The tool messages of one group up to the first missing result.
  method ReplayTools(ghost reg: Registry, s: State, run: RunId, ids: seq<StepId>, i: nat, calls: seq<ToolCall>)
    returns (tools: seq<Message>)
    requires IsListing(s, run, ids) && Lineage(reg, s, run) && TypedOutputs(s, run) && OneLiveModel(s, run)
    requires HasModel(s, run, i) && calls == CallsAt(s, run, i)
    ensures tools == ToolMessages(s, run, i, 0)
  {
    hide Lineage, Recorded, TypedOutputs, OneLiveModel;
    var originals := Originals(s, run, ids, i);
    tools := [];
    for k := 0 to |calls|
      invariant tools + ToolMessages(s, run, i, k) == ToolMessages(s, run, i, 0)
    {
      if k !in originals {
        assert OutputAt(s, run, i, k).None?;
        return;
      }
      OutputIs(reg, s, run, i, k, originals[k]);
      var output := RecordedToolOutput(reg, s, run, ids, originals[k]);
      if output.None? { return; }
      tools := tools + [ToolMessage(calls[k], output.value)];
    }
  }

  // --- the messages that open a conversation ---

  function Opening(system: Option<string>, memory: Option<string>, request: Json): seq<Message> {
    var prompt := if request.Object? then (if "prompt" in request.fields then request.fields["prompt"] else Null) else request;
    var content := if prompt.Text? then Plain(prompt.s) else Canonical(prompt);
    var user := if memory.Some? && memory.value != "" then Joined(content, memory.value) else content;
    (if system.Some? && system.value != "" then [Message("system", Plain(system.value), None, [], None)] else [])
    + [Message("user", user, None, [], None)]
  }

  // The runtime falls back to its own defaults for what the run does not record.
  function InitialMessages(defaultPrompt: string, defaultMemory: Option<string>, identity: RunIdentity): seq<Message> {
    match identity.config
    case NotMapping => Opening(Some(defaultPrompt), defaultMemory, identity.request)
    case Mapping(system, memory, _) =>
      Opening(if system.Some? then system.value else Some(defaultPrompt), memory, identity.request)
  }

  // Replay has no defaults to fall back to.
  function ReplayInitial(identity: RunIdentity): seq<Message> {
    match identity.config
    case NotMapping => Opening(None, None, identity.request)
    case Mapping(system, memory, _) => Opening(if system.Some? then system.value else None, memory, identity.request)
  }

  /** The messages that open a conversation, case by case: the system prompt of the run
      unless it is empty, the default only if the run records none at all, and the
      request, with the memory context after it unless that is empty. */
  lemma OpensWith(other: string, memory: Option<string>, id: RunIdentity, p: string, m: string, text: string, names: set<string>)
    requires p != "" && m != "" && (id.request == Text(text) || id.request == Object(map["prompt" := Text(text)]))
    ensures var system, user := Message("system", Plain(p), None, [], None), Message("user", Plain(text), None, [], None);
            var joined := Message("user", Joined(Plain(text), m), None, [], None);
            && InitialMessages(other, memory, id.(config := Mapping(Some(Some(p)), Some(m), names))) == [system, joined]
            && InitialMessages(other, memory, id.(config := Mapping(Some(Some(p)), Some(""), names))) == [system, user]
            && InitialMessages(other, memory, id.(config := Mapping(Some(Some(p)), None, names))) == [system, user]
            && InitialMessages(other, memory, id.(config := Mapping(Some(Some("")), Some(m), names))) == [joined]
            && InitialMessages(other, memory, id.(config := Mapping(Some(None), None, names))) == [user]
            && InitialMessages(p, memory, id.(config := Mapping(None, Some(m), names))) == [system, joined]
            && InitialMessages("", memory, id.(config := Mapping(None, None, names))) == [user]
            && InitialMessages(p, Some(m), id.(config := NotMapping)) == [system, joined]
            && InitialMessages("", None, id.(config := NotMapping)) == [user]
            && ReplayInitial(id.(config := Mapping(Some(Some(p)), Some(m), names))) == [system, joined]
            && ReplayInitial(id.(config := Mapping(None, None, names))) == [user] && ReplayInitial(id.(config := NotMapping)) == [user]
  {
  }

  /** A request that is no text is shown in its canonical form: the prompt in it, or
      null without one; what is no mapping is the prompt itself. */
  lemma OpensWithJson(other: string, memory: Option<string>, id: RunIdentity, j: Json)
    requires id.config == Mapping(Some(None), None, {}) && !j.Text?
    ensures id.request == Object(map["prompt" := j]) ==> InitialMessages(other, memory, id) == [Message("user", Canonical(j), None, [], None)]
    ensures id.request == Object(map[]) ==> InitialMessages(other, memory, id) == [Message("user", Canonical(Null), None, [], None)]
    ensures id.request == j && !j.Object? ==> InitialMessages(other, memory, id) == [Message("user", Canonical(j), None, [], None)]
  {
  }

  // The run records a system prompt or the runtime has none, and likewise for the
  // memory context.
  predicate RecordsOpening(defaultPrompt: string, defaultMemory: Option<string>, identity: RunIdentity) {
    && (defaultPrompt == "" || (identity.config.Mapping? && identity.config.systemPrompt.Some?))
    && (identity.config.Mapping? || defaultMemory.None? || defaultMemory.value == "")
  }

  /** Both open the conversation alike exactly when the run records what the
      runtime would otherwise default. */
  lemma OpeningsAgree(defaultPrompt: string, defaultMemory: Option<string>, identity: RunIdentity)
    ensures InitialMessages(defaultPrompt, defaultMemory, identity) == ReplayInitial(identity) <==>
            RecordsOpening(defaultPrompt, defaultMemory, identity)
  {
    var a, b := InitialMessages(defaultPrompt, defaultMemory, identity), ReplayInitial(identity);
    assert a[|a| - 1] != b[|b| - 1] ==> a != b;
  }

  // Openings of different lengths differ from the first message on.
  lemma OpeningsStart(defaultPrompt: string, defaultMemory: Option<string>, identity: RunIdentity)
    ensures var a, b := InitialMessages(defaultPrompt, defaultMemory, identity), ReplayInitial(identity);
            a != [] && b != [] && (|a| == |b| || a[0] != b[0])
  {
  }

  lemma PrefixAfter<T>(a: seq<T>, x: seq<T>, b: seq<T>, y: seq<T>)
    requires x <= y && a != [] && b != [] && (|a| == |b| || a[0] != b[0])
    ensures a + x <= b + y <==> a == b
    ensures a + x == b + y <==> a == b && x == y
  {
    if a + x <= b + y {
      assert (a + x)[0] == a[0] && (b + y)[0] == b[0];
      assert (b + y)[..|a|] == a && (b + y)[..|b|] == b;
    }
    if a + x == b + y {
      assert (a + x)[|a|..] == x && (b + y)[|b|..] == y;
    }
  }

  // --- agreement ---

  // Where a conversation continues, everything before is complete.
  lemma {:induction false} RebuildIsReady(s: State, run: RunId, i: nat)
    requires ReadyFor(s, run, i)
    ensures RebuildFrom(s, run, i).final.None? ==> ReadyFor(s, run, RebuildFrom(s, run, i).iteration)
    decreases |ModelsFrom(s, run, i)|
  {
    if HasModel(s, run, i) && CallsAt(s, run, i) != [] && OutputsDone(s, run, i) {
      ModelsShrink(s, run, i);
      RebuildIsReady(s, run, i + 1);
    }
  }

  ghost function Segments(s: State, run: RunId, n: nat): seq<Message>
    requires forall i: nat | i < n :: HasModel(s, run, i)
  {
    if n == 0 then [] else Segments(s, run, n - 1) + Segment(s, run, n - 1)
  }

  // Some listed step is the committed model of iteration i.
  ghost predicate Seen(s: State, run: RunId, ids: seq<StepId>, i: nat) {
    exists id :: id in ids && CommittedModel(s, run, i, id)
  }

  lemma ModelsAreContiguous(s: State, run: RunId, i: nat, j: nat)
    requires ModelsReady(s, run) && HasModel(s, run, i) && j < i
    ensures OutputsDone(s, run, j) && CallsAt(s, run, j) != []
  {
    var id :| CommittedModel(s, run, i, id);
    assert LegalModel(s, id);
  }

  lemma SeenExtends(s: State, run: RunId, ids: seq<StepId>, id: StepId, i: nat)
    ensures Seen(s, run, ids + [id], i) <==> Seen(s, run, ids, i) || CommittedModel(s, run, i, id)
  {
    if Seen(s, run, ids, i) {
      var x :| x in ids && CommittedModel(s, run, i, x);
      assert x in ids + [id];
    }
    if CommittedModel(s, run, i, id) { assert id in ids + [id]; }
  }

  // What replay has produced once the iterations below c were listed.
  ghost predicate ReplayedTo(s: State, run: RunId, ids: seq<StepId>, c: nat)
    requires OneLiveModel(s, run) && forall id <- ids :: id.run == run
  {
    && (forall i: nat | i < c :: HasModel(s, run, i))
    && Replayed(s, run, ids).messages == Segments(s, run, c)
    && Replayed(s, run, ids).final ==
       if c > 0 && CallsAt(s, run, c - 1) == [] then Some(MessageText(CompletionAt(s, run, c - 1).message)) else None
  }

  lemma ReplayedStep(s: State, run: RunId, ids: seq<StepId>, id: StepId, c: nat)
    requires OneLiveModel(s, run) && id.run == run && forall x <- ids :: x.run == run
    requires ReplayedTo(s, run, ids, c) && CommittedModel(s, run, c, id)
    requires c > 0 ==> CallsAt(s, run, c - 1) != []
    ensures ReplayedTo(s, run, ids + [id], c + 1)
  {
    hide ToolMessages, OneLiveModel;
    CompletionIs(s, run, c, id);
    assert (ids + [id])[..|ids|] == ids;
  }

  lemma ReplayedSkip(s: State, run: RunId, ids: seq<StepId>, id: StepId, c: nat)
    requires OneLiveModel(s, run) && id.run == run && forall x <- ids :: x.run == run
    requires ReplayedTo(s, run, ids, c) && !IsCommittedModel(s, id)
    ensures ReplayedTo(s, run, ids + [id], c)
  {
    hide ToolMessages, OneLiveModel, Segments, HasModel;
    assert (ids + [id])[..|ids|] == ids;
  }

  // In listed order the committed models appear by iteration, without a gap.
  lemma {:induction false} ReplayIsSegments(s: State, run: RunId, ids: seq<StepId>, m: nat) returns (c: nat)
    requires IsListing(s, run, ids) && OneLiveModel(s, run) && ModelsReady(s, run) && m <= |ids|
    ensures forall i: nat :: i < c <==> Seen(s, run, ids[..m], i)
    ensures ReplayedTo(s, run, ids[..m], c)
  {
    hide ReplayedTo, Seen, OneLiveModel, ModelsReady;
    if m == 0 {
      c := 0;
      NothingReplayed(s, run);
      assert ids[..m] == [];
    } else {
      c := ReplayIsSegments(s, run, ids, m - 1);
      var id := ids[m - 1];
      assert ids[..m] == ids[..m - 1] + [id];
      forall i: nat ensures Seen(s, run, ids[..m], i) <==> Seen(s, run, ids[..m - 1], i) || CommittedModel(s, run, i, id) {
        SeenExtends(s, run, ids[..m - 1], id, i);
      }
      if IsCommittedModel(s, id) {
        NextInOrder(s, run, ids, m - 1, c);
        ReplayedStep(s, run, ids[..m - 1], id, c);
        c := c + 1;
      } else {
        ReplayedSkip(s, run, ids[..m - 1], id, c);
      }
    }
  }

  lemma NothingReplayed(s: State, run: RunId)
    requires OneLiveModel(s, run)
    ensures ReplayedTo(s, run, [], 0) && forall i: nat :: !Seen(s, run, [], i)
  {
  }

  // The next committed model in the list is the one of the next iteration.
  lemma NextInOrder(s: State, run: RunId, ids: seq<StepId>, m: nat, c: nat)
    requires IsListing(s, run, ids) && OneLiveModel(s, run) && ModelsReady(s, run) && m < |ids| && IsCommittedModel(s, ids[m])
    requires forall i: nat :: i < c <==> Seen(s, run, ids[..m], i)
    ensures ids[m].input.iteration == c
    ensures c > 0 ==> HasModel(s, run, c - 1) && CallsAt(s, run, c - 1) != []
  {
    hide Seen, OutputsDone, ReadyFor;
    var i, listed := ids[m].input.iteration, ids[..m];
    assert CommittedModel(s, run, i, ids[m]);
    SeenOnce(s, run, ids, m, i);
    forall j: nat | j < i ensures Seen(s, run, listed, j) {
      SeenEarlier(s, run, ids, m, j);
    }
    assert Seen(s, run, listed, c) || i <= c;
    if c > 0 { ModelsAreContiguous(s, run, i, c - 1); }
  }

  lemma SeenOnce(s: State, run: RunId, ids: seq<StepId>, m: nat, i: nat)
    requires IsListing(s, run, ids) && OneLiveModel(s, run) && m < |ids| && CommittedModel(s, run, i, ids[m])
    ensures !Seen(s, run, ids[..m], i)
  {
    assert forall id :: CommittedModel(s, run, i, id) ==> id == ids[m];
    assert ids[m] !in ids[..m];
  }

  lemma SeenEarlier(s: State, run: RunId, ids: seq<StepId>, m: nat, j: nat)
    requires IsListing(s, run, ids) && ModelsReady(s, run) && m < |ids| && IsCommittedModel(s, ids[m])
    requires j < ids[m].input.iteration
    ensures Seen(s, run, ids[..m], j)
  {
    hide ReadyFor, OutputAt;
    assert CommittedModel(s, run, ids[m].input.iteration, ids[m]);
    ModelsAreContiguous(s, run, ids[m].input.iteration, j);
    var id :| CommittedModel(s, run, j, id);
    assert id in ids;
    var n :| 0 <= n < |ids| && ids[n] == id;
    assert LegalModel(s, id) && LegalModel(s, ids[m]);
    assert !(m < n);
    assert ids[..m][n] == id;
  }

  // Recovery follows the same segments from iteration i on.
  lemma {:induction false} RebuildFollowsSegments(s: State, run: RunId, i: nat, c: nat)
    requires ModelsReady(s, run) && i <= c && forall j: nat :: j < c <==> HasModel(s, run, j)
    ensures var r := RebuildFrom(s, run, i);
            && Segments(s, run, i) + r.messages <= Segments(s, run, c)
            && (Segments(s, run, i) + r.messages == Segments(s, run, c) <==>
                  r.final.Some? || !HasModel(s, run, r.iteration) || OutputAt(s, run, r.iteration, 0).None?)
            && r.final == if i < c && CallsAt(s, run, c - 1) == [] then Some(MessageText(CompletionAt(s, run, c - 1).message)) else None
    decreases c - i
  {
    hide ModelsReady, HasModel, CompletionAt;
    if i < c {
      if i + 1 < c { ModelsAreContiguous(s, run, c - 1, i); }
      if CallsAt(s, run, i) != [] && OutputsDone(s, run, i) {
        RebuildFollowsSegments(s, run, i + 1, c);
        RebuildStep(s, run, i);
      } else {
        hide OutputAt;
        assert i + 1 == c;
        RebuildStops(s, run, i);
      }
    }
  }

  lemma RebuildStep(s: State, run: RunId, i: nat)
    requires (forall j: nat :: j <= i ==> HasModel(s, run, j)) && CallsAt(s, run, i) != [] && OutputsDone(s, run, i)
    ensures var r, rest := RebuildFrom(s, run, i), RebuildFrom(s, run, i + 1);
            && r.iteration == rest.iteration && r.final == rest.final
            && Segments(s, run, i) + r.messages == Segments(s, run, i + 1) + rest.messages
  {
    hide OutputAt, CompletionAt, HasModel;
    var r, rest := RebuildFrom(s, run, i), RebuildFrom(s, run, i + 1);
    assert r.messages == Segment(s, run, i) + rest.messages;
    assert Segments(s, run, i + 1) == Segments(s, run, i) + Segment(s, run, i);
  }

  lemma RebuildStops(s: State, run: RunId, i: nat)
    requires (forall j: nat :: j <= i ==> HasModel(s, run, j)) && (CallsAt(s, run, i) == [] || !OutputsDone(s, run, i))
    ensures var r := RebuildFrom(s, run, i);
            && r.final == (if CallsAt(s, run, i) == [] then Some(MessageText(CompletionAt(s, run, i).message)) else None)
            && (r.final.None? ==> r.iteration == i)
            && Segments(s, run, i) + r.messages <= Segments(s, run, i + 1)
            && (Segments(s, run, i) + r.messages == Segments(s, run, i + 1) <==> r.final.Some? || OutputAt(s, run, i, 0).None?)
  {
    hide OutputAt, CompletionAt, HasModel;
    var r, tools := RebuildFrom(s, run, i), ToolMessages(s, run, i, 0);
    assert r.messages == [CompletionAt(s, run, i).message];
    assert Segments(s, run, i + 1) == Segments(s, run, i) + r.messages + tools;
    assert tools == [] <==> r.final.Some? || OutputAt(s, run, i, 0).None?;
  }

  /** Replay agrees with recovery: the conversation that recovery rebuilds, by
      iteration and only while iterations are contiguous, is a prefix of the one
      replayed in step order; both find the same final output; and they differ
      exactly in the results recorded for an unfinished group of calls. */
  lemma ReplayAgrees(reg: Registry, s: State, run: RunId, ids: seq<StepId>)
    requires Inv(reg, s, run) && IsListing(s, run, ids)
    ensures var rebuilt, replayed := RebuildFrom(s, run, 0), Replayed(s, run, ids);
            && rebuilt.messages <= replayed.messages
            && rebuilt.final == replayed.final
            && (rebuilt.messages == replayed.messages <==>
                  rebuilt.final.Some? || !HasModel(s, run, rebuilt.iteration) || OutputAt(s, run, rebuilt.iteration, 0).None?)
    ensures run in s.runs && s.runs[run].status == Completed ==>
              RebuildFrom(s, run, 0).messages == Replayed(s, run, ids).messages && Replayed(s, run, ids).final.Some?
  {
    hide RebuildFrom, Replayed, Segments, LeaseInv, Lineage, TypedOutputs, ModelsReady, OneLiveModel;
    var c := ReplayIsSegments(s, run, ids, |ids|);
    assert ids[..|ids|] == ids;
    forall j: nat ensures j < c <==> HasModel(s, run, j) {
      if HasModel(s, run, j) {
        var id :| CommittedModel(s, run, j, id);
        assert id in ids;
        assert Seen(s, run, ids, j);
      }
    }
    RebuildFollowsSegments(s, run, 0, c);
    NoSegments(s, run);
  }

  lemma NoSegments(s: State, run: RunId)
    ensures Segments(s, run, 0) == []
  {
  }

  // The whole conversation, as recovery hands it to the next model call.
  ghost function RebuiltMessages(s: State, run: RunId, defaultPrompt: string, defaultMemory: Option<string>): seq<Message>
    requires run in s.runs
  {
    InitialMessages(defaultPrompt, defaultMemory, s.runs[run].identity) + RebuildFrom(s, run, 0).messages
  }

  // The whole conversation, as replay returns it.
  ghost function ReplayedMessages(s: State, run: RunId, ids: seq<StepId>): seq<Message>
    requires run in s.runs && OneLiveModel(s, run) && forall id <- ids :: id.run == run
  {
    ReplayInitial(s.runs[run].identity) + Replayed(s, run, ids).messages
  }

  /** With their openings, the rebuilt conversation is a prefix of the replayed one
      exactly if the run records its opening, and both are equal exactly if it does
      and no results of an unfinished group are recorded. */
  lemma ConversationsAgree(reg: Registry, s: State, run: RunId, ids: seq<StepId>, defaultPrompt: string, defaultMemory: Option<string>)
    requires Inv(reg, s, run) && IsListing(s, run, ids) && run in s.runs
    ensures var rebuilt := RebuildFrom(s, run, 0);
            var a, b := RebuiltMessages(s, run, defaultPrompt, defaultMemory), ReplayedMessages(s, run, ids);
            var recorded := RecordsOpening(defaultPrompt, defaultMemory, s.runs[run].identity);
            && (a <= b <==> recorded)
            && (a == b <==> recorded && (rebuilt.final.Some? || !HasModel(s, run, rebuilt.iteration)
                                         || OutputAt(s, run, rebuilt.iteration, 0).None?))
  {
    hide RebuildFrom, Replayed, InitialMessages, ReplayInitial, RecordsOpening, OneLiveModel;
    var identity := s.runs[run].identity;
    ReplayAgrees(reg, s, run, ids);
    OpeningsAgree(defaultPrompt, defaultMemory, identity);
    OpeningsStart(defaultPrompt, defaultMemory, identity);
    PrefixAfter(InitialMessages(defaultPrompt, defaultMemory, identity), RebuildFrom(s, run, 0).messages,
                ReplayInitial(identity), Replayed(s, run, ids).messages);
  }

  /** The same over whole runs: at every moment of every legal interleaving the
      final outputs agree, the conversations agree exactly if the run records its
      opening, and those of a completed run are then equal. */
  lemma ReplayAgreesAlways(reg: Registry, run: RunId, acts: seq<Act>, ids: seq<StepId>, defaultPrompt: string,
                           defaultMemory: Option<string>)
    requires Legal(reg, run, acts) && IsListing(Play(acts).db, run, ids)
    ensures var s := Play(acts).db;
            && OneLiveModel(s, run)
            && RebuildFrom(s, run, 0).messages <= Replayed(s, run, ids).messages
            && RebuildFrom(s, run, 0).final == Replayed(s, run, ids).final
            && (run in s.runs && s.runs[run].status == Completed ==>
                  RebuildFrom(s, run, 0).messages == Replayed(s, run, ids).messages && Replayed(s, run, ids).final.Some?)
    ensures var s := Play(acts).db;
            run in s.runs ==>
              var a, b := RebuiltMessages(s, run, defaultPrompt, defaultMemory), ReplayedMessages(s, run, ids);
              var recorded := RecordsOpening(defaultPrompt, defaultMemory, s.runs[run].identity);
              (a <= b <==> recorded) && (s.runs[run].status == Completed ==> (a == b <==> recorded))
  {
    hide Legal, Play, RebuildFrom, Replayed, InitialMessages, ReplayInitial, RecordsOpening;
    PlayKeepsInv(reg, run, acts);
    var s := Play(acts).db;
    ReplayAgrees(reg, s, run, ids);
    if run in s.runs { ConversationsAgree(reg, s, run, ids, defaultPrompt, defaultMemory); }
  }

  const DEFAULT_PROMPT := "You are a helpful assistant."

  /** A run whose configuration is not recorded, from its creation on: recovery opens
      with the default system prompt, replay does not. */
  lemma OpeningsDiffer(run: RunId)
    ensures var identity := RunIdentity("chat", Text("hello"), NotMapping, Limits(None, None, None, None), None);
            var acts := [Do(CreateRunOp(run, identity, None))];
            var s := Play(acts).db;
            && Legal(map[], run, acts) && IsListing(s, run, []) && OneLiveModel(s, run)
            && run in s.runs && s.runs[run].identity == identity
            && !(RebuiltMessages(s, run, DEFAULT_PROMPT, None) <= ReplayedMessages(s, run, []))
  {
    var identity := RunIdentity("chat", Text("hello"), NotMapping, Limits(None, None, None, None), None);
    var acts := [Do(CreateRunOp(run, identity, None))];
    FirstAct(run, acts[0]);
    hide Legal, Play, RebuildFrom, Replayed, InitialMessages, ReplayInitial;
    ReplayAgreesAlways(map[], run, acts, [], DEFAULT_PROMPT, None);
  }

  lemma FirstAct(run: RunId, act: Act)
    requires act.Do? && LegalOp(map[], run, EMPTY, act.op)
    ensures Legal(map[], run, [act]) && Play([act]).db == Next(EMPTY, act.op)
  {
    assert [act][..0] == [];
  }
}
