/**
 What handlers and reconcilers answered, and what becomes of it: which answers prove
 that a call was applied, and where a result comes out again.
 */
module AgentAnswers {
  import opened Options
  import opened JournalTypes
  import opened JournalSpec
  import opened AgentSpec
  import opened AgentInvariants
  import opened AgentSafety

  // --- answers of a reconciler ---

  // The values a condition takes for false.
  predicate Falsy(v: Json) {
    v in {Null, Bool(false), Num(0), Text(""), Array([]), Object(map[])}
  }

  // The answer says that the call was applied.
  predicate SaysApplied(answer: Json) {
    match answer
    case Object(f) =>
      || ("found" in f && !Falsy(f["found"]))
      || ("already_applied" in f && !Falsy(f["already_applied"]))
      || ("status" in f && (f["status"] == Text("found") || f["status"] == Text("already_applied")
                            || f["status"] == Text("applied") || f["status"] == Text("completed")))
    case _ => false
  }

  lemma ProvesExactly(answer: Json)
    ensures ProvesApplied(answer) <==> SaysApplied(answer)
  {
    if answer.Object? {
      var f := answer.fields;
      if "found" in f { TruthyExactly(f["found"]); }
      if "already_applied" in f { TruthyExactly(f["already_applied"]); }
    }
  }

  lemma TruthyExactly(v: Json)
    ensures Truthy(v) <==> !Falsy(v)
  {
  }

  /** Over every legal history: once reconciliation has answered that a call was
      applied, it is never executed again. */
  lemma AppliedIsNotRepeated(reg: Registry, run: RunId, acts: seq<Act>, o: StepId, answer: Json)
    requires Legal(reg, run, acts) && o.run == run && o.input.ToolInput? && o.safety == Reconcilable
    requires CommittedJson(Play(acts).db, ReconcileStep(o)) == Some(answer) && SaysApplied(answer)
    ensures Replacement(o) !in Play(acts).db.steps && Replacement(o) !in Play(acts).invoked
  {
    hide Legal, Play, Inv, SaysApplied, ProvesApplied;
    PlayKeepsInv(reg, run, acts);
    ProvesExactly(answer);
    NotReplaced(reg, Play(acts).db, run, o);
    if Replacement(o) in Play(acts).invoked { InvokedIsCreated(reg, run, acts, Replacement(o)); }
  }

  lemma NotReplaced(reg: Registry, s: State, run: RunId, o: StepId)
    requires Inv(reg, s, run) && o.run == run && o.input.ToolInput? && o.safety == Reconcilable
    requires ReconcileResult(s, o).Some? && ProvesApplied(ReconcileResult(s, o).value)
    ensures Replacement(o) !in s.steps
  {
    assert Justified(reg, s, Replacement(o)) ==> MayRetry(s, o);
  }

  lemma InvokedIsCreated(reg: Registry, run: RunId, acts: seq<Act>, id: StepId)
    requires Legal(reg, run, acts) && id.run == run && id in Play(acts).invoked
    ensures id in Play(acts).db.steps
  {
    PlayPays(reg, run, acts, id);
  }

  /** And an answer that does not say so, or none at all, never gets a receipt. */
  lemma ReceiptNeedsAnswer(reg: Registry, run: RunId, acts: seq<Act>, o: StepId)
    requires Legal(reg, run, acts) && o.run == run && ReconciledReceipt(o) in Play(acts).db.receipts
    ensures o.input.ToolInput? && o.safety == Reconcilable
    ensures var answer := CommittedJson(Play(acts).db, ReconcileStep(o)); answer.Some? && SaysApplied(answer.value)
  {
    hide Legal, Play;
    PlayKeepsInv(reg, run, acts);
    var s := Play(acts).db;
    assert LegalReceipt(s, o, s.receipts[ReconciledReceipt(o)].payload);
    ProvesExactly(ReconcileResult(s, o).value);
  }

  // --- where a result comes out ---

  // What is stored for a call whose handler returned a value.
  function Stored(call: ToolCall, value: Json): Json {
    Object(map["tool_call_id" := Text(call.id), "name" := Text(call.name), "result" := value])
  }

  // What reconciliation found out about a call: the result it reports, or all it said.
  function Reported(answer: Json): Json {
    match answer
    case Object(f) => if "result" in f then f["result"] else answer
    case _ => answer
  }

  function Depth(id: StepId): nat {
    if id.input.ToolInput? && id.input.recoveryOf.Some? then 1 + Depth(id.input.recoveryOf.value) else 0
  }

  // The calls before it in its recovery chain.
  function Ancestors(id: StepId): set<StepId> {
    if id.input.ToolInput? && id.input.recoveryOf.Some? then Ancestors(id.input.recoveryOf.value) + {id.input.recoveryOf.value} else {}
  }

  lemma {:induction false} AncestorsAreShallower(id: StepId, x: StepId)
    requires x in Ancestors(id)
    ensures Depth(x) < Depth(id)
  {
    var o := id.input.recoveryOf.value;
    if x != o { AncestorsAreShallower(o, x); }
  }

  lemma NotItsOwnAncestor(id: StepId)
    ensures id !in Ancestors(id)
  {
    if id in Ancestors(id) { AncestorsAreShallower(id, id); }
  }

  // The walk from the first call of a chain comes to each of its replacements.
  lemma {:induction false} WalkArrives(reg: Registry, s: State, run: RunId, id: StepId)
    requires Inv(reg, s, run) && IsTool(id, run) && id in s.steps
    ensures Root(id) in s.steps && IsTool(Root(id), run)
    ensures Recorded(s, Root(id), {}) == Recorded(s, id, Ancestors(id))
  {
    hide Inv;
    if id.input.recoveryOf.Some? {
      var o := id.input.recoveryOf.value;
      ReplacedStep(reg, s, run, id);
      WalkArrives(reg, s, run, o);
      NotItsOwnAncestor(o);
    }
  }

  lemma ReplacedStep(reg: Registry, s: State, run: RunId, id: StepId)
    requires Inv(reg, s, run) && IsTool(id, run) && id in s.steps && id.input.recoveryOf.Some?
    ensures var o := id.input.recoveryOf.value;
            && o in s.steps && IsTool(o, run) && id == Replacement(o)
            && CommittedJson(s, o).None? && ReconciledReceipt(o) !in s.receipts
  {
    assert Justified(reg, s, id);
    var o := id.input.recoveryOf.value;
    if ReconciledReceipt(o) in s.receipts { ReceiptExcludesReplacement(reg, s, run, o); }
  }

  /** The round trip of a result: what a handler returned for a call or for any of its
      replacements, once committed, is what is recorded for the call. */
  lemma ResultIsRecorded(reg: Registry, s: State, run: RunId, id: StepId, call: ToolCall, value: Json)
    requires Inv(reg, s, run) && IsTool(id, run) && CommittedJson(s, id) == Some(Stored(call, value))
    ensures Root(id) in s.steps && Recorded(s, Root(id), {}) == Some(value)
  {
    hide Inv;
    WalkArrives(reg, s, run, id);
    NotItsOwnAncestor(id);
  }

  /** The round trip of a reconciliation: with its receipt recorded, what it reported is
      what is recorded for the call. */
  lemma ReportIsRecorded(reg: Registry, s: State, run: RunId, o: StepId, answer: Json)
    requires Inv(reg, s, run) && o.run == run && ReconciledReceipt(o) in s.receipts
    requires o.input.ToolInput? && CommittedJson(s, ReconcileStep(o)) == Some(answer)
    ensures Root(o) in s.steps && Recorded(s, Root(o), {}) == Some(Reported(answer))
  {
    ReceiptIsLegal(reg, s, run, o);
    hide Inv;
    WalkArrives(reg, s, run, o);
    NotItsOwnAncestor(o);
  }

  lemma ReceiptIsLegal(reg: Registry, s: State, run: RunId, o: StepId)
    requires Inv(reg, s, run) && o.run == run && ReconciledReceipt(o) in s.receipts
    ensures LegalReceipt(s, o, s.receipts[ReconciledReceipt(o)].payload) && CommittedJson(s, o).None? && o in s.steps
  {
  }

  // --- where it comes out in the conversation ---

  /** The message of a call carries the role of a tool, the canonical form of the very
      result recorded for it, and the name and the identifier of the call itself. */
  lemma {:induction false} MessageOfCall(s: State, run: RunId, i: nat, from: nat, k: nat, value: Json)
    requires HasModel(s, run, i) && from <= k < |CallsAt(s, run, i)| && OutputAt(s, run, i, k) == Some(value)
    requires forall j: nat | from <= j <= k :: OutputAt(s, run, i, j).Some?
    ensures k - from < |ToolMessages(s, run, i, from)|
    ensures var call := CallsAt(s, run, i)[k];
            ToolMessages(s, run, i, from)[k - from] == Message("tool", Canonical(value), Some(call.name), [], Some(call.id))
    decreases k - from
  {
    hide OutputAt, HasModel;
    if from < k { MessageOfCall(s, run, i, from + 1, k, value); }
  }

  /** The result of a call in a finished group, from the handler to the conversation. */
  lemma ResultIsTold(reg: Registry, s: State, run: RunId, i: nat, k: nat, id: StepId, call: ToolCall, value: Json)
    requires Inv(reg, s, run) && OutputsDone(s, run, i) && k < |CallsAt(s, run, i)|
    requires IsTool(id, run) && IsOriginal(Root(id), run, i, k) && CommittedJson(s, id) == Some(Stored(call, value))
    ensures OutputAt(s, run, i, k) == Some(value) && k < |ToolMessages(s, run, i, 0)|
    ensures ToolMessages(s, run, i, 0)[k] ==
            Message("tool", Canonical(value), Some(CallsAt(s, run, i)[k].name), [], Some(CallsAt(s, run, i)[k].id))
  {
    ResultIsRecorded(reg, s, run, id, call, value);
    OutputIs(reg, s, run, i, k, Root(id));
    hide OutputAt, HasModel;
    MessageOfCall(s, run, i, 0, k, value);
  }

  // --- the final text ---

  /** A conversation ends with the answer that asks for no call: its text, the empty text
      if it has none, the canonical form of its parts. */
  lemma {:induction false} EndsWith(s: State, run: RunId, j: nat, i: nat)
    requires j <= i && ReadyFor(s, run, i) && HasModel(s, run, i) && CallsAt(s, run, i) == []
    ensures var content, r := CompletionAt(s, run, i).message.content, RebuildFrom(s, run, j);
            && r.iteration == i + 1
            && (content.NoContent? ==> r.final == Some(Plain("")))
            && (content.Plain? ==> r.final == Some(Plain(content.text)))
            && (content.Parts? ==> r.final == Some(Canonical(Array(content.parts))))
    decreases i - j
  {
    hide OutputAt, CompletionAt, ToolMessages;
    if j < i {
      assert OutputsDone(s, run, j);
      EndsWith(s, run, j + 1, i);
    }
  }
}
