/**
 What the runtime derives from the journal: step identities, recorded tool
 results, the rebuilt conversation, and the durable facts that must hold before
 it may write.
 */
module AgentSpec {
  import opened Options
  import opened JournalTypes
  import opened JournalSpec
  import opened JournalLeases
  import opened Sets

  // The registered tools and their safety classes.
  type Registry = map<string, SafetyClass>

  // --- step identities ---

  predicate IsModel(id: StepId, run: RunId, i: nat) {
    id.run == run && id.input.ModelInput? && id.input.iteration == i
  }

  predicate IsTool(id: StepId, run: RunId) {
    id.run == run && id.input.ToolInput?
  }

  predicate IsOriginal(id: StepId, run: RunId, i: nat, k: nat) {
    IsTool(id, run) && id.input.recoveryOf.None? && id.input.iteration == i && id.input.callIndex == k
  }

  function Original(reg: Registry, run: RunId, i: nat, k: nat, call: ToolCall): StepId
    requires call.name in reg
  {
    StepId(run, call.name, ToolInput(i, k, call, None), reg[call.name], Some(i * 1000 + k + 1))
  }

  function SequenceOr0(id: StepId): nat {
    if id.sequence.Some? then id.sequence.value else 0
  }

  function Replacement(o: StepId): StepId
    requires o.input.ToolInput?
  {
    StepId(o.run, o.input.call.name, o.input.(recoveryOf := Some(o)), o.safety, Some(SequenceOr0(o) + 600))
  }

  function ReconcileStep(o: StepId): StepId
    requires o.input.ToolInput?
  {
    StepId(o.run, o.input.call.name, ReconcileInput(o, o.input.call), ReadOnly, Some(SequenceOr0(o) + 500))
  }

  /** The steps made for one call, field by field: a call has its place within the
      thousand of its iteration, its reconciliation comes 500 later and its
      replacement 600 later. */
  lemma StepsOfCall(reg: Registry, run: RunId, i: nat, k: nat, call: ToolCall)
    requires call.name in reg
    ensures var o := Original(reg, run, i, k, call);
            && o == StepId(run, call.name, ToolInput(i, k, call, None), reg[call.name], Some(i * 1000 + k + 1))
            && ReconcileStep(o) == StepId(run, call.name, ReconcileInput(o, call), ReadOnly, Some(i * 1000 + k + 501))
            && Replacement(o) == StepId(run, call.name, ToolInput(i, k, call, Some(o)), reg[call.name], Some(i * 1000 + k + 601))
  {
  }

  // The first call of a recovery chain.
  function Root(id: StepId): StepId {
    if id.input.ToolInput? && id.input.recoveryOf.Some? then Root(id.input.recoveryOf.value) else id
  }

  // --- tool results ---

  function ToolResult(output: Json): Json {
    if output.Object? && "result" in output.fields then output.fields["result"] else output
  }

  predicate Truthy(v: Json) {
    match v
    case Null => false
    case Bool(b) => b
    case Num(n) => n != 0
    case Text(s) => s != ""
    case Array(items) => items != []
    case Object(fields) => fields != map[]
  }

  predicate ProvesApplied(result: Json) {
    result.Object? &&
    (|| ("found" in result.fields && Truthy(result.fields["found"]))
     || ("already_applied" in result.fields && Truthy(result.fields["already_applied"]))
     || ("status" in result.fields &&
         result.fields["status"] in {Text("found"), Text("already_applied"), Text("applied"), Text("completed")}))
  }

  function CallOutput(call: ToolCall, result: Json): Json {
    Object(map["tool_call_id" := Text(call.id), "name" := Text(call.name), "result" := result])
  }

  function ReconciledOutput(call: ToolCall, result: Json): Json {
    CallOutput(call, ToolResult(result))
  }

  // The JSON output of a committed step.
  function CommittedJson(s: State, id: StepId): Option<Json> {
    if id in s.steps && s.steps[id].status == Committed && s.steps[id].output.Some? && s.steps[id].output.value.JsonOutput? then
      Some(s.steps[id].output.value.json)
    else None
  }

  // The walk through receipts and replacements, with its guard against cycles.
  function Recorded(s: State, current: StepId, visited: set<StepId>): Option<Json>
    decreases |s.steps.Keys - visited|
  {
    if current !in s.steps || current in visited || !current.input.ToolInput? then
      None
    else if CommittedJson(s, current).Some? then
      Some(ToolResult(CommittedJson(s, current).value))
    else if ReconciledReceipt(current) in s.receipts then
      Some(ToolResult(s.receipts[ReconciledReceipt(current)].payload))
    else if Replacement(current) !in s.steps then
      None
    else
      assert current in s.steps.Keys - visited && current !in s.steps.Keys - (visited + {current});
      SubsetSize(s.steps.Keys - (visited + {current}), s.steps.Keys - visited);
      Recorded(s, Replacement(current), visited + {current})
  }

  // --- the rebuilt conversation ---

  ghost predicate CommittedModel(s: State, run: RunId, i: nat, id: StepId) {
    id in s.steps && IsModel(id, run, i) && s.steps[id].status == Committed
    && s.steps[id].output.Some? && s.steps[id].output.value.CompletionOutput?
  }

  ghost predicate HasModel(s: State, run: RunId, i: nat) {
    exists id :: CommittedModel(s, run, i, id)
  }

  ghost function CompletionAt(s: State, run: RunId, i: nat): Completion
    requires HasModel(s, run, i)
  {
    var id :| CommittedModel(s, run, i, id);
    s.steps[id].output.value.completion
  }

  ghost function CallsAt(s: State, run: RunId, i: nat): seq<ToolCall>
    requires HasModel(s, run, i)
  {
    CompletionAt(s, run, i).message.toolCalls
  }

  ghost predicate HasOriginal(s: State, run: RunId, i: nat, k: nat) {
    exists id :: id in s.steps && IsOriginal(id, run, i, k)
  }

  ghost function OutputAt(s: State, run: RunId, i: nat, k: nat): Option<Json> {
    if HasOriginal(s, run, i, k) then
      var id :| id in s.steps && IsOriginal(id, run, i, k);
      Recorded(s, id, {})
    else None
  }

  ghost predicate OutputsDone(s: State, run: RunId, i: nat) {
    HasModel(s, run, i) && forall k: nat | k < |CallsAt(s, run, i)| :: OutputAt(s, run, i, k).Some?
  }

  function ToolMessage(call: ToolCall, output: Json): Message {
    Message("tool", Canonical(output), Some(call.name), [], Some(call.id))
  }

  // The tool messages of calls k, k + 1, ... up to the first missing result.
  ghost function ToolMessages(s: State, run: RunId, i: nat, k: nat): seq<Message>
    requires HasModel(s, run, i)
    decreases |CallsAt(s, run, i)| - k
  {
    if k >= |CallsAt(s, run, i)| || OutputAt(s, run, i, k).None? then []
    else [ToolMessage(CallsAt(s, run, i)[k], OutputAt(s, run, i, k).value)] + ToolMessages(s, run, i, k + 1)
  }

  // `iteration` is where the conversation continues; `final` is set when it ended.
  datatype Rebuilt = Rebuilt(messages: seq<Message>, iteration: nat, final: Option<Content>)

  function MessageText(message: Message): Content {
    match message.content
    case NoContent => Plain("")
    case Parts(parts) => Canonical(Array(parts))
    case text => text
  }

  ghost function ModelsFrom(s: State, run: RunId, i: nat): set<StepId> {
    set id <- s.steps | id.run == run && id.input.ModelInput? && id.input.iteration >= i && s.steps[id].status == Committed
  }

  // The conversation from iteration i on, up to the first gap.
  ghost function RebuildFrom(s: State, run: RunId, i: nat): Rebuilt
    decreases |ModelsFrom(s, run, i)|
  {
    if !HasModel(s, run, i) then
      Rebuilt([], i, None)
    else
      var message := CompletionAt(s, run, i).message;
      if message.toolCalls == [] then
        Rebuilt([message], i + 1, Some(MessageText(message)))
      else if !OutputsDone(s, run, i) then
        Rebuilt([message], i, None)
      else
        assert ModelsFrom(s, run, i + 1) < ModelsFrom(s, run, i) by {
          var id :| CommittedModel(s, run, i, id);
          assert id in ModelsFrom(s, run, i) && id !in ModelsFrom(s, run, i + 1);
        }
        SubsetSize(ModelsFrom(s, run, i + 1), ModelsFrom(s, run, i));
        var rest := RebuildFrom(s, run, i + 1);
        Rebuilt([message] + ToolMessages(s, run, i, 0) + rest.messages, rest.iteration, rest.final)
  }

  // Iterations before i are complete: each asked for tools and got every result.
  ghost predicate ReadyFor(s: State, run: RunId, i: nat) {
    forall j: nat | j < i :: OutputsDone(s, run, j) && CallsAt(s, run, j) != []
  }

  // --- what must be durable before the runtime writes ---

  // A model attempt in one of these states can never commit.
  predicate Dead(status: StepStatus) {
    status == Failed || status == Cancelled || status == Uncertain
  }

  // The outcome of the call can no longer be committed under its own step.
  predicate Unresolved(s: State, o: StepId) {
    o in s.steps && (s.steps[o].status == Uncertain || s.steps[o].status == Cancelled)
  }

  function ReconcileResult(s: State, o: StepId): Option<Json>
    requires o.input.ToolInput?
  {
    CommittedJson(s, ReconcileStep(o))
  }

  predicate ApprovesRetry(a: Approval, o: StepId) {
    a.step == Some(o) && a.kind == "uncertain_outcome" && a.status == Approved
  }

  // Why the call of `o` may be executed again.
  ghost predicate MayRetry(s: State, o: StepId)
    requires o.input.ToolInput?
  {
    if o.safety == Reconcilable then
      ReconcileResult(s, o).Some? && !ProvesApplied(ReconcileResult(s, o).value)
    else
      exists a :: a in s.approvals && ApprovesRetry(s.approvals[a], o)
  }

  ghost predicate LegalModel(s: State, id: StepId)
    requires id.input.ModelInput?
  {
    && id.safety == ReadOnly
    && id.sequence == Some(id.input.iteration * 1000)
    && ReadyFor(s, id.run, id.input.iteration)
  }

  // Iteration i asked for exactly these calls.
  ghost predicate Asked(s: State, run: RunId, i: nat, calls: seq<ToolCall>) {
    exists m :: CommittedModel(s, run, i, m) && s.steps[m].output.value.completion.message.toolCalls == calls
  }

  // The first n calls of a group are committed under their own steps.
  ghost predicate GroupDone(reg: Registry, s: State, run: RunId, i: nat, calls: seq<ToolCall>, n: nat)
    requires n <= |calls|
  {
    forall k: nat | k < n ::
      calls[k].name in reg
      && Original(reg, run, i, k, calls[k]) in s.steps
      && s.steps[Original(reg, run, i, k, calls[k])].status == Committed
  }

  // The call was asked for, and every call before it in its group has committed.
  ghost predicate LegalOriginal(reg: Registry, s: State, id: StepId)
    requires id.input.ToolInput?
  {
    var i, k, call := id.input.iteration, id.input.callIndex, id.input.call;
    && call.name in reg
    && id == Original(reg, id.run, i, k, call)
    && exists m :: CommittedModel(s, id.run, i, m) && var calls := s.steps[m].output.value.completion.message.toolCalls;
                   k < |calls| && calls[k] == call && GroupDone(reg, s, id.run, i, calls, k)
  }

  ghost predicate LegalReplacement(s: State, id: StepId)
    requires id.input.ToolInput? && id.input.recoveryOf.Some?
  {
    var o := id.input.recoveryOf.value;
    o.input.ToolInput? && id == Replacement(o) && Unresolved(s, o) && MayRetry(s, o)
  }

  predicate LegalReconcile(s: State, id: StepId)
    requires id.input.ReconcileInput?
  {
    var o := id.input.original;
    o.input.ToolInput? && id == ReconcileStep(o) && Unresolved(s, o) && o.safety == Reconcilable
  }

  // The durable justification of a step of the run.
  ghost predicate Justified(reg: Registry, s: State, id: StepId) {
    match id.input
    case ModelInput(_, _, _, _) => LegalModel(s, id)
    case ToolInput(_, _, _, recoveryOf) => if recoveryOf.None? then LegalOriginal(reg, s, id) else LegalReplacement(s, id)
    case ReconcileInput(_, _) => LegalReconcile(s, id)
    case OtherInput(_, _) => true
  }

  predicate LegalReceipt(s: State, o: StepId, payload: Json) {
    && o.input.ToolInput? && Unresolved(s, o) && o.safety == Reconcilable
    && ReconcileResult(s, o).Some? && ProvesApplied(ReconcileResult(s, o).value)
    && payload == ReconciledOutput(o.input.call, ReconcileResult(s, o).value)
  }

  // --- worlds ---

  // The database, and the handler invocations since the beginning.
  datatype World = World(db: State, invoked: seq<StepId>)

  datatype Act = Do(op: Op) | Invoke(id: StepId)

  ghost predicate NoLiveModel(s: State, id: StepId)
    requires id.input.ModelInput?
  {
    forall x <- s.steps :: IsModel(x, id.run, id.input.iteration) ==> Dead(s.steps[x].status)
  }

  // The runtime's own discipline about one run; everything about other runs,
  // and every operation not named here, is free to anyone at any time.
  ghost predicate LegalOp(reg: Registry, run: RunId, s: State, op: Op) {
    && HonestOp(op)
    && match op
       case CreateStepOp(id, _) =>
         id.run == run && id !in s.steps ==>
           Justified(reg, s, id) && (id.input.ModelInput? ==> NoLiveModel(s, id))
       case CommitOp(id, _, output, receipt, _) =>
         && (id.run == run ==> (id.input.ModelInput? <==> output.CompletionOutput?))
         && (receipt.Some? && receipt.value.0.ReconciledReceipt? ==> receipt.value.0.step.run != run)
       case FinishOp(id, _, verdict, _) => id.run == run ==> verdict == Failed
       case RecordReceiptOp(id, key, payload) =>
         key.ReconciledReceipt? && key.step.run == run ==> id == key.step && LegalReceipt(s, id, payload)
       case MarkRunStatusOp(r, target) => r == run && target == Completed ==> RebuildFrom(s, run, 0).final.Some?
       case _ => true
  }

  // A handler runs at most once for each time its step was put into execution.
  ghost predicate LegalAct(reg: Registry, run: RunId, w: World, act: Act) {
    match act
    case Do(op) => LegalOp(reg, run, w.db, op)
    case Invoke(id) => id.run == run ==> multiset(w.invoked)[id] < Executions(w.db.events, id)
  }

  function Step(w: World, act: Act): World {
    match act
    case Do(op) => w.(db := Next(w.db, op))
    case Invoke(id) => w.(invoked := w.invoked + [id])
  }

  const GENESIS := World(EMPTY, [])

  function Play(acts: seq<Act>): World {
    if acts == [] then GENESIS else Step(Play(acts[..|acts| - 1]), acts[|acts| - 1])
  }

  // Any interleaving of runtimes, crashed or not, reclaimers and operators.
  ghost predicate Legal(reg: Registry, run: RunId, acts: seq<Act>) {
    acts != [] ==>
      && Legal(reg, run, acts[..|acts| - 1])
      && LegalAct(reg, run, Play(acts[..|acts| - 1]), acts[|acts| - 1])
  }
}
