/**
 The rows of the execution journal and the values stored in them.

 A step identifier is the hash of its deterministic content key, so it is
 modelled by the content itself: equal identifiers are equal contents.  The
 same holds for receipt keys and for canonical JSON text.
 */
module JournalTypes {
  import opened Options

  type RunId = string
  type Worker = string

  datatype Json =
    | Null
    | Bool(b: bool)
    | Num(n: int)
    | Text(s: string)
    | Array(items: seq<Json>)
    | Object(fields: map<string, Json>)

  datatype ToolCall = ToolCall(id: string, name: string, arguments: Json)

  // `Canonical(v)` is the text of the canonical JSON form of `v`.
  datatype Content =
    | NoContent
    | Plain(text: string)
    | Canonical(json: Json)
    | Joined(head: Content, tail: string)
    | Parts(parts: seq<Json>)

  datatype Message = Message(
    role: string, content: Content, name: Option<string>,
    toolCalls: seq<ToolCall>, toolCallId: Option<string>)

  datatype Completion = Completion(message: Message, model: string, totalTokens: nat)

  datatype Output = CompletionOutput(completion: Completion) | JsonOutput(json: Json)

  datatype SafetyClass = ReadOnly | Idempotent | Reconcilable | OpaqueSideEffect

  datatype RunStatus = RunCreated | Running | Paused | Completed | RunFailed | RunCancelled

  datatype StepStatus = Created | Ready | Leased | Executing | Committed | Uncertain | Failed | Cancelled

  datatype StepInput =
    | ModelInput(iteration: nat, attempt: nat, model: string, messages: seq<Message>)
    | ToolInput(iteration: nat, callIndex: nat, call: ToolCall, recoveryOf: Option<StepId>)
    | ReconcileInput(original: StepId, call: ToolCall)
    | OtherInput(kind: string, payload: Json)

  datatype StepId = StepId(run: RunId, name: string, input: StepInput, safety: SafetyClass, sequence: Option<nat>)

  datatype StepRow = StepRow(
    status: StepStatus, owner: Option<Worker>, expiresAt: Option<int>,
    attempts: nat, output: Option<Output>, createdAt: int)

  datatype Resource = Calls | Tokens | MicroUsd | WallMicros

  datatype Amounts = Amounts(calls: int, tokens: int, microUsd: int, wallMicros: int) {
    function Get(r: Resource): int {
      match r
      case Calls => calls
      case Tokens => tokens
      case MicroUsd => microUsd
      case WallMicros => wallMicros
    }

    function Plus(that: Amounts): Amounts {
      Amounts(calls + that.calls, tokens + that.tokens, microUsd + that.microUsd, wallMicros + that.wallMicros)
    }

    function Minus(that: Amounts): Amounts {
      Amounts(calls - that.calls, tokens - that.tokens, microUsd - that.microUsd, wallMicros - that.wallMicros)
    }

    predicate NonNegative() {
      calls >= 0 && tokens >= 0 && microUsd >= 0 && wallMicros >= 0
    }
  }

  const NOTHING := Amounts(0, 0, 0, 0)

  datatype Limits = Limits(calls: Option<nat>, tokens: Option<nat>, microUsd: Option<nat>, wallMicros: Option<nat>) {
    function Get(r: Resource): Option<nat> {
      match r
      case Calls => calls
      case Tokens => tokens
      case MicroUsd => microUsd
      case WallMicros => wallMicros
    }
  }

  // The part of a persisted run configuration that the runtime reads back.
  // `systemPrompt` is None when the key is missing, Some(None) when it is null.
  datatype RunConfig =
    | NotMapping
    | Mapping(systemPrompt: Option<Option<string>>, memoryContext: Option<string>, preapproved: set<string>)

  datatype RunIdentity = RunIdentity(
    mode: string, request: Json, config: RunConfig, limits: Limits, parent: Option<RunId>)

  datatype RunRow = RunRow(identity: RunIdentity, status: RunStatus, reserved: Amounts, used: Amounts)

  datatype ReceiptKey =
    | ToolReceipt(step: StepId)
    | ReconcileReceipt(step: StepId)
    | ReconciledReceipt(step: StepId)
    | OtherReceipt(text: string)

  datatype Receipt = Receipt(run: RunId, step: StepId, payload: Json)

  datatype ApprovalStatus = Pending | Approved | Rejected

  datatype Approval = Approval(
    run: RunId, step: Option<StepId>, kind: string, status: ApprovalStatus,
    decidedBy: string, createdAt: int)

  datatype CallStatus = Started | CallCompleted | CallFailed | CallUncertain

  datatype ProviderCall = ProviderCall(run: RunId, step: Option<StepId>, status: CallStatus)

  // A reservation is settled exactly when its actual consumption is recorded.
  datatype Reservation = Reservation(run: RunId, amount: Amounts, actual: Option<Amounts>)

  datatype EventBody =
    | RunCreatedEvent(mode: string, parent: Option<RunId>)
    | StatusChangedEvent(runFrom: RunStatus, runTo: RunStatus)
    | StepCreatedEvent
    | StepLeasedEvent(worker: Worker, expiry: int, attempt: nat)
    | StepExecutingEvent(worker: Worker)
    | StepHeartbeatEvent(worker: Worker, expiry: int)
    | StepCommittedEvent(worker: Worker)
    | StepFailedEvent(worker: Worker)
    | StepUncertainEvent(worker: Worker)
    | StepCancelledEvent(from: StepStatus)
    | LeaseExpiredEvent(from: StepStatus, to: StepStatus)
    | ReceiptRecordedEvent(key: ReceiptKey)
    | ApprovalRequestedEvent(approval: string, kind: string)
    | ApprovalDecidedEvent(approval: string, decision: ApprovalStatus)
    | ProviderStartedEvent(providerCall: string)
    | ProviderFinishedEvent(providerCall: string, callStatus: CallStatus)
    | BudgetReservedEvent(reservation: string, amount: Amounts)
    | BudgetSettledEvent(reservation: string, amount: Amounts)
    | UserEvent(topic: string, payload: Json)

  datatype Event = Event(run: RunId, step: Option<StepId>, body: EventBody)

  datatype Error =
    | NotFound | Validation | InvalidTransition | NotOwner | LeaseExpired | Conflict | BudgetExceeded | Unexpected

  // Everything that survives a crash: the tables of the journal database.
  datatype State = State(
    runs: map<RunId, RunRow>,
    externalKeys: map<string, RunId>,
    steps: map<StepId, StepRow>,
    receipts: map<ReceiptKey, Receipt>,
    approvals: map<string, Approval>,
    calls: map<string, ProviderCall>,
    reservations: map<string, Reservation>,
    events: seq<Event>)

  const EMPTY := State(map[], map[], map[], map[], map[], map[], map[], [])

  // What one transaction writes: a row and the event that records it.
  datatype Write =
    | Nothing
    | WriteEvent(run: RunId, subject: Option<StepId>, body: EventBody)
    | InsertRun(run: RunId, runRow: RunRow, key: Option<string>)
    | WriteRun(run: RunId, runRow: RunRow, body: EventBody)
    | WriteStep(id: StepId, stepRow: StepRow, receipt: Option<(ReceiptKey, Receipt)>, body: EventBody)
    | InsertReceipt(receiptKey: ReceiptKey, inserted: Receipt)
    | WriteApproval(approval: string, approvalRow: Approval, body: EventBody)
    | WriteCall(providerCall: string, callRow: ProviderCall, body: EventBody)
    | WriteBudget(run: RunId, runRow: RunRow, reservation: string, held: Reservation, body: EventBody)

  // A transaction commits what it writes, or is refused and rolled back.
  datatype Decision = Commit(write: Write) | Refuse(error: Error)
}
