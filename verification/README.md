# Polaris, verified

Polaris is a durable agent harness: conversations with tools, scheduled jobs and
channel messages that survive the death of the process between any two durable
writes.  This project models what has to be right for that and proves it.

Each transaction of a database is one atomic step, and a crash loses everything
but the tables or files.  What a provider, a tool, a clock, a file system or an
operator answers is arbitrary.

| files | subject |
|---|---|
| `JournalTypes`, `JournalSpec`, `JournalStore` | the execution journal: rows, each operation as a decision over the tables, and the same operations as methods of an object |
| `JournalHistory`, `JournalLeases`, `JournalEvents`, `JournalBudgets` | what holds over every sequence of journal operations |
| `AgentSpec`, `AgentInvariants`, `AgentSafety` | what the runtime may write and when, the invariant this keeps, and safety over every interleaving |
| `AgentSession`, `AgentRuntime`, `AgentReplay` | the runtime as methods that only take legal steps, and the agreement of recovery and replay |
| `AgentAnswers` | which answers of a reconciler prove what, and what a handler returned until it is told |
| `AgentStuck` | runs that recovery cannot get going again: for every history, and in a concrete one |
| `AgentRacing` | runtimes that race for the next model attempt of a run |
| `Restore` | the phase-marked restore transaction with rollback and recovery |
| `Calendar`, `Cron`, `CronCalendar`, `Schedules` | cron fields and searches, the completeness of the eight-year limit, catch-up |
| `JobRuns`, `SchedulerStore` | the lease machine of a job run, and claiming without duplicates |
| `Chunking`, `Delivery`, `ChannelStore`, `ChannelProcessor` | UTF-16 chunking with fence repair, inbox and outbox |
| `MemoryStore`, `Secrets` | index and history of memory entries, and the secrets file |
| `Options`, `Sets`, `Division`, `Texts` | small shared facts |

How the parts are tied together:

- An operation of the journal is a function from the tables before it to a
  decision; the method that performs it is proved against that function, and the
  history lemmas are about sequences of such decisions.
- The runtime is related to whole histories by the predicate `Legal`: every
  method of `AgentRuntime` extends a legal history by legal acts, whatever others
  do in between (`Session.Interfere`), so the theorems of `AgentSafety` hold of
  every execution, cut short anywhere.  A history covers any number of runtimes
  with the same or different worker names.
- What the runtime asks, sends, claims and decides is kept in ghost fields of its
  session, each with the history as it was then; `Execute` ensures of all of them
  that they were right for the database of that moment.
- Recovery of a restore is described by one function, `Outcome`: what an
  uninterrupted recovery would make of a disk.  Crash safety is that no crash
  point changes it.
- Job runs, inbox rows and outbox rows are small machines with a theorem about
  all their histories; the methods of the stores are proved against them.

Assumptions:

- Identifiers made from a hash are injective in what is hashed; random
  identifiers may collide, which the tables then refuse.
- The registry of tools maps a name to one safety class for the life of a run.
- One process at a time creates model attempts of a run between reading the
  earlier ones and creating the next, as the service starts one task per run.
  Runtimes that share their configuration may race (`RacingIsLegal`).
- `mark_uncertain` is not used on the steps of a run driven by the runtime; it has
  no caller in the sources.
- Events appended by users have types of their own, apart from those the journal
  writes (`ForgedEventBreaksFold` shows why).
- A memory store is written through one open handle at a time, with the index on for
  the statement about its exactness.

Where the code and its documents differ, the code is followed:

- docs/durability.md lets an expired leased step become ready again and an
  uncertain step committed or ready.  In the code
  (src/polaris/journal/journal.py:1381-1392) an expired step of a risky class
  becomes uncertain even before it executes, and an uncertain step stays so: it is
  recovered by a receipt or by a replacement step.
- src/polaris/scheduler/cron.py:83-97 always requires the month, and takes only a
  bare `*` for a wildcard of the day rule.

What turned out not to hold of the code is stated as such, with the exact condition
and an input that fails it:

- Settlements can pass a budget limit (`SettlementWithinSlack`,
  `SettlementCanPassLimit`).
- Recovery accepts a reconcilable call that was recovered before exactly when there
  is a receipt for it; one that was executed again stops every later resume
  (`ReconcileUncertain`, `NeverAccepted`).
- A group of calls with an original that is uncertain, failed or cancelled never goes
  on, while one that has committed goes on at once (`ExecuteToolGroup`, `NeverDone`).
  If it is not the last call of its group, the run never completes
  (`NeverCompleted`).  `StuckHappens` is a legal history that runs into all of this.
- Recovery and replay open a conversation alike exactly if the run records its system
  prompt and memory context (`OpeningsAgree`, `ConversationsAgree`); a run without a
  recorded configuration does not (`OpeningsDiffer`).
- A restore with an external configuration has two windows in which a recovery that
  is cut short loses track of the configuration (`BringBackWindow`, `InstallWindow`,
  `FirstWindowHappens`, `SecondWindowHappens`).
- A rollback has three exceptions: without a previous target the new data stays under
  the old configuration (`RolledBackExactly`); after its last rename the tree can stand
  under the phase of the other one (`LastRenameExactly`); and the removal of the new
  tree can leave a part of it (`RemovalExactly`).  `FirstExceptionHappens`,
  `SecondExceptionHappens` and `ThirdExceptionHappens` are traces into them.
- A cron part can be accepted and empty (`EmptyPart`, `EmptyPartHappens`).
- Opening a memory store does not repair an index that went stale
  (`ReopeningRepairs`, `IndexGoesStale`): `StaleHappens`, and `GoStale` through the
  operations of the store.

## Model

| member | source | states |
|---|---|---|
| JournalStore.Journal.CreateRun | src/polaris/journal/journal.py:649-761 | the transaction creates the run and its creation event, finds the run of a known external key again, or is refused with the reason the specification gives, a blank key among them; a refusal leaves every table as it was |
| JournalStore.Journal.MarkRunStatus | src/polaris/journal/journal.py:796-824 | a status changes only along the allowed transitions, with its event in the same transaction; marking the present status again changes nothing |
| JournalStore.Journal.AppendEvent | src/polaris/journal/journal.py:826-854 | an event is appended to an existing run, about one of its own steps, and nothing else changes |
| JournalStore.Journal.CreateStep | src/polaris/journal/journal.py:856-929 | a step identified by its content is created ready, once; creating it again finds it |
| JournalStore.Journal.ListSteps | src/polaris/journal/journal.py:939-968 | all steps of a run, each once, by sequence with missing sequences last and then by creation time |
| JournalStore.Journal.ListApprovals | src/polaris/journal/journal.py:1626-1648 | all approvals of a run or of one of its steps, each once, in order of creation |
| JournalStore.Journal.SelectReady | src/polaris/journal/journal.py:970-1042 | the query with limit one returns a first ready step of the given run or of all runs, or nothing when there is none |
| JournalStore.Journal.ClaimReadyStep | src/polaris/journal/journal.py:970-1042 | that first step is leased to the worker, with its expiry, one attempt more and its event |
| JournalStore.Journal.CheckOwnerAndLease | src/polaris/journal/journal.py:1044-1058 | the owner check names the right one of three errors, or finds a live lease of this worker |
| JournalStore.Journal.MarkExecuting | src/polaris/journal/journal.py:1060-1092 | only a leased step under a live lease of the worker is put into execution |
| JournalStore.Journal.Heartbeat | src/polaris/journal/journal.py:1094-1135 | a live lease is extended, an expired or foreign one is not |
| JournalStore.Journal.CommitStep | src/polaris/journal/journal.py:1137-1248 | output, receipt and event are stored together; a receipt key that stands for something else refuses the whole commit |
| JournalStore.Journal.FinishOwnedStep | src/polaris/journal/journal.py:1250-1320 | a held step is given up as failed or uncertain by its owner under a live lease |
| JournalStore.Journal.CancelStep | src/polaris/journal/journal.py:1322-1362 | any step that is not terminal can be cancelled, a held one only by its owner under a live lease |
| JournalStore.Journal.ReclaimExpiredLeases | src/polaris/journal/journal.py:1364-1431 | exactly the expired leases are taken back, each to ready or to uncertain by its safety class |
| JournalStore.Journal.RecordReceipt | src/polaris/journal/journal.py:1433-1471 | a receipt key is written once, an equal receipt is accepted again, a different one refused |
| JournalStore.Journal.RequestApproval | src/polaris/journal/journal.py:1481-1537 | a pending approval is stored for an existing run and one of its steps |
| JournalStore.Journal.DecideApproval | src/polaris/journal/journal.py:1549-1612 | a pending approval is decided once; the same decision by the same person is accepted again |
| JournalStore.Journal.StartProviderCall | src/polaris/journal/journal.py:1728-1777 | a provider call is recorded as started |
| JournalStore.Journal.CompleteProviderCall | src/polaris/journal/journal.py:1779-1849 | a started call is finished once |
| JournalStore.Journal.ReserveBudget | src/polaris/journal/journal.py:1860-1965 | an amount is reserved if each of the four resources stays within its limit; the same reservation again changes nothing; ReservationRefusedExactly says which limit is meant |
| JournalStore.Journal.SettleBudget | src/polaris/journal/journal.py:1967-2095 | a reservation is released and its actual consumption added, once |
| JournalHistory.ExecExtends | src/polaris/journal/journal.py:796-2095 | over every sequence of operations no row, decision, receipt or event is taken back; terminal steps and decided approvals are frozen and an uncertain step can only be cancelled |
| JournalHistory.RetryIsNoOp | src/polaris/journal/journal.py:649-929 | an idempotent call that committed once commits again at any later time, changes no row and appends no event |
| JournalHistory.ExternalKeyNamesOneRun | src/polaris/journal/journal.py:676-702 | an external key names the same run for ever; another identity under it is a conflict |
| JournalHistory.KeysAlwaysResolve | src/polaris/journal/journal.py:676-761 | every external key of a reachable database names an existing run |
| JournalHistory.EndedRunIsAbsorbing | src/polaris/journal/journal.py:796-824 | a completed, failed or cancelled run keeps its status over every later sequence of operations |
| JournalLeases.LeaseMachine | src/polaris/journal/journal.py:970-1431 | over every run of the journal: owner and expiry are set exactly in the leased and executing states, an output exactly in the committed one, and a step whose effect must not be repeated is put into execution at most once |
| JournalLeases.ClaimGives | src/polaris/journal/journal.py:970-1042 | a claim takes the first ready step of its scope - by sequence, those without one last, then by age - for one worker and the length of the lease: until then that worker alone can go on with it, and only from then on can it be taken away |
| JournalLeases.NoneToClaim | src/polaris/journal/journal.py:970-1042 | nothing is claimed exactly if no step of the scope is ready |
| JournalLeases.RunTable | src/polaris/journal/journal.py:796-824 | the twelve ways in which a run changes its status, any other being refused |
| JournalLeases.CommitNeedsLiveLease | src/polaris/journal/journal.py:1176-1248 | whatever operation leaves a step newly committed is the commit of the worker that held its unexpired lease, with that output |
| JournalLeases.ReclaimRecovers | src/polaris/journal/journal.py:1364-1431 | one reclaim sends each selected expired row to ready or uncertain by its safety class alone and touches no other row |
| JournalLeases.TerminalIsAbsorbing | src/polaris/journal/journal.py:1176-1362 | committed, failed and cancelled rows never change again |
| JournalEvents.EventSourcing | src/polaris/journal/journal.py:620-647 | in every reachable database the control state - run, step, approval and provider-call states, owners, expiries, attempt counts and budget totals - equals the fold of the event log |
| JournalEvents.ForgedEventBreaksFold | src/polaris/journal/journal.py:826-854 | the restriction to user event types is needed: one forged status event makes log and tables disagree |
| JournalBudgets.BudgetConservation | src/polaris/journal/journal.py:1860-2095 | over every run and for every resource, what is reserved is the sum of the open reservations, what is used is the sum of the settled actuals, and both together exceed the limit by at most the overshoot of the settlements |
| JournalBudgets.LimitHoldsWithinReservations | src/polaris/journal/journal.py:1860-2095 | the limit itself holds in every reachable database whose settlements stayed within their reservations |
| JournalBudgets.SettlementWithinSlack | src/polaris/journal/journal.py:2044-2070 | a settlement keeps the limit exactly when what it exceeds its reservation by is still free |
| JournalBudgets.SettlementCanPassLimit | src/polaris/journal/journal.py:2044-2070 | a concrete settlement beyond its reservation passes the limit |
| JournalBudgets.ReservationRefusedExactly | src/polaris/journal/journal.py:1907-1929 | by the names of the tables: a new reservation is refused for its size exactly if calls, tokens, micro-dollars or wall time would pass the limit of that very name; otherwise each amount is added to the reserved total of its name |
| JournalBudgets.NegativeIsRefused | src/polaris/journal/journal.py:1860-1965 | a reservation or settlement below zero is refused, whichever of the four amounts it is |
| JournalBudgets.SettlementMovesEach | src/polaris/journal/journal.py:2044-2070 | a settlement takes each reserved amount off the reserved total of its name and adds each actual to the used total of its name |
| JournalBudgets.EachIsConserved | src/polaris/journal/journal.py:1860-2095 | conservation over every run, name by name: reserved and used of each resource are the sums over the open and the settled reservations |
| JournalBudgets.EachLimitHolds | src/polaris/journal/journal.py:1860-2095 | name by name, no limit is passed in a reachable database whose settlements stayed within their reservations |
| AgentSafety.NextKeepsInv | src/polaris/runtime/agent.py:218-754 | every legal journal operation keeps the invariant of a run: one live model attempt per iteration, typed outputs, justified steps, replacements and receipts, and a reached end for a completed run |
| AgentSafety.PlayKeepsInv | src/polaris/runtime/agent.py:218-754 | the invariant holds after every interleaving of runtimes, crashes, lease expiries, reclaims, resumes and operators |
| AgentInvariants.ReceiptExcludesReplacement | src/polaris/runtime/agent.py:655-754 | a reconciliation receipt and a replacement never both exist for one step |
| AgentInvariants.RebuildStable | src/polaris/runtime/agent.py:283-350 | between any two states of which one extends the other, the rebuilt conversation only grows by extension, and is fixed once it ended |
| AgentSafety.TranscriptOnlyGrows | src/polaris/runtime/agent.py:283-350 | transcript stability over whole runs: what is rebuilt at one moment is a prefix of what is rebuilt at any later one |
| AgentSafety.RiskyStepInvokedOnce | src/polaris/runtime/agent.py:515-569 | the handler of a reconcilable or opaque step is invoked at most once, over every interleaving |
| AgentSafety.OpaqueCallInvocations | src/polaris/runtime/agent.py:571-653 | along the recovery chain of an opaque call the handler is invoked at most once plus once for each approved uncertain_outcome decision on the chain |
| AgentSafety.ReconcilableReplacementIsJustified | src/polaris/runtime/agent.py:655-754 | a replacement of a reconcilable call is invoked only after a committed reconciliation of its predecessor that does not prove it applied, and only without a receipt for it |
| AgentAnswers.ProvesExactly | src/polaris/runtime/agent.py:918-928 | an answer proves that a call was applied exactly if it is an object with a truthy found or already_applied, or with one of the four status texts |
| AgentAnswers.AppliedIsNotRepeated | src/polaris/runtime/agent.py:695-754 | over every legal history, a reconcilable call whose reconciliation says in one of these ways that it was applied has no replacement, and no handler of one was started |
| AgentAnswers.ReceiptNeedsAnswer | src/polaris/runtime/agent.py:697-711 | over every legal history, a receipt for a call comes only after such an answer; an answer that is no object or has none of these never gets one |
| AgentAnswers.ResultIsRecorded | src/polaris/runtime/replay.py:24-55 | what a handler returned for a call, stored under its identifier and name, is the recorded result of the original at the root of its lineage |
| AgentAnswers.ReportIsRecorded | src/polaris/runtime/replay.py:37-55 | what a reconciler reported - its result field, or else the whole answer - is the recorded result of the call |
| AgentAnswers.MessageOfCall | src/polaris/runtime/agent.py:305-317 | the message of the k-th call of an iteration has the role of a tool, the canonical form of its recorded result, and the name and identifier of that call |
| AgentAnswers.ResultIsTold | src/polaris/runtime/agent.py:283-318 | so what a handler returned is told to the model, in that form and under that call |
| AgentAnswers.EndsWith | src/polaris/runtime/agent.py:300-304 | the final text of a conversation is that of the message of its last completion: its string, the empty text, or the canonical form of its parts |
| AgentSpec.StepsOfCall | src/polaris/runtime/agent.py:518-532 | the steps made for one call, field by field: the call itself within the thousand of its iteration, its reconciliation 500 later and its replacement 600 later, under its name and safety class |
| AgentSession.Session.Claim | src/polaris/runtime/agent.py:795-810 | success means that the last thing that happened is a claim by this worker of the first ready step of the run, and that it is this step; a terminal or uncertain one never is; it is passed only if it is not ready |
| AgentSession.Session.Enter | src/polaris/runtime/agent.py:547-551 | the step is executing under this worker and its handler has just been started, once, which is a legal step of the run |
| AgentSession.Session.CreateStep | src/polaris/journal/journal.py:856-929 | creating a justified step leaves it there; creating one again always succeeds, and a terminal one is found as it was |
| AgentReplay.RecordedToolOutput | src/polaris/runtime/replay.py:24-49 | the loop through receipts and replacements finds the recorded result that the lineage determines, which is what the handler returned or the reconciler reported (ResultIsRecorded, ReportIsRecorded) |
| AgentReplay.ToolOutputs | src/polaris/runtime/agent.py:331-350 | all results of a group of calls, or None exactly when one is missing |
| AgentReplay.Reconstruct | src/polaris/runtime/agent.py:283-318 | the conversation rebuilt from the committed completions up to the first gap |
| AgentReplay.RecordedReplay | src/polaris/runtime/replay.py:58-110 | the conversation replayed in step order, without a contiguity check |
| AgentReplay.OpeningsAgree | src/polaris/runtime/agent.py:261-281 | recovery and replay open the conversation alike exactly when the run records what the runtime would otherwise default |
| AgentReplay.OpensWith | src/polaris/runtime/agent.py:261-281 | the messages that open a conversation, case by case: the recorded system prompt unless it is empty, the default only if none is recorded, the request as the user's message, with the memory context after it unless that is empty |
| AgentReplay.OpensWithJson | src/polaris/runtime/agent.py:261-266 | a request that is no text is shown in canonical form, and as null without a prompt |
| AgentReplay.ReplayAgrees | src/polaris/runtime/replay.py:73-110 | without their openings, the rebuilt messages are a prefix of the replayed ones, the final outputs are equal, and the messages differ exactly in the results recorded for an unfinished group; for a completed run they are equal |
| AgentReplay.ConversationsAgree | src/polaris/runtime/agent.py:261-318 | with their openings, the rebuilt conversation is a prefix of the replayed one exactly if the run records its opening, and equal exactly if, besides, no results of an unfinished group are recorded |
| AgentReplay.ReplayAgreesAlways | src/polaris/runtime/replay.py:58-110 | at every moment of every legal interleaving the final outputs are equal, and the whole conversations agree exactly if the run records its opening; those of a completed run are then equal |
| AgentReplay.OpeningsDiffer | src/polaris/runtime/agent.py:77-277 | a run whose configuration is not recorded: recovery opens with the default system prompt, replay does not |
| AgentRacing.StillNext | src/polaris/runtime/agent.py:352-420 | what a runtime read about earlier attempts still allows its creation later, whatever others created since: every earlier attempt has failed and none is alive |
| AgentRacing.RacingIsLegal | src/polaris/runtime/agent.py:352-420 | every history in which runtimes of shared configuration create attempts on earlier readings is legal, so one attempt of an iteration is alive at most and all safety theorems hold of it |
| AgentRuntime.AgentRuntime.Execute | src/polaris/runtime/agent.py:218-259 | whatever a run of the runtime does, and wherever it is cut short, is a legal history of the run; every attempt it creates carries exactly the opening of the run and its rebuilt conversation, and the provider is sent that; none is created before expired leases are reclaimed, every earlier approval is given and the run is under way; every change of status has a reason that held; it returns only what came to rest, with the status the run had and the final text of the conversation; it raises only what an operation raised, or after all of its turns; a run that ended is not taken up again |
| AgentRuntime.AgentRuntime.Turn | src/polaris/runtime/agent.py:232-259 | the loop goes on only while the conversation has no end: then either the calls that were outstanding have all their results, or the model has answered, or the run is still running |
| AgentRuntime.AgentRuntime.Mark | src/polaris/runtime/agent.py:229-246 | the status is changed only for a reason that held shortly before - a limit reached, repeated calls, failures used up, a budget passed, a failed handler, a rejection, a decision or a step waited for - and only if the run is open to it |
| AgentRuntime.AgentRuntime.ToolTurn | src/polaris/runtime/agent.py:241-252 | it goes on with every result of the group recorded and only if the last groups were not all the same |
| AgentRuntime.AgentRuntime.ModelTurn | src/polaris/runtime/agent.py:254-259 | a completion that is there is not asked for again; otherwise the iteration has its completion afterwards or the run is running |
| AgentRuntime.AgentRuntime.ExecuteModel | src/polaris/runtime/agent.py:352-513 | a model attempt is created only when no earlier one can still commit; success means that the iteration has its committed completion; without success the run has ended, or the attempt was taken by someone else or has failed |
| AgentRuntime.AgentRuntime.Complete | src/polaris/runtime/agent.py:397-513 | the provider is sent the conversation of the attempt at most once, with earlier calls of the attempt closed and a reservation made; an attempt that brings nothing has failed, and one that is not even sent has ended the run |
| AgentRuntime.AgentRuntime.ReportFailure | src/polaris/runtime/agent.py:488-511 | a failed call is closed as failed, its reservation settled at one call, and the attempt failed |
| AgentRuntime.AgentRuntime.SaveCompletion | src/polaris/runtime/agent.py:455-481 | a completion is committed as the output of its step, with its provider call completed and its reservation settled at one call and the tokens and cost used |
| AgentRuntime.AgentRuntime.ExecuteToolGroup | src/polaris/runtime/agent.py:515-569 | the next model turn is reached only when every call has committed under its own original step; never if an original was uncertain, failed or cancelled at entry, and always, without starting a handler, if all had committed |
| AgentRuntime.AgentRuntime.ExecuteCall | src/polaris/runtime/agent.py:518-568 | one call goes on only with its step committed, and with what its handler returned as the recorded result; one that had committed before goes on without starting its handler; no handler is started for a call that lacks its approval; a rejected one leaves its step and the run cancelled |
| AgentRuntime.AgentRuntime.PerformCall | src/polaris/runtime/agent.py:543-568 | a step is claimed only to be executed; what the handler returned is stored and recorded, and with a receipt if the call can be reconciled; a handler that fails has ended the run |
| AgentRuntime.FinishedGroupHasOutputs | src/polaris/runtime/agent.py:331-350 | a group the runtime reports as finished has every result recorded |
| AgentRuntime.AgentRuntime.ApprovalOutcome | src/polaris/runtime/agent.py:756-778 | what needs no approval is approved, without asking; everything else has the status of the latest approval asked for about its step, and only where there is none one is asked for and pending |
| AgentRuntime.AgentRuntime.HandleApprovalsAndUncertainty | src/polaris/runtime/agent.py:571-610 | the conversation goes on only if every approval asked for before is given and every step that was and is uncertain is recovered or has a replacement, never with a reconcilable one that had been executed again; otherwise the run is paused or ended |
| AgentRuntime.AgentRuntime.RetryApprovedUncertain | src/polaris/runtime/agent.py:612-653 | success means that the one replacement of the step exists and is committed or itself uncertain; one that had committed is accepted without starting a handler; what a started handler returned is recorded; otherwise the run is paused or ended |
| AgentRuntime.AgentRuntime.ReconcileUncertain | src/polaris/runtime/agent.py:655-754 | success means a receipt or a committed replacement; a call recovered before is accepted exactly when it has a receipt; an answer that is recorded already decides between the receipt and the replacement; once the answer says applied, nothing but the reconciler was started; a receipt makes what was reported the recorded result; a normal return without success leaves the run paused or ended |
| AgentRuntime.AgentRuntime.Reconcile | src/polaris/runtime/agent.py:660-695 | the answer is the committed output of the reconciliation step; one that is there already is taken without asking again |
| AgentRuntime.AgentRuntime.ActOn | src/polaris/runtime/agent.py:696-754 | an answer that says applied leads to the receipt and starts nothing; any other leads to the replacement |
| AgentRuntime.AgentRuntime.RequestUncertaintyDecision | src/polaris/runtime/agent.py:780-793 | afterwards there is an uncertain_outcome approval of the step, and it is asked for only if there was none |
| AgentRuntime.AgentRuntime.CancelRejected | src/polaris/runtime/agent.py:576-587 | after a rejection the run is cancelled or already completed, and the step, if it was uncertain, is cancelled; a run that was cancelled or completed before is left as it is |
| AgentRuntime.AgentRuntime.HasRepeatedToolCalls | src/polaris/runtime/agent.py:838-857 | the last groups of calls, as many as the threshold, all asked for the same |
| AgentRuntime.AgentRuntime.Pause | src/polaris/runtime/agent.py:896-900 | afterwards the run is no longer created or running; it takes a reason that held |
| AgentRuntime.AgentRuntime.StopFailed | src/polaris/runtime/agent.py:883-894 | the result reports a failed or cancelled run, and the run has ended; it takes a reason that held |
| AgentStuck.NeverAccepted | src/polaris/runtime/agent.py:655-658 | over every later legal history a call that was executed again has no receipt, so recovery never accepts it |
| AgentStuck.NeverDone | src/polaris/runtime/agent.py:515-569 | over every later legal history a group with an original that was given up is never done |
| AgentStuck.NeverCompleted | src/polaris/runtime/agent.py:515-569 | over every later legal history a run does not complete once an original that is not the last of its group was given up, and the calls after it are never made |
| AgentStuck.StuckHappens | src/polaris/runtime/agent.py:515-754 | a concrete legal history, from the creation of the run on, into a running run with an uncertain original, its committed replacement and an outstanding second call |
| Restore.Restorer.ReplaceState | src/polaris/backup/archive.py:508-559 | an import that comes to its end leaves exactly the new data and configuration; an import with a single failure, while trees were moved, is undone: nothing is pending and the old data and configuration are back (without a previous target, the new data under the old configuration); its report says which of the ways it ended in, and an incomplete undoing takes a second failure; cut short or failed anywhere, recovery will make the old or the new state of the disk, unless a rollback was cut short at a named point; a missing target always has its complete tree beside it |
| Restore.Restorer.InstallExternalConfig | src/polaris/backup/archive.py:561-579 | at every crash point inside it, what recovery will make of the disk is unchanged; at its end the configuration is the one of the target; without a mishap it fails exactly if there is nothing to install or to save |
| Restore.Restorer.RestoreExternalConfig | src/polaris/backup/archive.py:633-650 | the previous configuration comes back, and doing it again after a crash gives the same |
| Restore.Restorer.Finalize | src/polaris/backup/archive.py:652-672 | at its end nothing but the target and the configuration is left; neither of them is touched before |
| Restore.Restorer.Rollback | src/polaris/backup/archive.py:581-597 | at its end, which only a failed operation or the death of the process prevents, the old target and configuration are back - or, without a previous target, the new data under the old configuration; cut short, recovery makes the old or the new state except at the named points; a missing target always has its complete tree beside it |
| Restore.Restorer.Recover | src/polaris/backup/archive.py:599-631 | run to its end, recovery makes of the disk what Outcome says, and without a mishap it comes to its end exactly if there is an outcome; what it puts in the place of a missing target is complete; cut short anywhere, it leaves a disk with the same outcome, except in the two windows; it never loses the tree of a missing target |
| Restore.Restorer.RestoreThroughCrashes | src/polaris/backup/archive.py:508-672 | an import cut short any number of times and recovered until a recovery ends leaves the old or the new state, clean, unless the trace shows a rollback cut short at a named point or a recovery cut short in a window; at every moment a missing target has a complete previous tree, or a complete replacement when nothing was there |
| Restore.BringBackWindow | src/polaris/backup/archive.py:608-611 | after the rename of the previous tree under a later phase the outcome is unchanged exactly when the configuration inside that tree is the installed one |
| Restore.InstallWindow | src/polaris/backup/archive.py:616-622 | after the rename of the replacement under the first phase the outcome is unchanged exactly when its configuration is already installed |
| Restore.RolledBackExactly | src/polaris/backup/archive.py:590-597 | a rollback that comes to its end has left the old or the new state exactly if there was a target, or no external configuration, or the two configurations are one |
| Restore.LastRenameExactly | src/polaris/backup/archive.py:588-594 | after the last rename of a rollback recovery makes the old or the new state exactly if the marked phase suits the tree, or the tree holds the present configuration, or the two trees are one |
| Restore.RemovalExactly | src/polaris/backup/archive.py:585-587 | around the removal of the new tree by a rollback every disk leads to the old or the new state exactly if the removal cannot leave a part of it |
| Restore.FirstWindowHappens | src/polaris/backup/archive.py:610-611 | a trace of an import and a recovery into the first window, from the disk before the import on, after which recovery gives up |
| Restore.SecondWindowHappens | src/polaris/backup/archive.py:619-622 | a trace of an import and a recovery into the second window, from the disk before the import on, after which new data stands beside the old configuration |
| Restore.FirstExceptionHappens | src/polaris/backup/archive.py:590-597 | a rollback without a previous target that ends with the new data under the old configuration |
| Restore.SecondExceptionHappens | src/polaris/backup/archive.py:588-589 | a trace into a rollback whose last rename leaves a disk on which recovery gives up |
| Restore.ThirdExceptionHappens | src/polaris/backup/archive.py:585-587 | a trace into a rollback whose removal leaves a part of the new tree, which recovery keeps |
| Cron.ParseField | src/polaris/scheduler/cron.py:13-53 | a field is refused exactly when it is empty or one of its parts is bad; otherwise it holds exactly the numbers its parts contain, all within the limits, with 7 as another name of 0 for weekdays |
| Cron.ContainsExactly | src/polaris/scheduler/cron.py:49 | the numbers of a part are its start and every step from it, up to its end |
| Cron.PlainPart | src/polaris/scheduler/cron.py:25-48 | what the forms without a step mean: a star is everything, a number itself, two numbers around a minus the range between them; refused if out of order or beyond the limits |
| Cron.StepPart | src/polaris/scheduler/cron.py:25-48 | what a step means: every so many of the star or range before it, and of the numbers from a single number to the maximum |
| Cron.EmptyPart | src/polaris/scheduler/cron.py:25-49 | a part is accepted and yet names nothing exactly when it is N/step with N above the maximum |
| Cron.EmptyPartHappens | src/polaris/scheduler/cron.py:25-49 | the minute field 70/1 is accepted and has no minutes |
| Cron.Parse | src/polaris/scheduler/cron.py:67-81 | an expression has exactly five good fields, each read within its own limits |
| Cron.Scan | src/polaris/scheduler/cron.py:105-126 | the search returns the first matching candidate within its limit, or none of the candidates matches |
| Cron.NextAfter | src/polaris/scheduler/cron.py:99-100 | the least match strictly after the argument, if there is one in reach, for every predicate on minutes |
| Cron.PreviousOrAt | src/polaris/scheduler/cron.py:102-103 | the greatest match at or before the argument, if there is one in reach |
| Cron.SearchesAreInverse | src/polaris/scheduler/cron.py:99-126 | the two searches are inverse on adjacent matches, from every instant between them |
| Cron.NextTimes | src/polaris/scheduler/cron.py:128-136 | the requested number of consecutive matches; refused for a count out of range or when matches run out |
| Cron.NoGap | src/polaris/scheduler/cron.py:128-136 | up to the last listed time, an instant is listed exactly when it matches |
| CronCalendar.EightYearsSuffice | src/polaris/scheduler/cron.py:83-126 | in a zone with a fixed offset the search succeeds from every instant exactly when the fields allow some date at all, and when it fails there is no match at any time |
| CronCalendar.EightYearsBackSuffice | src/polaris/scheduler/cron.py:102-126 | the search into the past succeeds from every instant exactly when the fields allow some date at all |
| CronCalendar.SearchesFailExactly | src/polaris/scheduler/store.py:678-731 | the searches a job needs at a tick fail exactly when its expression allows no date; a job whose next run is an occurrence never makes a tick fail |
| CronCalendar.DayRule | src/polaris/scheduler/cron.py:83-97 | which days a weekday number means, Sunday being 0, and how weekday and day of the month combine with and without wildcards |
| CronCalendar.OccursExactly | src/polaris/scheduler/cron.py:83-97 | an instant is an occurrence exactly if its local minute, hour, month and day are among those of the fields |
| Schedules.ComputeNextRun | src/polaris/scheduler/store.py:98-117 | the least occurrence strictly after an instant; nothing exactly for a single run that has passed, a failure exactly when the cron search finds nothing |
| Schedules.InitialRun | src/polaris/scheduler/store.py:424-437 | the first run of a job is an occurrence of its schedule, not in the past but for a single run |
| Schedules.DueOccurrences | src/polaris/scheduler/store.py:678-725 | while the next run is an occurrence, what is due is exactly what the policy keeps of all occurrences from it to now: the latest one within grace, the latest one, or the last few, ascending; it fails only if a cron search up to now fails |
| Schedules.KeptExactly | src/polaris/scheduler/store.py:678-725 | what each policy keeps: skip the latest occurrence if it is no older than the grace period, fire-once the latest whatever its age, bounded the latest few |
| Schedules.IntervalDue | src/polaris/scheduler/store.py:706-716 | all occurrences of an interval schedule up to now are one arithmetic progression |
| Schedules.CronDue | src/polaris/scheduler/store.py:717-725 | walking back from now collects exactly the last matches not before the next run; it fails only if a search up to now fails |
| Schedules.AdvanceAfterNow | src/polaris/scheduler/store.py:727-731 | a job moves to the least occurrence after now, or ends if it runs once; it fails exactly when the cron search finds nothing |
| SchedulerStore.Store.CreateJob | src/polaris/scheduler/store.py:365-422 | a new job waits for an occurrence of its schedule; refused exactly for bad options, for a cron search that finds nothing, or for a name that is empty or taken |
| SchedulerStore.Store.PauseJob | src/polaris/scheduler/store.py:535-541 | only a scheduled job is paused, keeping its next run |
| SchedulerStore.Store.ResumeJob | src/polaris/scheduler/store.py:543-573 | only a paused job is resumed, with the next run it had |
| SchedulerStore.Store.CancelJob | src/polaris/scheduler/store.py:575-631 | the job is withdrawn unless it has completed, its active runs are asked to cancel and its pending deliveries suppressed; results not yet delivered are held back, and runs of other jobs are not touched |
| SchedulerStore.Store.ClaimJob | src/polaris/scheduler/store.py:767-819 | the latest due occurrences that still fit are claimed, none of them for the second time, and the job moves past now - so the premise that the next run is an occurrence is kept |
| SchedulerStore.Store.ClaimDueRuns | src/polaris/scheduler/store.py:733-820 | one tick, for every job: its latest occurrences are claimed and it moves on, or the tick was full; a full tick drops only the oldest; the runs grow by exactly one leased run for each claim; either all changes of the tick happen or none, and a tick with good arguments fails only if a cron search of a due job fails; no job is left waiting for an instant up to now unless the tick is full, and no other job is touched |
| SchedulerStore.NoDuplicateFiring | src/polaris/scheduler/store.py:733-820 | in a store its own operations produced, the instants claimed for a job strictly increase, each is an occurrence of its schedule with its run, and none lay ahead of its tick |
| SchedulerStore.Store.Serve | src/polaris/scheduler/store.py:365-1310 | over any sequence of ticks and other calls, whatever their clocks show, no instant of a job is claimed twice and none before one already claimed; each claim is an occurrence of its job, belongs to one of the ticks, was due by then and had no run before |
| SchedulerStore.Store.MarkRunning | src/polaris/scheduler/store.py:863-929 | the call does what the row machine says, or is refused with its error |
| SchedulerStore.Store.Heartbeat | src/polaris/scheduler/store.py:963-987 | the lease of an active run is extended by its owner while it lasts |
| SchedulerStore.Store.RequestCancel | src/polaris/scheduler/store.py:989-1022 | a cancellation is noted unless the run has ended without success, and a pending delivery of a successful run suppressed |
| SchedulerStore.Store.Cancel | src/polaris/scheduler/store.py:1024-1078 | an active run is cancelled, a finished one left alone |
| SchedulerStore.Store.Complete | src/polaris/scheduler/store.py:1080-1151 | an active run ends under a live lease of its owner, as cancelled if that was requested |
| SchedulerStore.Store.RecordDelivery | src/polaris/scheduler/store.py:1153-1196 | the delivery of a successful run is recorded once |
| SchedulerStore.Store.RecoverStaleRuns | src/polaris/scheduler/store.py:1218-1250 | exactly the active runs with an expired lease are interrupted |
| SchedulerStore.Store.CreateRetry | src/polaris/scheduler/store.py:1252-1310 | an unsuccessful run starts its next attempt, with approval only |
| JobRuns.RunHistory | src/polaris/scheduler/store.py:863-1310 | over every history of a run: a lease is held exactly while it is active, an outcome is final within an attempt, success is final for ever, a requested cancellation is never answered by success, a delivery leaves the pending state at most once an attempt, and attempts count the accepted retries |
| JobRuns.SuccessNeedsLease | src/polaris/scheduler/store.py:1105-1117 | success is reported only by the owner under a live lease, and not after a requested cancellation |
| Chunking.CharacterExactly | src/polaris/channels/formatting.py:24-31 | a character beyond the basic plane takes two units, and a text may be cut after a tab, a line feed or a space |
| Chunking.TakeUnits | src/polaris/channels/formatting.py:20-36 | the longest prefix that fits, or up to its last break if that keeps half of it; chunk and rest make up the text |
| Chunking.Split | src/polaris/channels/formatting.py:39-51 | chunks are non-empty, fit, and concatenate to the text; refused exactly when a character does not fit |
| Chunking.PreserveCodeFences | src/polaris/channels/formatting.py:55-75 | all chunks are repaired if every repaired chunk fits, and none otherwise |
| Chunking.FencesAcrossLine | src/polaris/channels/formatting.py:62-71 | no fence is formed across a line break, so added fences count separately |
| Chunking.RepairedIsBalanced | src/polaris/channels/formatting.py:59-74 | every repaired chunk but the last holds an even number of fences |
| Chunking.ChunkText | src/polaris/channels/formatting.py:39-52 | every final chunk fits, and taking away the added fences gives back pieces that concatenate to the text |
| Chunking.ChunkOutbound | src/polaris/channels/formatting.py:78-102 | a text that fits is sent as it is, a longer one as its numbered chunks with the same envelope; refused exactly when the limit is too small |
| Chunking.ChunkKeysDiffer | src/polaris/channels/formatting.py:88 | the chunks of one message have different keys |
| ChannelStore.Store.IngestTelegramUpdate | src/polaris/channels/store.py:490-602 | an update and the offset past it become durable together; the offset never moves back within an epoch, an update delivered again adds nothing, and a refusal, for a negative number or a taken downstream key, changes nothing |
| ChannelStore.Store.IngestEnvelope | src/polaris/channels/store.py:604-680 | a new event is stored and audited once, and refused exactly when its downstream key is taken; one that is there changes nothing |
| ChannelStore.Store.SetTelegramOffset | src/polaris/channels/store.py:470-488 | the offset only moves forward |
| ChannelStore.Store.BeginTelegramEpoch | src/polaris/channels/store.py:445-468 | the next epoch starts at the given offset |
| ChannelStore.Store.BindTelegramIdentity | src/polaris/channels/store.py:402-443 | another bot starts a new epoch at zero; the epoch that is returned is the stored one |
| ChannelStore.Store.ClaimInbox | src/polaris/channels/store.py:682-733 | after recovering expired leases the oldest waiting event is leased |
| ChannelStore.Store.RecoverInboxLeases | src/polaris/channels/store.py:735-762 | an expired event waits again if it has a downstream key, and fails otherwise |
| ChannelStore.Store.HeartbeatInbox | src/polaris/channels/store.py:764-794 | a live lease is extended by its owner |
| ChannelStore.Store.LinkInboxRun | src/polaris/channels/store.py:796-841 | an event under a live lease is linked to one run |
| ChannelStore.Store.FinishInbox | src/polaris/channels/store.py:922-959 | only the owner of a live lease finishes an event |
| ChannelStore.Store.CompleteInboxWithOutbox | src/polaris/channels/store.py:862-901 | completion and the whole batch of replies become durable together, by the one handler whose lease still holds, or nothing changes |
| ChannelStore.EnqueuedAllIff | src/polaris/channels/store.py:1092-1141 | a batch is refused exactly when one of its keys already stands for another content |
| ChannelStore.EnqueuedAllAddsOnly | src/polaris/channels/store.py:1092-1141 | enqueueing adds the messages of the batch, pending and unclaimed, and nothing else |
| ChannelStore.Store.EnqueueOutbox | src/polaris/channels/store.py:1086-1141 | a message is enqueued once under its key |
| ChannelStore.Store.ClaimOutbox | src/polaris/channels/store.py:1143-1192 | after recovering expired leases the oldest pending message is leased |
| ChannelStore.Store.RecoverOutboxLeases | src/polaris/channels/store.py:1194-1211 | a send whose lease expired has an unknown outcome and is not tried again |
| ChannelStore.Store.HeartbeatOutbox | src/polaris/channels/store.py:1213-1241 | a live lease is extended by its owner |
| ChannelStore.Store.FinishOutbox | src/polaris/channels/store.py:1276-1313 | only the owner of a live lease records an outcome |
| ChannelStore.Store.ResolveOutbox | src/polaris/channels/store.py:1315-1335 | an operator settles an unknown outcome |
| ChannelStore.Store.RetryOutbox | src/polaris/channels/store.py:1337-1361 | only an operator puts an unknown or failed message back |
| Delivery.OutboxHistory | src/polaris/channels/store.py:1143-1361 | over every history of a message it is claimed exactly once plus once for each accepted operator retry, not counting a claim it still waits for |
| Delivery.ClaimedSend | src/polaris/channels/store.py:1143-1313 | a claim gives a message to one worker until its time is up: that worker alone records an outcome or extends the time, and afterwards nobody does and recovery takes the outcome for unknown |
| Delivery.SentIsFinal | src/polaris/channels/store.py:1276-1361 | a sent message never changes again, and no message changes its content |
| Delivery.InboxHistory | src/polaris/channels/store.py:682-959 | however often leases expire and handlers rerun, at most one outcome of an event is accepted and it is final |
| Delivery.ClaimedEvent | src/polaris/channels/store.py:682-959 | a claim gives an event to one worker until its time is up: that worker alone finishes it or extends the time, and afterwards recovery has it wait again if it has a downstream key, or fail; only an allowed event is ever claimed |
| ChannelProcessor.Processor.ProcessInboxOnce | src/polaris/channels/processor.py:81-128 | it is idle exactly if no event of the platform waits; a claimed event has been handed to its handler once more; done means that the event is completed with exactly the handler's messages in the outbox; while it has its lease, the worker fails the event only if the handler raised, the adapter refuses a message or the outbox has one of the keys with other content |
| ChannelProcessor.Processor.SendOutboxOnce | src/polaris/channels/processor.py:130-159 | it is idle exactly if no message of the platform waits; a claimed message has been handed to the platform once more; while it has its lease, the worker records what the platform said - sent, failed or unknown - and it never repeats a failed send |
| ChannelProcessor.Processor.Prepare | src/polaris/channels/processor.py:100-110 | every message in its chunks and in order, the pieces of which concatenate to its text; None exactly when a message is for another platform or cannot be split within the limit |
| ChannelProcessor.Processor.Serve | src/polaris/channels/processor.py:81-159 | over any turns of workers, operators and ingest in any order, with others in between: no hand-over is forgotten, sends of a message number at most one plus its operator retries, nothing sent is sent again, no row or content is lost, and an answered event is completed with its replies in full |
| ChannelProcessor.EventNamesOneRun | src/polaris/channels/store.py:217-219 | in a store its own operations produced a downstream key belongs to one event, and it names one run of the journal, however often the handler runs |
| MemoryStore.Store.Put | src/polaris/memory/store.py:590-607 | entry, revision, index row and generation change together, keeping all invariants of the store |
| MemoryStore.Store.AppendInTransaction | src/polaris/memory/store.py:552-607 | a new entry with its first revision and its row in the index, or a conflict that changes nothing |
| MemoryStore.Store.AppendIdempotent | src/polaris/memory/store.py:472-523 | one key yields one entry: the same write returns it and changes nothing, another is refused; a new key appends unless it is blank or the identifier is taken |
| MemoryStore.Store.AppendReconciled | src/polaris/memory/store.py:525-550 | the oldest equal active value of the scope is returned, and only without one a new entry is appended, unless its identifier is taken |
| MemoryStore.Store.ReplaceEntry | src/polaris/memory/store.py:641-742 | an active entry still as the caller saw it is replaced, one revision on; otherwise nothing changes |
| MemoryStore.Store.RemoveEntry | src/polaris/memory/store.py:772-823 | an entry becomes a tombstone and leaves the index; removing it again changes nothing |
| MemoryStore.ReindexedIsExact | src/polaris/memory/store.py:752-770 | with the index on, a write keeps it exactly the active unblocked entries with their current content |
| MemoryStore.RevisionKeeps | src/polaris/memory/store.py:609-623 | each entry keeps revisions one to its own, the last equal to the live row |
| MemoryStore.Store.Reopen | src/polaris/memory/store.py:315-352 | opening with the index on adds the rows that are missing and removes none |
| MemoryStore.ReopeningRepairs | src/polaris/memory/store.py:315-352 | opening repairs the index exactly if no row of it is out of date |
| MemoryStore.IndexGoesStale | src/polaris/memory/store.py:315-352 | one write while the index is off leaves it exact after opening exactly if it kept what is indexed of an entry that was indexed; new and blocked entries do no harm |
| MemoryStore.StaleHappens | src/polaris/memory/store.py:315-352 | a concrete entry whose old row stays in the index after its content was replaced with the index off |
| MemoryStore.GoStale | src/polaris/memory/store.py:315-742 | the same through the store: append, open without the index, replace, open with it |
| Secrets.ParseSecrets | src/polaris/secrets.py:43-71 | the lines of a payload as a map, or None exactly for a payload that is too long, not text, has a NUL or CR, a bad line or a name twice |
| Secrets.Serialize | src/polaris/secrets.py:74-85 | one line for each value in the order of the names, refused exactly for an invalid value or too long a text |
| Secrets.RoundTrip | src/polaris/secrets.py:43-85 | reading back what was written gives the same values, for every map of valid names and values within the size bound |
| Secrets.ParsedIsValid | src/polaris/secrets.py:57-71 | whatever is read has valid names and values |
| Secrets.NameExactly | src/polaris/secrets.py:15-33 | a name is valid exactly if it is a letter or underscore followed by letters, digits and underscores, by their ASCII codes |
| Secrets.ValueExactly | src/polaris/secrets.py:36-41 | a value is valid exactly if it has no NUL, CR, LF or backquote and no dollar sign followed by a parenthesis |
| Secrets.WidthExactly | src/polaris/secrets.py:45-46 | how many bytes of UTF-8 a character takes, by its code |
| Secrets.CommentExactly | src/polaris/secrets.py:59 | a comment is a number sign with nothing but white space before it |
| Texts.SpaceExactly | src/polaris/secrets.py:59 | the white space that stripping removes, each character by its code |
| Secrets.RemovalFits | src/polaris/secrets.py:146-154 | the values of a file that can be read, without one of them, are never too long to be written |
| Secrets.SecretsFile.Read | src/polaris/secrets.py:101-133 | the values of the file, or the reason why there are none |
| Secrets.SecretsFile.Set | src/polaris/secrets.py:138-144 | setting a name through the file is an update of its values, and fails exactly for an invalid name or value, an unreadable file or too long a result |
| Secrets.SecretsFile.Remove | src/polaris/secrets.py:146-154 | removing a name through the file is a deletion and succeeds exactly for a valid name and a readable file; removing an absent one changes nothing |
| Secrets.SecretsFile.Check | src/polaris/secrets.py:156-164 | exactly the required names that have no value |

## Left out

- AgentRuntime.AgentRuntime.Execute: makes at most a given number of turns, after which the process is taken to have died; that the loop ends by itself is not stated, and it does not always (see above).
- AgentReplay.Reconstruct: reads the tables once, where the source reads them several times in a row; later reads could only see more of the same conversation, by transcript stability.
- AgentReplay.RecordedReplay: does not model the timeline, usage totals and model names of a replay.
- AgentRuntime.AgentRuntime.ExecuteModel: leaves the provider name and tool definitions out of the stored request, and takes the reading of earlier attempts and the creation of the next as one step; RacingIsLegal covers the steps apart, for runtimes of one configuration.
- AgentRuntime.AgentRuntime.ReconcileUncertain: an answer whose status is a list or an object makes the source raise; here it proves nothing, and the call is executed again.
- AgentSession.Session.Heartbeat: heartbeats during a handler are ordinary steps of others; the timer that sends them is not modelled.
- JournalStore.Journal.ReclaimExpiredLeases: the order of the rows within one reclaim is arbitrary, and equal creation times are not ordered by identifier anywhere.
- JournalStore.Journal.StartProviderCall: the provider and its request are no part of the row, so an empty provider name is not refused.
- JournalStore.Journal.CompleteProviderCall: the usage of a call is no part of the row, so negative usage is not refused.
- JournalStore.Journal.FinishOwnedStep: error texts and uncertainty reasons are not stored; neither are artifacts and update times of any row.
- Restore.Restorer.Durably: every durable operation either happens or not, and a copy that fails is removed again; losing a completed rename for want of a flush, file modes, encryption and archive extraction are not modelled, and paths are fixed names.
- Restore.Restorer.Finalize: the import workspace is removed together with the replacement inside it.
- Cron.Parse: takes the five fields already separated by white space, and the reading of a number as a given function.
- Cron.Scan: time is unbounded, so running past the years a date can hold is not an error here; a zone is any function from instants to local times, and only fixed offsets are given a calendar.
- Schedules.DueOccurrences: floating-point seconds are replaced by whole microseconds.
- SchedulerStore.Store.Heartbeat: reads and updates the run in one transaction, where the source uses two.
- SchedulerStore.Store.RequestCancel: reads and updates the run in one transaction, where the source uses two.
- SchedulerStore.Store.ResumeJob: the fallback for a paused job without a next run is not modelled, as no such job arises.
- SchedulerStore.Store.ClaimDueRuns: jobs are taken in an arbitrary order, which covers the order of the query and every shuffle; updating the schedule of a job is not modelled.
- ChannelStore.Store.IngestTelegramUpdate: the authorization policy is a given answer, and payloads are not stored.
- ChannelProcessor.Processor.Prepare: an adapter either splits every message by UTF-16 units or passes messages on; the special rules of single platforms for callbacks, updates and blocks are not modelled.
- ChannelStore.Store.FinishInbox: error texts are not stored, and notifications of linked runs are not modelled.
- MemoryStore.Store.AppendInTransaction: the threat scanner is a given function of the content; recall, ranking, rendering and batches of appends are not modelled.
- Secrets.SecretsFile.Read: the type, owner and mode of the file, and its exchange while it is opened, are not modelled; they are further reasons to refuse it.
- Secrets.SecretsFile.Set: a lock that is not obtained and failures of the file system are not modelled.
- Secrets.SecretsFile.Remove: a lock that is not obtained and failures of the file system are not modelled.
- Secrets.SecretsFile.Write: locking, permissions and the temporary file are not modelled; replacing the file is atomic.
- Ensemble budget slots, evidence validation, registries, configuration validation, the daemon, the command line and the user interfaces are left out: plumbing, or easy set and division facts.
