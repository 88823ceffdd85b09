# Termco execution stack: model and proofs

The plugins of Termco run AI tools, record chat sessions and replay them. This project models the
parts of them that are protocols or exact algorithms, as Dafny, and proves what they promise.

| part | modules | what it is |
|---|---|---|
| scheduler | `SchedulerModel`, `SchedulerSlots`, `SchedulerCommits`, `SchedulerDrain`, `SchedulerOrigins`, `Scheduler` | safe and exclusive tool bodies in any order, commits strictly in registration order |
| executor | `ExecutorModel`, `ExecutorSafety`, `ExecutorOrigins`, `ExecutorAnswers`, `Executor` | single-flight execution over a durable log, with restarts, on top of the scheduler |
| history | `HistoryModel`, `HistorySafety`, `HistoryRules`, `History` | the rules every append to a session history has to pass, and the validator that undoes a refused batch |
| approvals | `ApprovalModel`, `ApprovalSafety`, `ApprovalOrigins`, `Approvals` | approval requests and decisions over a guarded history, rehydrated from it |
| recording | `RecordingModel`, `RecordingSafety`, `RecordingOrigins`, `Recording` | two-lane batched recorder and the gate of the next step |
| session log | `SessionModel`, `SessionSafety`, `SessionBuilders`, `SessionRace`, `SessionSuspension`, `SessionPending`, `SessionOrigins`, `Session` | turn and step builders, their queue, racing closers, suspension and resume |
| closure gate | `ClosureModel`, `ClosureSafety`, `ClosureOrigins`, `Closure` | one closing work per turn, repair of failed closures |
| retry | `RetryModel`, `Retry`, `RetryCauses` | durable retry loop and retrying stream |
| replay | `ReplayModel`, `ReplaySafety`, `Replay` | from canonical log to provider stream and back |
| JSON pointers | `JsonModel`, `JsonPointer`, `SanitizeModel`, `SanitizeSafety`, `SanitizeComplete`, `Sanitize`, `Placeholders` | printing, evaluation, sanitization review, live placeholders |
| schemas | `SchemaModel`, `SchemaSafety`, `SchemaFaults`, `UiModel`, `UiAgreement`, `UiConverse`, `Ui` | validator against the hand-written parsers |
| loops | `PagingModel`, `Paging`, `LineReader`, `EditModel`, `EditSafety`, `Edits` | history pagers, line reader, exact-string edits |

A protocol is a state machine: a `...Model` module holds its state, one function for each stretch
of code between two awaits, and the runs; `...Safety` holds the invariant each step keeps and the
theorems over all runs; `...Origins` tells, by the actions of a run alone, where every value, event and
answer in its last state came from; the class beside them has the fields of the source object and one method
for each public call and promise continuation, each proved to take its step of the model. Promises,
timers and aborts are steps that may come in any order. Reads and appends may fail at any time.
Sessions and approvals append to a history that takes a batch only when the rules of
`@termco/session-base` hold; a refused append is a step like any other. Rows that begin with
"Link" tie a method of an object to its step of the model: they carry the theorems over to the
object and are no results by themselves.

Where code and promise differ, the code is modelled and the difference is a lemma: a promise that
rejects with `undefined` makes the scheduler retry a commit; an approval requested after the result
of its call lets a suspension be written that names no call and cannot be read back; the empty
pointer does not reach the root; a text that overlaps itself passes as unique; `$` patterns in a
single replacement are interpreted; the parsers accept more than the schema, and pass unchanged
exactly what it accepts. Each comes with the exact condition or a witness.

`dafny verify dfyconfig.toml` checks everything.

## Model

| member | source | states |
|---|---|---|
| `SchedulerSlots.SlotsOnEveryRun` | plugins/ai-registry-native/src/scheduler.ts:90-131 | On every run `#runningSafe` is the number of safe bodies that hold a slot and never exceeds the cap, an exclusive body holds its slot alone, exclusive entries are barriers, and bodies start in registration order of what can start. |
| `SchedulerSlots.ExclusiveStartsAlone` | plugins/ai-registry-native/src/scheduler.ts:96-101 | An exclusive body starts only when every earlier entry released its slot or was completed without a body, and nothing later has started. |
| `SchedulerSlots.StepKeepsSlots` | plugins/ai-registry-native/src/scheduler.ts:50-131 | Every public call and every promise continuation keeps the slot invariant. |
| `SchedulerCommits.CommitsOnEveryRun` | plugins/ai-registry-native/src/scheduler.ts:133-155 | On every run in which no commit rejects with `undefined`, whatever bodies and settle promises reject with: commits are called for orders 0, 1, 2, ... once each, at most one is in flight, only for ready entries and with their value; exactly the entries below `#nextCommit` are committed, also after a body failed during a commit; a promise resolves only for a committed order and rejects with the failure or with a body's `undefined`; without a failure `#pump` and the commit loop have nothing left to do. |
| `SchedulerCommits.UndefinedRejectionRetriesCommit` | plugins/ai-registry-native/src/scheduler.ts:144-155 | A failed commit is called again exactly when it rejected with `undefined`, which leaves `#failed` unset. |
| `SchedulerCommits.QuietIsFixpoint` | plugins/ai-registry-native/src/scheduler.ts:90-110 | `#pump` changes nothing exactly when no entry may start; both directions. |
| `SchedulerCommits.StepKeepsGood` | plugins/ai-registry-native/src/scheduler.ts:50-155 | Every step keeps the commit invariant and leaves pump and commit loop at a fixpoint. |
| `SchedulerDrain.SuccessDecreases` | plugins/ai-registry-native/src/scheduler.ts:112-149 | Each successful continuation makes a measure of outstanding work, a sum over the entries, fall. |
| `SchedulerDrain.RestIsDrained` | plugins/ai-registry-native/src/scheduler.ts:90-149 | When no promise is outstanding, everything before the first entry without an outcome is committed and nothing after it has started. |
| `SchedulerDrain.RestIffNoContinuation` | plugins/ai-registry-native/src/scheduler.ts:112-149 | No promise is outstanding exactly when no successful continuation can happen. |
| `SchedulerDrain.EveryRunDrains` | plugins/ai-registry-native/src/scheduler.ts:50-149 | Runs of successful continuations are finite, and one that cannot go on has committed every entry exactly when every registered order was given an outcome. |
| `SchedulerDrain.AbandonedOrderBlocks` | plugins/ai-registry-native/src/scheduler.ts:90-149 | An order that never gets an outcome keeps every later body from starting and every later commit from being called. |
| `SchedulerOrigins.ValuesAreSupplied` | plugins/ai-registry-native/src/scheduler.ts:31-155 | On every run, whatever rejects: the value of an order, and what its promise resolved to, is what the body of that very order returned or `complete` supplied for it; a returned value is always kept; a promise rejects only with something a body, a settle promise or a commit rejected with; only an executed order has a body; orders keep the concurrency of their registration; and `#failed` is the first rejection that is not `undefined`. |
| `SchedulerOrigins.SuppliedIsKept` | plugins/ai-registry-native/src/scheduler.ts:50-118 | What a body returned, or `complete` supplied to an order without an outcome, is the value of the order at the end of every run that goes on from there, and an executed order keeps its outcome. |
| `Scheduler.OrderedToolScheduler.Register` | plugins/ai-registry-native/src/scheduler.ts:31-48 | Link: registration takes the next order, or throws the failure of the scheduler. |
| `Scheduler.OrderedToolScheduler.Execute` | plugins/ai-registry-native/src/scheduler.ts:50-65 | Link: takes the `execute` step; an unknown order or one with an outcome is refused and changes nothing. |
| `Scheduler.OrderedToolScheduler.Complete` | plugins/ai-registry-native/src/scheduler.ts:67-82 | Link: takes the `complete` step; an unknown order or one with an outcome is refused and changes nothing. |
| `Scheduler.OrderedToolScheduler.Pump` | plugins/ai-registry-native/src/scheduler.ts:90-110 | The start loop takes exactly the pump step of the model. |
| `Scheduler.OrderedToolScheduler.CommitReady` | plugins/ai-registry-native/src/scheduler.ts:133-149 | The commit loop up to its await takes exactly the commit step of the model. |
| `Scheduler.OrderedToolScheduler.Fail` | plugins/ai-registry-native/src/scheduler.ts:151-155 | Link: the first failure wins and rejects every entry from `#nextCommit` on. |
| `Scheduler.OrderedToolScheduler.BodyFinished` | plugins/ai-registry-native/src/scheduler.ts:115-118 | Link: the returned value is the value of its own entry, which is ready; no other entry changes, and commits are attempted while the slot stays held. |
| `Scheduler.OrderedToolScheduler.SlotSettled` | plugins/ai-registry-native/src/scheduler.ts:121-126 | Link: the slot is released and the pump runs. |
| `Scheduler.OrderedToolScheduler.CommitFinished` | plugins/ai-registry-native/src/scheduler.ts:140-143 | Link: the committed entry resolves and the loop goes on. |
| `Scheduler.OrderedToolScheduler.CommitFailed` | plugins/ai-registry-native/src/scheduler.ts:144-148 | Link: the commit loop stops, the scheduler fails. |
| `ExecutorSafety.OneResultAcrossRestarts` | plugins/ai-registry-native/src/executor.ts:448-507 | Over every interleaving of execute, complete, reads, appends, failures and restarts that lose all maps, the log holds at most one `tool/result` per call, every caller that got a result got the durable one, and no call is in both record maps. |
| `ExecutorSafety.SameResultForEveryCaller` | plugins/ai-registry-native/src/executor.ts:448-481 | With one durable result any two results recorded for the call are the same. |
| `ExecutorSafety.OneBodyPerCall` | plugins/ai-registry-native/src/executor.ts:689-801 | Within one process the body of a call starts at most once. |
| `ExecutorSafety.NoBodyAfterDurableResult` | plugins/ai-registry-native/src/executor.ts:714-730 | A body starts only for a call without a durable result, under a commit that stores one. |
| `ExecutorSafety.FailedRegistrationBlocks` | plugins/ai-registry-native/src/executor.ts:347-388 | An order whose registration could not be made durable keeps every later order of the session from starting and committing for as long as the process lives. |
| `ExecutorSafety.AbandonedUntilDispatched` | plugins/ai-registry-native/src/executor.ts:659-681 | An order without an outcome, be it after a result mismatch, a failed read or a failed registration, keeps every later order from starting and committing on every run in which no operation of its call dispatches. |
| `ExecutorSafety.MismatchAbandons` | plugins/ai-registry-native/src/executor.ts:659-670 | A `complete` that meets a different durable result rejects and leaves order, registration and log as they were. |
| `ExecutorSafety.ExecuteMends` | plugins/ai-registry-native/src/executor.ts:714-730 | After a mismatch an `execute` of the same call takes its order up again, with the durable result and without a body. |
| `ExecutorSafety.ExecutorDrains` | plugins/ai-registry-native/src/executor.ts:659-801 | With no promise of the scheduler outstanding and no failure, every call before the first order without an outcome is settled with its durable result and nothing behind it has started; all are settled exactly when every registered order was given an outcome. |
| `ExecutorSafety.StepKeepsInv` | plugins/ai-registry-native/src/executor.ts:319-388 | Every step of the executor, restart included, keeps its invariant. |
| `ExecutorOrigins.EventsAreSupplied` | plugins/ai-registry-native/src/executor.ts:319-507 | From any log, over every run with restarts and whatever rejects: a stored call was asked for with that identity, a stored result was supplied by a `complete` of that call or returned by the body of one of its orders, nothing the log held is lost, and every new result stands behind a call event of its call. |
| `ExecutorOrigins.PersistedMeansDurable` | plugins/ai-registry-native/src/executor.ts:319-388 | On the same runs an order is persisted only while its own `tool/call`, with its identity, is in the log; a result is stored only when it is there; an operation past its registration has that identity; the scheduler got the concurrency asked for; and a call stays registered until its persistence fails, not longer. |
| `ExecutorOrigins.OnlyDurableIdentityRuns` | plugins/ai-registry-native/src/executor.ts:319-345 | Where the history refuses a second `tool/call`, each call keeps one identity over all restarts and no operation of another identity is handed to the scheduler or given an outcome. |
| `ExecutorOrigins.ReadDecides` | plugins/ai-registry-native/src/executor.ts:319-345 | After its read a registration is persisted exactly when its own call event is in the log, refused exactly when that of another identity is, and about to append otherwise. |
| `ExecutorOrigins.NothingIsForgotten` | plugins/ai-registry-native/src/executor.ts:347-388 | In one process every call recorded, executed or completed has an order unless the scheduler had failed, a registration that became durable or failed stays so, and what a body returned is the value of its order. |
| `ExecutorAnswers.EveryOperationAnswered` | plugins/ai-registry-native/src/executor.ts:653-801 | When no continuation can change anything and the scheduler did not fail, every operation still recorded has the durable result of its call, unless its order or an earlier one was never given an outcome; no registration hangs. |
| `ExecutorAnswers.StartsIffFree` | plugins/ai-registry-native/src/executor.ts:616-801 | `execute` or `complete` of a call in flight changes nothing; any other starts exactly when the call is registered under the same identity, or is not registered and the scheduler has not failed. |
| `ExecutorAnswers.RejectsForAReason` | plugins/ai-registry-native/src/executor.ts:448-507 | An operation rejects exactly when its own continuation finds the registration failed, the read failed, several results in the log, its order taken, another durable result than the supplied one, or the promise of the scheduler rejected. |
| `Executor.ToolExecutor.RegisterCall` | plugins/ai-registry-native/src/executor.ts:347-388 | Link: reuses the registration of the same identity, refuses another identity, or takes the next order. |
| `Executor.ToolExecutor.Begin` | plugins/ai-registry-native/src/executor.ts:616-658 | Link: `execute` or `complete` of a call joins the operation in flight or starts one, and refuses another identity. |
| `Executor.ToolExecutor.PersistRead` | plugins/ai-registry-native/src/executor.ts:319-345 | Link: after its read the durable call is accepted, refused for another identity, or about to be appended. |
| `Executor.ToolExecutor.PersistAppended` | plugins/ai-registry-native/src/executor.ts:330-344 | Link: the call event of the order, with its identity, is at the end of the log and the registration is durable. |
| `Executor.ToolExecutor.AfterRead` | plugins/ai-registry-native/src/executor.ts:448-481 | Link: more than one durable result is an error, otherwise the first is kept. |
| `Executor.ToolExecutor.Dispatch` | plugins/ai-registry-native/src/executor.ts:659-680 | Link: a durable result commits without storing, a different one is refused, otherwise the scheduler gets body or result with a storing commit. |
| `Executor.ToolExecutor.AfterResult` | plugins/ai-registry-native/src/executor.ts:682-688 | Link: a resolved caller gets the value, a rejected one drops its record. |
| `ApprovalSafety.OneDecisionAcrossRestarts` | plugins/ai-registry-native/src/executor.ts:390-595 | From any accepted log, over every interleaving of requests, decisions, failed appends, stale reads, other writers, repairs and restarts that lose all records: the log holds at most one decision per approval, every request a record calls durable is in the log, and so is every decision a caller was told, as the only one of its approval. |
| `ApprovalSafety.RequestLandsIffFresh` | plugins/ai-registry-native/src/executor.ts:530-541 | The append of an `approval/request` is accepted exactly when the log holds no request of the approval and none for the call. |
| `ApprovalSafety.RepeatedRequestRefused` | plugins/ai-registry-native/src/executor.ts:530-541 | A request repeated after a restart is refused at the append of its call, or at its own append when the call is registered already. |
| `ApprovalSafety.DecisionNeverRefused` | plugins/ai-registry-native/src/executor.ts:578-595 | While nobody else decides approvals, on every run a decision whose request is durable is accepted: the records of the executor never run into the guard. |
| `ApprovalSafety.HydrateKeepsOpen` | plugins/ai-registry-native/src/executor.ts:390-446 | A record rehydrated from any prefix read since the restart knows the decision of its approval if there is one. |
| `ApprovalSafety.StepKeepsInv` | plugins/ai-registry-native/src/executor.ts:347-595 | Every step, restart included, keeps the invariant that ties records to the log. |
| `ApprovalOrigins.EventsAreSupplied` | plugins/ai-registry-native/src/executor.ts:347-595 | On every run with restarts each event of the log was there at first, is a call or request somebody asked for, the decision of the owner of a record that had none, or written by somebody else; and nothing is lost. |
| `ApprovalOrigins.OutcomeIsTheOneAsked` | plugins/ai-registry-native/src/executor.ts:556-595 | The outcome of a record is the one its owner decided on that very record in this process, or that of a decision in the log it was rehydrated from; what an `approval/decision` append writes is the outcome asked for. |
| `ApprovalOrigins.FirstDecisionStays` | plugins/ai-registry-native/src/executor.ts:566-593 | The first decision of the owner counts: the record keeps that outcome for the rest of the process, whether its append lands or fails; any other decision changes nothing. |
| `ApprovalOrigins.RequestsFollowTheirCall` | plugins/ai-registry-native/src/executor.ts:512-541 | A registration is persisted only while its own call event is in the log; a request is on its way or durable only behind the very call it was asked for, and refused only when the id is registered for another call; a call is registered exactly under the registration of it that has not failed. |
| `ApprovalOrigins.HydrateFinds` | plugins/ai-registry-native/src/executor.ts:390-439 | Rehydration keeps a record that is there; otherwise it leaves one exactly when the part read holds the call, of the same handle and identity, and a request of the approval for it, with the policy of that request and the outcome of its decision, if any. |
| `ApprovalOrigins.NothingIsForgotten` | plugins/ai-registry-native/src/executor.ts:347-595 | In one process who registered stays registered or failed, who asked has a record, and what landed or failed, of a call, a request or a decision, is marked so for good. |
| `Approvals.ApprovalRecords.RegisterCall` | plugins/ai-registry-native/src/executor.ts:347-388 | Link: the registration of the same call is reused, another identity refused, a new one started. |
| `Approvals.ApprovalRecords.Request` | plugins/ai-registry-native/src/executor.ts:512-555 | Link: an existing record is joined by its owner with the same request and refused to anybody else; a new one registers its call. |
| `Approvals.ApprovalRecords.AppendRequest` | plugins/ai-registry-native/src/executor.ts:532-541 | Link: the append lands exactly when the guard accepts it; a refusal drops the record. |
| `Approvals.ApprovalRecords.Hydrate` | plugins/ai-registry-native/src/executor.ts:394-439 | Link: builds the record from the log unless one exists by then. |
| `Approvals.ApprovalRecords.Decide` | plugins/ai-registry-native/src/executor.ts:556-595 | Link: only the owner decides, and the outcome asked for is the one recorded; a decision already made is joined or refused by its signature. |
| `Approvals.ApprovalRecords.AppendDecision` | plugins/ai-registry-native/src/executor.ts:580-592 | Link: the append lands exactly when the guard accepts it; a refusal leaves the decision in place. |
| `RecordingSafety.BatchingRefinesUnbatched` | plugins/ai-chat-native/src/chatRuntime.ts:1231-1315 | With batches, timer and failures anywhere, the log is what recording part by part would have written for a prefix of the mapped parts in observation order, and for all observed parts once both lanes are quiet without a failure. |
| `RecordingSafety.GateOpensOnTime` | plugins/ai-chat-native/src/chatRuntime.ts:625-651 | A `beforeStep(n)` that resolved had the n-th `finish-step` and every part before it persisted, and whoever is parked waits for a step that is not. |
| `RecordingOrigins.EveryWaiterResolvedWhenDue` | plugins/ai-chat-native/src/chatRuntime.ts:625-651 | On every run each `beforeStep(n)` that came is resolved exactly when n `finish-step` parts are persisted and parked under its step until then; nobody else is resolved or parked. |
| `RecordingOrigins.LogIsExplained` | plugins/ai-chat-native/src/chatRuntime.ts:1276-1302 | On every run the log is cut into one stretch for each of the first observed parts, in order: what `mapEvents` returned for that part, or its diagnostic if it returned nothing and the part is of a diagnosed kind, or nothing. |
| `RecordingOrigins.BatchesFill` | plugins/ai-chat-native/src/chatRuntime.ts:1247-1302 | A part of chunks joins the batch, which goes out exactly at 32 events or more and otherwise waits with the timer running; any other part sends a waiting batch ahead and goes by itself. |
| `RecordingSafety.LanesSettle` | plugins/ai-chat-native/src/chatRuntime.ts:1304-1336 | Without new parts the lanes take boundedly many steps, and when none is left both lanes are quiet and no batch is held back. |
| `RecordingSafety.StepKeepsInv` | plugins/ai-chat-native/src/chatRuntime.ts:1238-1302 | Every step of the two lanes, the timer and the gate keeps the refinement. |
| `Recording.StepPersistenceGate.BeforeStep` | plugins/ai-chat-native/src/chatRuntime.ts:633-640 | Link: resolves at once exactly when the step is persisted, otherwise parks under its number. |
| `Recording.StepPersistenceGate.PartPersisted` | plugins/ai-chat-native/src/chatRuntime.ts:641-649 | The loop over waiters resolves each one that became due and keeps every other parked. |
| `Recording.StreamRecording.MappingFinished` | plugins/ai-chat-native/src/chatRuntime.ts:1276-1302 | Link: chunks go to the batch, anything else flushes it and is persisted by itself, as events or as a diagnostic. |
| `Recording.StreamRecording.QueueChunkBatch` | plugins/ai-chat-native/src/chatRuntime.ts:1263-1274 | Link: the batch is flushed at 32 events, otherwise the timer runs. |
| `Recording.StreamRecording.FlushChunkBatch` | plugins/ai-chat-native/src/chatRuntime.ts:1247-1261 | Link: stops the timer and hands a non-empty batch to the persistence lane. |
| `Recording.StreamRecording.PersistenceFinished` | plugins/ai-chat-native/src/chatRuntime.ts:1257-1260 | Link: reports the parts of the finished append to the gate, in order. |
| `HistorySafety.EachOnce` | plugins/session-base/src/invariants.ts:164-402 | Whoever writes to it, an accepted history holds at most one start and one end of a turn and of a step, one header per request, one call and one result per call id, one approval request and one decision per approval and per call, and one schedule per retry. |
| `HistorySafety.GuardTracks` | plugins/session-base/src/invariants.ts:83-518 | On every accepted history the guard is coherent (unresolved calls belong to the open step, approvals and calls name each other one to one, its sets are those its maps say), it knows every event, and every entry of it came from an event. |
| `HistorySafety.StepKeepsCoherent` | plugins/session-base/src/invariants.ts:164-420 | Every event that passes its rule keeps the guard coherent. |
| `HistoryRules.AcceptedIffLegal` | plugins/session-base/src/invariants.ts:164-518 | The guard refines the rules: a history is accepted exactly when each event is legal by conditions on the events before it alone, with no maps, sets or counters. |
| `HistoryRules.GuardDecides` | plugins/session-base/src/invariants.ts:164-490 | On every accepted history the guard allows an event exactly when the rules do, for all kinds of events: brackets with their numbers and open calls, requests with their attempts, tool calls, results, approvals, suspensions with their exact lists, and retries with their phases. |
| `History.HistoryValidator.Append` | plugins/session-base/src/invariants.ts:117-512 | The incremental validator takes a batch exactly when one pass over the whole history with the batch accepts, reports the first broken rule, and otherwise puts back every map, set and field it had changed. |
| `History.HistoryValidator.RecordAll` | plugins/session-base/src/invariants.ts:156-490 | The loop over the batch computes the guard after it or the first broken rule, and its undo maps cover every entry it touched. |
| `History.Restore` | plugins/session-base/src/invariants.ts:501-509 | The restoring loop gives back the map of before the append. |
| `History.SubmitAccepts` | plugins/session-base/src/invariants.ts:118-120 | Parsing the whole batch first changes the reported error only, not what is accepted. |
| `SessionSafety.SessionOnEveryRun` | plugins/ai-chat-native/src/runtime.ts:1057-1358 | Whatever handles builders get and however reads and appends fail, the history stays accepted by the guard, turns and steps are numbered 1, 2, 3, ..., each ends at most once, and a turn ended as often as closers landed on it. |
| `SessionSafety.StepKeepsInv` | plugins/ai-chat-native/src/runtime.ts:261-270 | Every step of the queue, its operations and the tool events beside it keeps the invariant; the numbers read by a queued operation are still right when it appends. |
| `SessionSafety.QueueNeverSticks` | plugins/ai-chat-native/src/runtime.ts:261-270 | Whatever failed before it, the operation at the head of the queue can take a step, and it leaves the queue when it appends. |
| `SessionSafety.BatchNumbered` | plugins/ai-chat-native/src/runtime.ts:1245-1324 | Every batch the builders get accepted starts turns and steps under the next number. |
| `SessionSafety.BatchEnds` | plugins/ai-chat-native/src/runtime.ts:1122-1182 | Fail, abort, complete and cancel end their turn once; the other batches end none. |
| `SessionSafety.GuardRefinesBrackets` | plugins/session-base/src/invariants.ts:164-278 | The guard refines the bracket automaton of turns, steps and suspensions: an event it allows is one the brackets allow, with the same effect. |
| `SessionOrigins.LogIsTheLandings` | plugins/ai-chat-native/src/runtime.ts:261-270 | On every run the log is made of whole batches in queue order and of single events of the tool executor, and of nothing else; each batch is that of one queued job under the handle its caller got, and every caller that got a handle has its batch there once. |
| `SessionOrigins.LandsIffAccepted` | plugins/ai-chat-native/src/runtime.ts:1101-1120 | The append at the head of the queue lands exactly when the history takes its whole batch; a refused one leaves the log alone and only a closer goes on to look at it; no other ticket changes. |
| `SessionOrigins.BracketsComeWhole` | plugins/ai-chat-native/src/runtime.ts:1245-1429 | On every run a turn begins with its user message and a step; a step follows the start of its turn or the completed step before it and opens with header, context and first attempt of one request; a step ends with its turn for the same reason or gives way to the next; a suspension stands behind the message of its step; a resume opens a request again or ends the step as aborted. |
| `SessionOrigins.ResponseSettles` | plugins/ai-chat-native/src/runtime.ts:1431-1480 | Once its batch landed, the end of a provider stream leaves the message of the response under its handle and finish reason, and behind it the suspension on exactly the calls and approvals that wait, or the end of the turn as aborted or completed by the finish reason; without a message id nothing is queued. |
| `SessionBuilders.BeginAccepted` | plugins/ai-chat-native/src/runtime.ts:1245-1267 | A begin is accepted exactly when the session is idle and its request id new. |
| `SessionBuilders.CloserAccepted` | plugins/ai-chat-native/src/runtime.ts:1101-1429 | Fail, abort and complete are accepted exactly on their open step when no call is unresolved, no retry pending, and the failure cites the latest attempt or the message its own request; then they close it. |
| `SessionBuilders.NextAccepted` | plugins/ai-chat-native/src/runtime.ts:1269-1298 | The next step begins exactly when the previous one is open, all its calls have results and the request id is new. |
| `SessionBuilders.SuspendAccepted` | plugins/ai-chat-native/src/runtime.ts:1443-1476 | A suspension is accepted exactly on the open step, under a request of it, with precisely its unresolved calls and undecided approvals, each once. |
| `SessionBuilders.CancelAccepted` | plugins/ai-chat-native/src/runtime.ts:1326-1358 | A suspended turn can be cancelled exactly when all calls have results, the suspended approvals are decided and no retry is pending. |
| `SessionRace.OneCloserLands` | plugins/ai-chat-native/src/runtime.ts:1101-1429 | Fail, abort and complete calls racing on an open step, with failing reads and appends: at most one lands, it writes the only end of the turn, and until then the step is open; every other finished closer reports already closed unless a read or append failed or it was refused while the step was open and held back; one that finishes otherwise proves that one landed. |
| `SessionRace.OpenRefuses` | plugins/ai-chat-native/src/runtime.ts:1245-1358 | While a step is open nothing else that leaves it alone is accepted. |
| `SessionSuspension.ScanFindsSuspension` | plugins/ai-chat-native/src/runtime.ts:574-580 | On every accepted history the scan for a suspension finds the one the guard keeps, with its turn, step and ids. |
| `SessionSuspension.SuspendTracksMode` | plugins/ai-chat-native/src/runtime.ts:574-580 | A suspension is found exactly when the session is suspended, with that turn and step. |
| `SessionSuspension.SuspensionReported` | plugins/ai-chat-native/src/runtime.ts:574-662 | On every accepted history `readOwnedSuspension` reports null exactly outside a suspension, finds every call and approval of one, and throws exactly when it names no call; then every approval of it was requested for a call that already had its result. |
| `SessionSuspension.OwnerMayResume` | plugins/ai-chat-native/src/runtime.ts:614-662 | The reported owner is the suspended turn and step under a request of it, and `readyToResume` holds exactly when the guard accepts the `turn/resume`. |
| `SessionPending.ReportIsTheWaiting` | plugins/ai-chat-native/src/runtime.ts:574-662 | For every accepted history, on events: nothing is reported exactly when no suspension is the last word; otherwise the owner is the handle of the first suspended call, the pending calls are exactly the suspended ones without a result and without a decided request, the pending approvals exactly the undecided ones, both in the order of the suspension and without duplicates. |
| `SessionSuspension.SuspensionReadBack` | plugins/ai-chat-native/src/runtime.ts:1443-1476 | A suspension just written can be read back exactly when it was given a call. |
| `SessionSuspension.InTimeReadable` | plugins/ai-chat-native/src/runtime.ts:574-662 | When no approval was requested for a call that already had its result, every suspension names the call of each of its approvals and can be read back. |
| `SessionSuspension.LateApprovalUnreadable` | plugins/session-base/src/invariants.ts:347-360 | In any open step without open calls, an approval requested after the result of its call lets the guard accept a suspension without calls, which then cannot be read. |
| `SessionSuspension.UnreadableSuspension` | plugins/session-base/src/invariants.ts:347-360 | The concrete history of that kind, on the first turn of a session. |
| `SessionSuspension.ChosenRequestLands` | plugins/ai-chat-native/src/runtime.ts:1365-1380 | A suspended session never falls through to a new turn and is resumed at its own turn and step; the request chosen lands on the history it was chosen for exactly when the session is idle or suspended and the request id new. |
| `SessionSuspension.OnlyLegalRequest` | plugins/ai-chat-native/src/runtime.ts:1360-1380 | Any begin or resume the history would accept is the one chosen, up to the request id, unless the suspension cannot be read. |
| `SessionSuspension.PausedLeavesByResume` | plugins/ai-chat-native/src/runtime.ts:1300-1324 | A suspension ends by the resume of its own turn and step and by nothing else. |
| `SessionSuspension.ReadyStays` | plugins/ai-chat-native/src/runtime.ts:614-658 | On every accepted history a suspension once ready stays ready, and the same, until its turn resumes. |
| `SessionSuspension.LandedLeaves` | plugins/ai-chat-native/src/runtime.ts:1245-1480 | The handle a builder returns names the step its batch left open; a suspension leaves it paused, other closers leave the session idle. |
| `SessionSuspension.TurnsEndWhole` | plugins/ai-chat-native/src/runtime.ts:1122-1429 | On every run each end of a turn stands right behind the end of its step, for the same reason; a completed turn behind a message that was not aborted, a provider error behind its failure. |
| `Session.NextTurnAndStep` | plugins/ai-chat-native/src/runtime.ts:1057-1067 | The loop finds the number after the largest turn and step. |
| `Session.FindSuspended` | plugins/ai-chat-native/src/runtime.ts:575-579 | The loop finds the last suspension that nothing ended. |
| `Session.Project` | plugins/ai-chat-native/src/runtime.ts:589-600 | The sets of resolved calls and decided approvals, and the latest approval of each call. |
| `Session.ChatSession.Enqueue` | plugins/ai-chat-native/src/runtime.ts:261-270 | Link: the operation joins the queue of the session. |
| `Session.ChatSession.AppendNext` | plugins/ai-chat-native/src/runtime.ts:1245-1358 | Link: the history takes the whole batch exactly when the guard accepts the history with it, and refuses it as a whole otherwise. |
| `Session.ChatSession.CheckClosed` | plugins/ai-chat-native/src/runtime.ts:1101-1120 | Link: a refused closer reports already closed exactly when the log holds the end of its step or turn. |
| `Session.ChatSession.SettleProviderEnd` | plugins/ai-chat-native/src/runtime.ts:1431-1480 | Link: suspends when calls or approvals wait, completes otherwise, refuses a response without an id. |
| `Session.ChatSession.ReadOwnedSuspension` | plugins/ai-chat-native/src/runtime.ts:551-662 | The loops compute the reported suspension and its error cases; on an accepted history its lists and owner are those the events tell. |
| `ClosureSafety.GateOnEveryRun` | plugins/ai-chat-native/src/chatRuntime.ts:666-768 | A turn is registered exactly until its closure or a repair of it succeeded, its work runs at most once, repairs of a session never overlap each other or a closing work, and a call that returned normally saw its turn leave the gate. |
| `ClosureSafety.OpensIffAllOver` | plugins/ai-chat-native/src/chatRuntime.ts:735-750 | `open` goes through exactly when every earlier turn of the session is over. |
| `ClosureSafety.FailureBlocksForever` | plugins/ai-chat-native/src/chatRuntime.ts:681-701 | Without `recover` a failed closure stays registered and refuses every later open, whatever is called. |
| `ClosureSafety.StepKeepsInv` | plugins/ai-chat-native/src/chatRuntime.ts:666-768 | Every call and continuation of the gate keeps its invariant. |
| `ClosureOrigins.EveryCallAnswered` | plugins/ai-chat-native/src/chatRuntime.ts:666-768 | The fate of every call on every run: it waits until the closing of its turn settles, unless the session had no turn or Stop no handler; woken by a closing that succeeded it returns; woken by one that failed it throws if it is a `close` or there is no `recover`, and otherwise returns or throws as a repair of that turn succeeded or broke. |
| `ClosureOrigins.CallsFindTheirTurn` | plugins/ai-chat-native/src/chatRuntime.ts:702-734 | `beforeOpen` and Stop find the one turn of the session that is not over, or none; without one they return at once, with one they wait for its closing, except a Stop that finds neither a closing nor a handler, which throws. |
| `ClosureOrigins.JoinersShareTheRepair` | plugins/ai-chat-native/src/chatRuntime.ts:681-701 | Whoever is woken by a failed closure waits for the repair its turn holds, a second is started only when it holds none, and the caller returns exactly when that very repair succeeded. |
| `ClosureOrigins.WorkIsAskedFor` | plugins/ai-chat-native/src/chatRuntime.ts:711-764 | A closing work is started only by `close` of its turn or by a Stop of its session with a handler, `close` always finds it started, and it counts as settled exactly as it settled. |
| `Closure.SessionTurnClosureGate.Open` | plugins/ai-chat-native/src/chatRuntime.ts:735-750 | Link: registers a turn or refuses while one is registered. |
| `Closure.SessionTurnClosureGate.Stop` | plugins/ai-chat-native/src/chatRuntime.ts:711-734 | Link: starts the Stop work unless a closing exists, and refuses a turn opened without one. |
| `Closure.SessionTurnClosureGate.Close` | plugins/ai-chat-native/src/chatRuntime.ts:751-764 | Link: uses its work only when nothing closes the turn yet. |
| `Closure.SessionTurnClosureGate.WakeClosing` | plugins/ai-chat-native/src/chatRuntime.ts:681-734 | Link: after a failed closure the caller joins the running repair, starts one, or throws without `recover`. |
| `Retry.ExecuteInferenceWithRetry` | plugins/ai-chat-native/src/requestRetry.ts:162-243 | The loop ends in the first attempt that is not retried, within the bound, with the outcome and the log of that attempt. |
| `Retry.RetryLogGrammar` | plugins/ai-chat-native/src/requestRetry.ts:180-243 | The log of a finished request reads by the grammar: attempts from 1 in order, each retry one failure and one schedule; a schedule stays unanswered exactly when the append of its answer failed. |
| `Retry.SchedulesAnswered` | plugins/ai-chat-native/src/requestRetry.ts:191-241 | Every scheduled retry is followed by its own start or a final cancellation, unless it ends the log. |
| `Retry.AnswersScheduled` | plugins/ai-chat-native/src/requestRetry.ts:191-241 | Every start or cancellation answers the schedule and failure right before it. |
| `Retry.BackoffBounded` | plugins/ai-chat-native/src/requestRetry.ts:174-193 | At most `maxAttempts` attempts, and all delays together at most (maxAttempts - 1) times the delay bound. |
| `Retry.DelayInRange` | plugins/ai-chat-native/src/requestRetry.ts:104-125 | Every delay lies between 0 and the bound, whatever the failure asks for. |
| `Retry.HintFollowed` | plugins/ai-chat-native/src/requestRetry.ts:104-125 | A usable hint, the failure's own before the header, is followed to the millisecond unless it exceeds the bound, which then is the delay. |
| `Retry.DelayDoubles` | plugins/ai-chat-native/src/requestRetry.ts:104-125 | Without a usable hint delays start at 250 ms and double up to the bound. |
| `Retry.PumpAttempt` | plugins/ai-chat-native/src/requestRetry.ts:285-323 | The read loop emits what the attempt may show and ends as the attempt does. |
| `Retry.VisibleIsOneAttempt` | plugins/ai-chat-native/src/requestRetry.ts:250-329 | The visible stream is a prefix of the last attempt's stream alone and all of it on success; discarded attempts showed nothing. |
| `Retry.ExposedIsFinal` | plugins/ai-chat-native/src/requestRetry.ts:309-318 | An attempt that showed something is never retried. |
| `RetryCauses.EndsForAReason` | plugins/ai-chat-native/src/requestRetry.ts:68-87 | Every attempt before the last failed transiently (status 408, 409, 425, 429 or at least 500, or without a status one of five connection codes), with nothing shown and nobody aborting; the last one succeeded, may not be retried, or could not be logged, waited for or started, and the outcome says which. |
| `RetryCauses.LogAnnounces` | plugins/ai-chat-native/src/requestRetry.ts:180-241 | Every event of the retry log carries the id, attempt, delay and reason of the attempt it is about. |
| `RetryCauses.AttemptShows` | plugins/ai-chat-native/src/requestRetry.ts:285-323 | An attempt whose first real part is no error shows all its parts and a later break may not be retried; one whose first real part is an error shows nothing and fails with it; a prelude alone is shown only if nothing broke. |
| `ReplaySafety.PlanUndoesRecorder` | plugins/ai-inference-replay-native/src/replay.ts:651-731 | A plan exists exactly for plannable outputs, is well bracketed, and recording it gives the outputs back in order with missing ids and deltas filled in; it is the recorded outputs exactly when every chunk has a non-empty id and a delta. |
| `ReplaySafety.ReplayOfRecording` | plugins/ai-chat-native/src/chatRuntime.ts:919-936 | Replaying what was recorded of any bracketed stream with named blocks succeeds and records the same again. |
| `ReplaySafety.PlanFromBracketed` | plugins/ai-inference-replay-native/src/replay.ts:665-715 | From any open blocks the rest of the plan closes each once before a tool part or the finish and has no delta outside its block. |
| `ReplaySafety.PlansIffPlannable` | plugins/ai-inference-replay-native/src/replay.ts:690-713 | From any point the compiler succeeds exactly when no chunk is unsupported and no id changes family between tool outputs. |
| `ReplaySafety.ReopensAfterTool` | plugins/ai-inference-replay-native/src/replay.ts:671-685 | A tool output between two chunks of one id closes the block and opens it again. |
| `ReplaySafety.ReplayKnowsInputs` | plugins/ai-inference-replay-native/src/replay.ts:662-695 | A replayed result carries the input of the last recorded call of its id, wherever that stands, and none exactly when there is none; the stream ends with the finish reason of the request. |
| `ReplaySafety.ReplayFillsIn` | plugins/ai-inference-replay-native/src/replay.ts:690-713 | Recording the replay gives each tool output as it was, and each chunk under its own id, or under its kind and the request where it had none, with its delta or an empty one. |
| `Replay.StreamPlan` | plugins/ai-inference-replay-native/src/replay.ts:651-731 | The loops compute the plan and its errors. |
| `Replay.DeriveRequest` | plugins/ai-inference-replay-native/src/replay.ts:514-594 | The loop computes the outputs and finish reason of a request. |
| `Replay.DeriveUndoesLogging` | plugins/ai-inference-replay-native/src/replay.ts:524-581 | However the events of other requests are interleaved, deriving a request gives its outputs back in order, and their plan replays them. |
| `JsonPointer.PointerReachesNode` | plugins/ai-inference-replay-native/src/replay.ts:311-327 | Evaluating the pointer printed for a node's path reaches the node exactly when the path is not empty. |
| `JsonPointer.UnescapeEscape` | plugins/ai-inference-replay-native/src/fixtureWorkflow.ts:73-76 | Unescaping undoes escaping for every string. |
| `JsonPointer.IndexRoundTrip` | plugins/ai-inference-replay-native/src/replay.ts:315-319 | The decimal form of an array index is accepted and read back. |
| `JsonPointer.EmptyPointer` | plugins/ai-inference-replay-native/src/replay.ts:311-327 | The empty pointer yields the value of the key "" of the root, or nothing. |
| `JsonPointer.PointerFindsNodes` | plugins/ai-inference-replay-native/src/replay.ts:311-327 | A pointer string evaluates to a value exactly when its unescaped tokens spell the path of a node, keys by name and indexes in plain decimal form, and then to that node. |
| `SanitizeSafety.ReviewResolves` | plugins/ai-inference-replay-native/src/fixtureWorkflow.ts:103-123 | Every path of the review evaluates on the sanitized fixture to the value that replaced the reviewed one. |
| `SanitizeSafety.UnreviewedUnchanged` | plugins/ai-inference-replay-native/src/fixtureWorkflow.ts:103-123 | A node that no entry names, contains or lies within is the node of the original. |
| `SanitizeComplete.SanitizedEverywhere` | plugins/ai-inference-replay-native/src/fixtureWorkflow.ts:78-123 | Node by node: a field with a credential name and a value becomes the mark as a whole, every other string goes through all patterns in order, containers keep their shape, the rest is unchanged; and the review lists exactly those fields and the strings each pattern hit. |
| `Sanitize.FixtureSanitizer.ReplaceString` | plugins/ai-inference-replay-native/src/fixtureWorkflow.ts:78-101 | Each pattern is applied to what the ones before it left, with one entry for each that matched. |
| `Sanitize.FixtureSanitizer.SanitizeValue` | plugins/ai-inference-replay-native/src/fixtureWorkflow.ts:103-123 | The recursion with its shared list gives the sanitized value and its entries in order. |
| `Placeholders.MaterializeRefinesFill` | plugins/ai-inference-replay-native/src/replay.ts:329-351 | Filling with memoised bindings is plain substitution under the final bindings; earlier bindings are kept, new ones hold the live value, and it fails exactly when an unbound placeholder points at nothing. |
| `Placeholders.PlaceholderRoundTrip` | plugins/ai-inference-replay-native/src/replay.ts:309-351 | A placeholder written for a node is filled with the node exactly when its pointer holds no line break, and is left as text otherwise. |
| `Placeholders.ReplayBindings.MaterializePlaceholders` | plugins/ai-inference-replay-native/src/replay.ts:329-351 | The recursion over the shared bindings; a failed call leaves only right bindings behind. |
| `SchemaSafety.ValidateIffAccepts` | plugins/ai-registry-native/src/jsonSchema.ts:12-106 | The validator reports no issue exactly for the values the schema accepts. |
| `SchemaFaults.ReportIsTheFaults` | plugins/ai-registry-native/src/jsonSchema.ts:12-106 | The report names exactly the faults of the nodes the schema governs: an issue stands at the path of a node whose choice, value, type or bound is wrong, or at the key an object lacks or may not have, and no fault of a node that is looked into is left out. |
| `UiAgreement.ShowUiAgrees` | plugins/ai-tools-ui-native/src/presentation.ts:290-294 | Every `show_ui` input that passes validation is parsed, and the parsed input is the input. |
| `UiAgreement.AskUiAgrees` | plugins/ai-tools-ui-native/src/presentation.ts:296-311 | Every `ask_ui` input that passes validation is parsed, no action is dropped, and the parsed input is the input with the `selectable` flag filled in. |
| `UiConverse.ShowUiAcceptedIffUnchanged` | plugins/ai-registry-native/src/jsonSchema.ts:12-106 | Validation accepts exactly the `show_ui` inputs whose severities and variants are not wrapped in lists and that the parser passes through unchanged. |
| `UiConverse.AskUiAcceptedIffUnchanged` | plugins/ai-tools-ui-native/src/presentation.ts:296-311 | Likewise for `ask_ui`: unchanged but for `selectable`, at most five actions, and a `selectable` that is a flag if present. |
| `UiConverse.ViewAcceptedIffUnchanged` | plugins/ai-tools-ui-native/src/schema.ts:17-212 | Likewise for views of all seven kinds, against the schema constants. |
| `UiConverse.ItemFits` | plugins/ai-tools-ui-native/src/schema.ts:6-208 | An item a parser passes through unchanged is accepted by the schema of its kind. |
| `UiConverse.AcceptedUnwrapped` | plugins/ai-registry-native/src/jsonSchema.ts:12-106 | Whatever a closed schema accepts, in which the properties for severities and variants take no lists, has them unwrapped at every depth. |
| `UiAgreement.ViewAgrees` | plugins/ai-tools-ui-native/src/presentation.ts:256-269 | A view of any of the seven kinds that the schema accepts parses to itself. |
| `UiAgreement.TableAgrees` | plugins/ai-tools-ui-native/src/presentation.ts:53-85 | Every accepted table parses to itself, columns and rows included. |
| `UiAgreement.ChartAgrees` | plugins/ai-tools-ui-native/src/presentation.ts:87-129 | Every accepted chart parses to itself, with its nested series and points. |
| `UiAgreement.DiffAgrees` | plugins/ai-tools-ui-native/src/presentation.ts:131-147 | Every accepted diff parses to itself. |
| `UiAgreement.FindingsAgree` | plugins/ai-tools-ui-native/src/presentation.ts:149-171 | Every accepted list of findings parses to itself. |
| `UiAgreement.TreeAgrees` | plugins/ai-tools-ui-native/src/presentation.ts:173-199 | Every accepted tree parses to itself; the integer depths agree. |
| `UiAgreement.MetricsAgree` | plugins/ai-tools-ui-native/src/presentation.ts:201-228 | Every accepted list of metrics parses to itself. |
| `UiAgreement.CardsAgree` | plugins/ai-tools-ui-native/src/presentation.ts:230-254 | Every accepted list of cards parses to itself. |
| `UiAgreement.FileRefAgrees` | plugins/ai-tools-ui-native/src/presentation.ts:26-42 | Every accepted file reference parses to itself; the positive integers agree. |
| `UiAgreement.ActionAgrees` | plugins/ai-tools-ui-native/src/presentation.ts:271-288 | Every accepted action parses to itself. |
| `UiAgreement.ParsersIgnoreUnknownFields` | plugins/ai-tools-ui-native/src/schema.ts:98-110 | The parsers take what the schema refuses: a field it does not know. |
| `UiAgreement.ParsersUnwrapSeverities` | plugins/ai-tools-ui-native/src/presentation.ts:155-161 | The parsers take a severity wrapped in a list, which `String` unwraps. |
| `Ui.ParseList` | plugins/ai-tools-ui-native/src/presentation.ts:58-69 | The item loop stops at the first item that does not parse. |
| `Ui.TableView` | plugins/ai-tools-ui-native/src/presentation.ts:53-85 | The table parser with its two loops. |
| `Ui.ParseActions` | plugins/ai-tools-ui-native/src/presentation.ts:300-302 | Actions that do not parse are dropped, none of a validated list. |
| `Paging.ReadAllSessionEvents` | plugins/ai-chat-native/src/runtime.ts:499-515 | Forward paging gives exactly the history the first read found, or an error when a page has another revision. |
| `Paging.ReadCompleteSession` | plugins/ai-context-artifacts-native/src/artifacts.ts:115-138 | The same, and it also ends with an error on a page that does not advance. |
| `Paging.ReadDurableEvents` | plugins/ai-registry-native/src/executor.ts:263-283 | Backward paging with dedupe and sort gives exactly the history the first read found, even while it grows. |
| `LineReader.ReadLineRange` | plugins/coding-agent-native/src/lineReader.ts:3-24 | For every chunking the lines and offset are those of the whole bytes. |
| `LineReader.LinesAreExact` | plugins/coding-agent-native/src/lineReader.ts:14-22 | The lines are exactly the newline-terminated ones and the offset is just past the last newline. |
| `LineReader.LinesAreUnique` | plugins/coding-agent-native/src/lineReader.ts:14-22 | Lines without newlines and a rest without one are read back from the bytes they make. |
| `LineReader.ReadAppendResume` | plugins/coding-agent-native/src/lineReader.ts:3-24 | Reading, appending and reading on from the offset gives the lines of one full read. |
| `LineReader.Resumes` | plugins/coding-agent-native/src/lineReader.ts:12-22 | Reading may stop after any bytes and go on with the unparsed rest. |
| `Edits.EditTool.Edit` | plugins/ai-tools-files-native/src/tools.ts:357-389 | A failing edit changes nothing; a success writes or proposes the edited text and reports its replacements. |
| `Edits.CountOccurrences` | plugins/ai-tools-files-native/src/tools.ts:373-375 | The search loop counts the separators of the split. |
| `Edits.ApplyAll` | plugins/ai-tools-files-native/src/tools.ts:370-380 | The edit loop applies the edits in order and stops at the first that fails. |
| `EditSafety.EditsAreFold` | plugins/ai-tools-files-native/src/tools.ts:370-380 | Successful edits are the fold of leftmost, non-overlapping literal replacements, with the number of occurrences as replacements and the length growing by the length law. |
| `EditSafety.SplitJoinReplaces` | plugins/ai-tools-files-native/src/tools.ts:378 | Split and join replaces all leftmost, non-overlapping occurrences. |
| `EditSafety.LengthLaw` | plugins/ai-tools-files-native/src/tools.ts:373-378 | The length changes by the count times the difference of the strings. |
| `EditSafety.LiteralIffNoPattern` | plugins/ai-tools-files-native/src/tools.ts:378 | A replacement is literal in every file exactly when its text holds no `$` pattern. |
| `EditSafety.OnceIsAll` | plugins/ai-tools-files-native/src/tools.ts:376-378 | Replacing a unique occurrence once replaces all occurrences. |
| `EditSafety.UniqueIffBorderless` | plugins/ai-tools-files-native/src/tools.ts:373-377 | A count of one means a unique occurrence, in every text, exactly when no proper suffix of the pattern is a prefix of it. |
| `EditSafety.SingleEditIsUnique` | plugins/ai-tools-files-native/src/tools.ts:370-378 | A single edit touches the only occurrence of its old text in every file it succeeds on exactly when that text does not overlap itself. |
| `EditSafety.OverlapPassesAsUnique` | plugins/ai-tools-files-native/src/tools.ts:373-377 | A pattern that overlaps itself occurs twice in a text where the check counts one. |

## Left out

- Of the rules of `@termco/session-base` those for compactions and subagents, whose events are independent of all others and not among the events here; the invariant companions of plugins; sequence numbers, which are positions; and the repair of an open tail.
- The log of the executor model is not guarded: its theorems hold for every history with atomic appends, and an append the guard refuses is one that fails; `OnlyDurableIdentityRuns` is about the runs in which a second call event is refused.
- Torn writes: an append lands as a whole or not at all, and one executor at a time writes a session's calls.
- Rejections with `undefined` outside the scheduler: the executor theorems other than those of `ExecutorOrigins` are about runs in which no promise rejects with `undefined`.
- Entries, records and turn states are values found by index in a sequence the class owns; aliasing of the source's objects is not captured.
- Callbacks that throw before they return a promise, and calls back into an object while one of its methods runs.
- `executeStandalone`, tool bodies, their timeout and input validation inside the body: a body is a step that finishes or fails at any time.
- Call and terminal signatures: equality of identities and terminal results stands for equality of their canonical JSON.
- Ids from `crypto.randomUUID` and times from `Date.now` are parameters or left out; payloads of events that no rule depends on are opaque strings or left out.
- `maxSafeConcurrency` and `maxAttempts` that are NaN or infinite; with such a `maxAttempts` the retry loop has no bound.
- Paging.ReadAllSessionEvents: pages are assumed non-empty while events remain, because the source would ask for the same page forever otherwise.
- Retry.BackoffBounded: delays are exact reals before rounding down, and the overflow of doubles to infinity is not modelled.
- The retry log is that of the request given to the loop; the request failure that `failChatTurn` writes pairs its attempt with the step active at that moment and is a builder batch here.
- Credential and path patterns are arbitrary test and replace functions; no claim is made about what they find.
- Prototype keys of JavaScript objects, surrogate pairs, and corner cases of `JSON.stringify`: objects are finite lists of fields, strings are sequences of characters.
- UTF-8 decoding of lines, and the hash of the read cache after an edit.
- Aborts of the replayed stream, step results, overrides, lineage bindings and auxiliary scripts of the replay adapter.
- The capability index and the loaded set of tool disclosure: short loops over an opaque score, correct by inspection.
- Provider SDKs, HTTP, credentials, speech, browser control, MCP clients, file system and storage, views and plugin wiring.
