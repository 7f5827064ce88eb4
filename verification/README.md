# A durable agent runtime, modelled and proved

The repository runs an agent loop that survives crashes. `run` alternates model attempts,
retries and tool calls and writes a checkpoint before every external callback. Any worker
may die at any point, with or without giving up its lease; another worker resumes from the
stored record; a write that reported an error may still land later. Leases expire and are
protected by fencing tokens that only grow.

The project models these parts together.

* `Domain`, `Checkpoints`: statuses, checkpoints, the validator and the logical revision.
  The validators and the revision are loops, each proved equal to its specification; the
  specification is proved equal to a closed form of the transition history.
* `RunMachine`, `RunInvariant`: `run` as a step machine. `Demand` is the interaction a
  state waits for, `Advance` what the loop does with the answer. Every answer (write
  acknowledged or failed, context live or ended, model reply, tool reply, wait elapsed) is
  arbitrary. `Sound` ties memory to the last acknowledged checkpoint; `Successor` lists the
  writes that may follow one.
* `RunTable`, `RecoveryTable`: what the loop and `Resume` do with each answer, written out
  field by field and sentinel by sentinel, independently of how the machine is built.
* `Transcript`: over whole runs, the recorded steps and the returned output are exactly the
  answers of the model and the tools.
* `Recovery`, `ErrorText`: `Resume`, reconciliation, replay and completion of a pending
  tool call, joined with `run` into one process; what it writes and what it returns.
* `Crash`, `CrashScripts`, `LostAttempts`: crash and resume against the run without
  crashes, for whole scripts of answers and crashes of every kind.
* `Cancellation`, `CallbackTimeout`: what a cancelled context and callback deadlines do to
  whole runs.
* `LeaseStore`, `SqliteStore`, `LeaseTiming`: the store operations as functions on what one
  execution has in a store, the two store classes proved against them, the refinement of
  the in-memory store by the SQLite rows, exclusivity in time and the renewal loop.
* `Fleet`, `FleetProof`, `FleetTheorems`: any number of workers on one execution, in any
  interleaving, at any clock readings. A write is sent, may land in the store at any later
  time (also after its worker saw an error, lost its lease or died), and may be acknowledged
  once it has landed. The inductive invariant and what it means for a whole life.
* `Events`, `Runtime`: the loop and `Resume` again, as the imperative code over mutable
  variables that the source is. The class `Environment` refuses any interaction that the
  machine does not wait for, so the proofs of `Runtime` say that the code makes exactly the
  machine's interactions in its order, emits its events and returns its result.
* `Trace`, `TraceDiff`, `TraceOfRun`: recorder, inspector, comparison, and the whole
  pipeline from run to inspected trace.

Two conventions. An error is the set of sentinels it wraps, the provider HTTP status in it
and its text. A store write, a context reading and a callback are single atomic steps.

Two properties the code does not have, each with a concrete input and its exact condition.

* For valid UTF-8 strings, every write passes the validator except one: when the context is
  ended with a cause whose text is empty, the terminal checkpoint has an empty error text.
  `ErrorText.EmptyCauseIsRejected` is an instance, `ErrorText.TextIsMissingOnlyFromCauses`
  the condition, and every statement about valid writes is an equivalence with it.
* A run that loses `k` attempts to crashes is not always the crash-free run on a budget
  smaller by `k`: a retry may be granted on iterations that are all lost afterwards, so that
  the run ends at the step limit where the smaller budget would have failed with the model's
  error. `LostAttempts.RetriesCanBeUnaffordable` is an instance; the two agree if and only if
  the script is `Affordable` (`LostAttempts.AllCrashesRefineTheRun`).

Where documentation and code differ the code is followed: `README.md:36` lists
reconciliation as the only way past a pending tool and `README.md:43` says that replay is
not included, while `tool_replay.go:26-48` replays idempotent executors; the comment at
`execution_lease.go:21` says that leases are not renewed, while
`execution_lease_renewal.go:32-88` renews them.

## Model

| member | source | states |
|---|---|---|
| Domain.TransitionTable | runtime.go:55-66 | the eight legal transitions; exactly the terminal statuses have none |
| Checkpoints.CheckpointRevision | checkpoint.go:97-110 | the counting loop computes one plus attempts, retries, tool starts, tool completions and terminal flag |
| Checkpoints.ValidateSteps | recovery.go:82-91 | accepts exactly consecutively numbered steps with valid calls, matching results and distinct identifiers, and returns their identifiers |
| Checkpoints.ValidateRecoveryState | recovery.go:76-147 | accepts exactly the recoverable states; the last-transition lookup is in bounds |
| Checkpoints.ReplayTransitions | file_store.go:181-187 | the replay accepts exactly the legal histories and returns their last status |
| Checkpoints.ValidateCheckpoint | file_store.go:165-198 | accepts exactly the valid checkpoints |
| Checkpoints.LegalHistoryShape | runtime.go:55-66 | any legal transition history is determined by its end, its number of completed tools and how it entered the end |
| Checkpoints.ValidIffCanonical | file_store.go:165-198 | from schema 2 on, valid means exactly every check written out, and the one history that status, number of steps and pending flag determine |
| Checkpoints.ValidVersionOne | file_store.go:165-198 | for schema 1, exactly the checks on identity, budgets and revision, and a legal history up to the status |
| Checkpoints.ClosedForm | checkpoint.go:92-110 | of a valid record: the history, and revision = 1 + iterations + retries + 2·steps + pending + terminal; a terminal one has a last transition |
| RunInvariant.SuccessorIsValid | checkpoint.go:92-110 | every kind of write over a valid record gives a valid one, unless terminal error text is missing, and raises the revision by exactly one |
| RunInvariant.SuccessorExtends | runtime.go:232-257 | each write extends the previous checkpoint: steps and transitions are prefixes, request and budgets constant, recorded call identifiers kept |
| RunInvariant.CreatedIsValid | runtime.go:208-217 | the first checkpoint is valid and has revision one |
| RunInvariant.LaunchIsSound | runtime.go:222-230 | a run entered from a stored record holds exactly that record |
| RunInvariant.AdvanceKeepsSound | runtime.go:300-455 | after every step and every answer, memory is what the last acknowledged checkpoint says, or a legal successor is about to be written |
| RunTable.FirstWriteTable | runtime.go:208-217 | the first record `Run` stores, field by field |
| RunTable.EndedContextTable | runtime.go:301-304 | wherever the loop looks, an ended context stores Cancelled with the cause's text and returns the cause |
| RunTable.LoopHeadTable | runtime.go:300-311 | a live context reserves the next attempt while the budget lasts, else fails with the step limit sentinel |
| RunTable.CallbackTable | runtime.go:312-326 | the model is called on the stored prompt and steps, `Execute` on the stored pending call, and their answers are taken as they are |
| RunTable.DecisionTable | runtime.go:363-391 | a final decision stores Completed with the model's output; a new call is announced exactly as given; invalid, duplicate and unserved decisions fail with their own sentinel |
| RunTable.ModelErrorTable | model_retry.go:35-61 | a retry exactly while both budgets last and for timeouts, the six HTTP statuses and bare provider errors, never for cancellations; otherwise a failure that keeps the error's sentinels |
| RunTable.ToolAnswerTable | runtime.go:418-446 | an output becomes the next step of exactly the pending call; an error fails the run with the call still pending |
| RunTable.AcknowledgedTable | runtime.go:251-257 | after an acknowledged write the saved result is the stored one, and what comes next for each kind of write |
| RunTable.WriteFailedTable | runtime.go:286-292 | after a failed write the last acknowledged result is returned with the store's sentinels and those of the outcome that could not be stored |
| Transcript.AnswersAreRecorded | runtime.go:323-446 | over whole runs: the steps are the model's calls with the tools' outputs in order, the callbacks get exactly these, and a Completed result has the output of the model's last, final answer |
| Transcript.FollowsStep | runtime.go:300-455 | one answer adds exactly what it says |
| RecoveryTable.ResumeTable | recovery.go:46-71 | every outcome of `Resume` on a valid record and exactly when it comes: success, terminated, unsupported, run, reconciliation, replay, unknown outcome |
| RecoveryTable.RejectionTable | recovery.go:46-51 | an invalid record or one of another execution returns only the error |
| RecoveryTable.LoadErrorTable | recovery.go:39-45 | a record that cannot be loaded: an ended context first, else a store error that keeps the cause's sentinels |
| RecoveryTable.AskTable | tool_reconciliation.go:43-48 | reconciliation and replay are asked about exactly the pending call |
| RecoveryTable.OutcomeTable | tool_reconciliation.go:48-67 | for every context and outcome: the record with the pending call completed by that output, replay, or a refusal with its own sentinels |
| RecoveryTable.ReplayTable | tool_replay.go:37-47 | for every context and replay answer: the record with the pending call completed by that output, or a refusal with its own sentinels |
| RecoveryTable.CompletionTable | tool_replay.go:56-74 | the completed record, once stored, is what the run goes on from; else the loaded result with a store error |
| RecoveryTable.RunInProcessTable | recovery.go:71 | the run inside `Resume` is the run, and what it returns is returned |
| RunMachine.ConstantsKept | runtime.go:222-257 | request, budgets and tools never change in a run |
| Recovery.AfterLoadIsSound | recovery.go:46-71 | `Resume` goes on only from a valid, resumable record of the right execution, and then holds it |
| Recovery.RecoveryHoldsRecord | tool_reconciliation.go:37-67 | reconciliation and replay that restore nothing keep the loaded record or return its result with an error |
| Recovery.ProceedKeepsSound | recovery.go:39-71 | the invariant over whole processes, loading and recovery included |
| Recovery.EveryWriteIsValid | file_store.go:165-198 | every checkpoint from `Run`, `Resume`, reconciliation or replay passes the validator exactly when its terminal error text is present, and carries the next revision |
| Recovery.ReturnedIsLastAcknowledged | runtime.go:282-293 | every step that returns yields the result of the last acknowledged or loaded checkpoint, and a write error ends the process with a store error; `ReturnsAreDurable` below is the same over whole lives |
| Recovery.ReplaySettles | tool_replay.go:26-48 | what replay comes to, for every capability, context and answer |
| Recovery.ReconcileSettles | tool_reconciliation.go:37-67 | what reconciliation comes to, for every context and answer |
| Recovery.RecoveredRestoresRecord | tool_replay.go:50-75 | recovery restores the record it loaded, under a live context, or stops |
| ErrorText.TextIsMissingOnlyFromCauses | runtime.go:248-250 | a terminal write lacks its error text exactly when the context was ended with an empty text |
| ErrorText.EmptyCauseIsRejected | recovery.go:131-134 | a run whose terminal write is invalid |
| Crash.QuietCrashIsInvisible | runtime.go:222-230 | resuming after a creation, retry or completion save is the same as going on |
| Crash.ToolCrashIsInvisible | tool_replay.go:50-75 | a crash in a tool, or after its answer and before the completion save, that recovery answers, by proof or by replay, continues through the same checkpoint as the tool's own answer |
| CrashScripts.CrashesRefineTheRun | recovery.go:24-72 | for every script with any number of crashes, the script without the quiet ones and those in tools reaches the same process and stored checkpoint through the same writes and callbacks |
| CrashScripts.LostAttemptIsACrash | runtime.go:306-311 | resuming anywhere after an acknowledged reservation, up to the next acknowledged write, is the loop head with that iteration lost |
| LostAttempts.LossesAreShifts | runtime.go:300-358 | a script with lost attempts and its answers alone on the smaller budget stay alike to the end exactly when every retry is affordable |
| LostAttempts.AllCrashesRefineTheRun | recovery.go:24-72 | any script mixing all crash kinds, with `k` attempts lost, comes to what its answers alone come to on a budget smaller by `k`, up to that shift, if and only if it is affordable |
| LostAttempts.RetriesCanBeUnaffordable | model_retry.go:57-61 | a retry granted and then lost, where the smaller budget fails instead |
| Crash.AdvanceShifts | runtime.go:300-311 | the loop depends on iterations only through their distance to the budget |
| Crash.RunShifts | runtime.go:300-455 | the same over whole runs: same answers, same outcome |
| Crash.ReservationCrashCostsOneIteration | runtime.go:306-311 | a crash between reservation and use of the model answer costs exactly one iteration, for every continuation; without budget it stops at the step limit |
| Cancellation.NoCallbackAfterCancellation | runtime.go:301-315 | once the context has ended no callback ever starts |
| Cancellation.CancellationWins | runtime.go:335-362 | a run cancelled between writes, also at budget exhaustion, adds no step and no output; unless a write fails it returns exactly the last acknowledged result moved to Cancelled, with the cause; if the write fails, the last acknowledged result with cause and store error |
| Cancellation.CancelledRecoveryWritesNothing | tool_reconciliation.go:48-51 | cancellation during reconciliation or replay never asks for a write and returns the loaded result |
| CallbackTimeout.WrappingPreservesRecovery | callback_timeout.go:95-128 | for all inner capabilities and answers, recovery wrapped equals recovery unwrapped while no deadline or cancellation fires |
| CallbackTimeout.LateReplayIsRejected | callback_timeout.go:105-117 | after the deadline a call is completed exactly by a proved outcome, never by the replay |
| CallbackTimeout.LateDecisionIsRetried | callback_timeout.go:68-80 | a late model answer becomes a retry exactly while both budgets last, otherwise a failure, never a step |
| CallbackTimeout.TimedAnswersTable | callback_timeout.go:105-117 | answers in time pass unchanged, late ones are timeouts of their own kind, and an ended execution comes first |
| CallbackTimeout.WrappedAnswersTable | callback_timeout.go:95-128 | what the wrapper answers for each inner capability |
| LeaseStore.AcquireTable | memory_lease_store.go:48-60 | busy exactly under an unexpired lease; otherwise the next token until one duration from now |
| LeaseStore.RenewTable | memory_lease_store.go:94-103 | a renewal extends exactly a lease in force under this token, to one duration from now |
| LeaseStore.WriteTable | memory_lease_store.go:147-180 | when a write is accepted, and why it is refused otherwise, in the order of the checks |
| LeaseStore.IntervalIsAThird | memory_lease_store.go:78-84 | the renewal interval is a third of the lease rounded down, unless that is nothing |
| LeaseStore.TokensGrow | memory_lease_store.go:48-60 | a grant carries a token above all earlier ones; anything else changes nothing |
| LeaseStore.Fencing | memory_lease_store.go:147-180 | only the newest token publishes; renewal or release by any other token changes nothing |
| LeaseStore.MemoryLeaseStore.constructor | memory_lease_store.go:27-38 | every execution starts without record, lease and token |
| LeaseStore.MemoryLeaseStore.AcquireExecutionLease | memory_lease_store.go:40-74 | the three maps change as the slot function says, for this execution only |
| LeaseStore.MemoryLeaseStore.ReleaseExecutionLease | memory_lease_store.go:63-72 | drops the lease of this token only |
| LeaseStore.MemoryLeaseStore.RenewExecutionLease | memory_lease_store.go:86-104 | extends only a lease in force under this token |
| LeaseStore.MemoryLeaseStore.WriteFenced | memory_lease_store.go:147-180 | all refusals in the source's order, else the record is replaced and nothing more |
| LeaseStore.MemoryLeaseStore.LoadRecord | memory_lease_store.go:130-145 | the stored record or not found |
| SqliteStore.AbsIsBijective | sqlite_store.go:104-131 | rows and representable slots correspond one to one, a lease being present exactly when the expiry is positive |
| SqliteStore.StepRefines | sqlite_store.go:90-331 | every operation on a row answers and acts as the one on the slot it stands for |
| SqliteStore.SqliteRefinesMemory | sqlite_store.go:90-331 | every sequence of operations at the same clock readings gives the same tokens, records and errors on both stores |
| SqliteStore.ReleasedLeaseNeedsEpoch | sqlite_store.go:104-113 | where the range assumption matters: on a released lease the stores agree exactly from the epoch on |
| SqliteStore.OutOfRangeIsRefused | sqlite_store.go:340-353 | tokens, revisions and deadlines beyond SQLite's integers are refused with the row untouched |
| SqliteStore.SQLiteCheckpointStore.AcquireExecutionLease | sqlite_store.go:90-151 | the upsert and its classification, on one row |
| SqliteStore.SQLiteCheckpointStore.ReleaseExecutionLease | sqlite_store.go:122-131 | zeroes the expiry of this token only |
| SqliteStore.SQLiteCheckpointStore.RenewExecutionLease | sqlite_store.go:161-194 | the guarded update and its range errors |
| SqliteStore.SQLiteCheckpointStore.WriteFenced | sqlite_store.go:249-331 | both guarded updates and the classification of a refused one |
| SqliteStore.SQLiteCheckpointStore.LoadRecord | sqlite_store.go:218-247 | the valid stored record, not found, or invalid |
| LeaseTiming.LedgerStepIsExclusive | memory_lease_store.go:48-72 | acquiring, renewing and releasing keep the tenures disjoint and the last one equal to the lease |
| LeaseTiming.TenuresAreDisjoint | memory_lease_store.go:94-103 | over any monotone sequence of operations tenures never overlap, and whoever passes the lease check is inside its own |
| LeaseTiming.TickTable | execution_lease_renewal.go:53-62 | renewal attempts start one interval after the loop and one interval apart |
| LeaseTiming.RenewalLoop | execution_lease_renewal.go:51-78 | the loop renews until the first failure, and reports loss exactly when the execution had not ended by itself |
| LeaseTiming.TwoIntervalsFit | memory_lease_store.go:78-84 | two renewal intervals are shorter than the lease exactly from three ticks on |
| LeaseTiming.LeaseNeverLapses | execution_lease_renewal.go:51-78 | if each attempt succeeds within its interval and the loop starts in time, every renewal finds the lease in force, over any number of renewals |
| FleetProof.ReachableIsInvariant | checkpoint.go:115-142 | in every reachable state the stored writes form one chain, and the holder of the newest token agrees with the store or has stopped |
| FleetProof.ActKeeps | checkpoint.go:43-47 | every action keeps it, uncertain writes and crashes included |
| FleetTheorems.HistoryIsLinear | memory_lease_store.go:147-180 | over all writes that reached the store tokens never decrease, each checkpoint extends all earlier ones and revisions grow |
| FleetTheorems.LateWritesAreFenced | memory_lease_store.go:160-164 | once a token was issued nothing by a smaller one lands |
| FleetTheorems.RevisionCountsWrites | checkpoint.go:92-110 | the n-th write carries the revision of the seed plus n |
| FleetTheorems.StoredRevisionIsWriteCount | file_store.go:102-106 | for executions begun by `Run` the stored revision is the number of writes that landed and at most 3·MaxSteps + 2 |
| FleetTheorems.NoWriteConflicts | memory_lease_store.go:165-177 | no write of any worker, at any clock, ever meets the revision conflict check |
| FleetTheorems.BudgetIsConserved | runtime.go:300-358 | retries, steps, pending call, completion and an open reservation never exceed the reserved iterations, nor these MaxSteps, over the whole life |
| FleetTheorems.CountersTellTheHistory | checkpoint.go:92-110 | the counters of the stored record are the true numbers of landed writes of each kind |
| FleetTheorems.NoBudgetNoRetry | model_retry.go:57-61 | an execution stored without retry budget, as in version 2, never retries |
| FleetTheorems.CallsAreAnnouncedOnce | runtime.go:306-326 | every callback has its own announcing write |
| FleetTheorems.ExecuteAtMostOnce | runtime.go:375-407 | over the whole life each tool call identifier is passed to `Execute` at most once, by the worker whose write announced it, and never one that the first stored record already holds |
| FleetTheorems.RecordedCallsAreNotExecuted | tool_reconciliation.go:37-67 | a call that the first stored record holds, above all its pending one, is never passed to `Execute`; recovery only reconciles or replays it |
| FleetTheorems.WriteAhead | runtime.go:306-326 | when a callback starts, the last acknowledged checkpoint announces exactly it, with the same steps and the attempt counted, and announced no other |
| FleetTheorems.ModelCallsArePaidFor | runtime.go:306-326 | model callbacks, stale workers included, never exceed the durable iterations |
| FleetTheorems.StoredRecordIsAccepted | recovery.go:46-51 | `Resume` never rejects as invalid what the fleet stored |
| FleetTheorems.EverySentWriteIsValid | file_store.go:165-198 | every checkpoint any worker ever sent is valid exactly when its error text is present |
| FleetTheorems.LostLeaseIsSilent | checkpoint.go:115-118 | after losing its lease a worker starts no write for the rest of the run; of its own only the write already under way may still land, unchanged and at most once |
| FleetTheorems.ReturnsAreDurable | runtime.go:282-293 | in every reachable state a worker that has returned, on whatever path, returned the result of the checkpoint it loaded or had acknowledged last, the latter being its entry in the history, and acts no more |
| Runtime.Activation.Transition | runtime.go:46-53 | the execution moves exactly when the transition is valid |
| Runtime.Activation.Persist | runtime.go:232-257 | the closure makes the machine's write, and updates the last saved result or the failure flag |
| Runtime.Activation.Attempt | runtime.go:300-315 | one pass of the loop reserves, calls and acts as the machine does, and uses one iteration |
| Runtime.Activation.OnModelError | runtime.go:335-358 | retry or failure as the machine does it |
| Runtime.Activation.OnDecision | runtime.go:363-391 | final output, duplicate call, missing executor or tool call as the machine does it |
| Runtime.Activation.MakeCall | runtime.go:393-417 | context check, events and `Execute` in the machine's order |
| Runtime.Activation.OnToolAnswer | runtime.go:418-446 | failure, cancellation or a recorded step as the machine does it |
| Runtime.Activation.Loop | runtime.go:300-454 | the loop ends with a result to persist, or after a failed write |
| Runtime.Activation.Deferred | runtime.go:268-293 | the deferred handlers persist a terminal outcome, announce it, and return the last saved result |
| Runtime.Activation.RunToEnd | runtime.go:222-455 | every interaction is the machine's, in its order; the result is the last acknowledged one and the observer saw the machine's events |
| Runtime.RunRequest | runtime.go:183-218 | an unusable request touches nothing, any other drives the machine to its end |
| Runtime.Resume | recovery.go:24-72 | load, validate, recover and run as the process does |
| Runtime.ResumeValid | recovery.go:52-71 | terminal, unsupported, pending and resumable records |
| Runtime.ReconcilePendingTool | tool_reconciliation.go:37-67 | reconciliation as the process does it |
| Runtime.ReplayPendingTool | tool_replay.go:26-48 | replay as the process does it |
| Runtime.CompletePendingTool | tool_replay.go:50-75 | the restoring write as the process does it, then the run |
| Trace.FileTraceRecorder.OnEvent | trace.go:79-121 | one record with the next number, nothing after a failure or close, numbering without gaps |
| Trace.FileTraceRecorder.RecordAll | trace.go:79-121 | durably recorded events are their numbered records |
| Trace.ClassifyTable | trace.go:158-217 | the HTTP status first, then the first of nineteen sentinels in order, then the kind of event |
| Trace.RecordedTable | trace.go:90-104 | each record carries its event's fields, its number, time, duration and code |
| Trace.AcceptedTable | trace_reader.go:77-146 | the inspector's acceptance, written out record by record |
| Trace.SummaryTable | trace_reader.go:82-115 | the summary's first and last record, largest attempt, number of tool starts and ending |
| Trace.InspectTrace | trace_reader.go:77-115 | accepts exactly the valid traces and summarises them |
| TraceDiff.DiffTrace | trace_diff.go:44-94 | both traces valid: their comparison, the first divergence being one past the longest common prefix; otherwise an error |
| TraceDiff.ComparisonTable | trace_diff.go:67-105 | on records: equivalent exactly when lengths and all six fields agree, else the first record that differs or is missing, each side showing its own, and deltas right minus left |
| TraceDiff.CommonPrefixIs | trace_diff.go:67-78 | the first index at which the behaviours differ is the length of the longest common prefix |
| TraceDiff.SwappedInputs | trace_diff.go:44-105 | swapping inputs swaps the sides and negates the deltas |
| TraceDiff.BehaviourFixesCounts | trace_diff.go:96-105 | equal signatures force equal attempt and tool counts and equal last events |
| TraceDiff.EquivalentTracesAgree | trace_diff.go:44-94 | equivalence forces zero deltas and equal terminal summaries, and is transitive |
| TraceOfRun.EventTable | runtime.go:316-334 | each event's status, attempt, call and error |
| TraceOfRun.ReturnEventTable | runtime.go:268-281 | a run's end is announced once, with its status and error, exactly when it is terminal |
| TraceOfRun.TraceNamesTheCalls | runtime.go:398-407 | over any run the events name exactly the calls passed to `Execute`, in order |
| TraceOfRun.TruthfulRun | runtime.go:258-293 | over any run the emitted events have valid statuses, at most one terminal event, last, and one tool start per dispatch |
| TraceOfRun.TraceOfRunIsTruthful | trace_reader.go:77-115 | the recorded trace of any created run is accepted; it is complete exactly when the run returned a terminal status, counts the dispatches, and when complete reports the final iterations |

## Left out

- Checkpoints.ValidateCheckpoint: the UTF-8 check of file_store.go:199-216; strings here are sequences of Unicode scalar values, so every string is valid, and a write refused for its encoding is a failed write.
- Checkpoints.CheckpointRevision: unsigned 64-bit wrap-around; the runtime's revisions are at most 3·MaxSteps + 2, and only an imported record with negative or enormous counts could wrap.
- SqliteStore.SQLiteCheckpointStore.WriteFenced: the classifying query of a refused update is part of the same atomic step; in the source another connection may change the row in between and change which error is reported.
- SqliteStore.SQLiteCheckpointStore.AcquireExecutionLease: as for writes, the classifying query is part of the atomic step.
- SqliteStore.SqliteRefinesMemory: clock readings before the epoch and deadlines, tokens and revisions beyond the signed 64-bit range, where the stores differ on purpose.
- CrashScripts.CrashesRefineTheRun: crashes inside a tool that recovery cannot answer, which stop with an unknown outcome.
- LostAttempts.AllCrashesRefineTheRun: compares processes, not the sequence of writes, since lost attempts make writes and model calls of their own; and starts from a run, not from a recovery under way.
- CallbackTimeout.TimedAnswersTable: the wrapper returns the parent's `ctx.Err()`, which may also be an exceeded deadline; the model reports a cancellation. The run replaces either by the cause of its own context.
- LeaseTiming.LeaseNeverLapses: the ticker is exact; scheduling delay counts as part of an attempt's own delay.
- LeaseTiming.RenewalLoop: runs on the in-memory store; goroutine, ticker and stop channel become a sequence of ticks.
- Trace.FileTraceRecorder.OnEvent: a record is written whole or not at all; partial lines are a matter of the file system.
- Runtime.Activation.Attempt: one iteration of the source's loop is split into several methods, each proved against the machine.
- Runtime.RunRequest: with a store, after ownership was acquired; without a store no write can fail.
- Fleet: one execution; other executions share nothing with it, which the stores' methods state.
- Ownership by `ExecutionLocker` (execution_lease.go:87-101) and stores without leases: exclusion there is the operating system's.
- `FileStore` used directly: its unlocked load before rename relies on external exclusion; its validator and its revision guard are the ones modelled.
- JSON, SQL driver, file system, linking, syncing, `flock` and SHA-256 file names: foreign calls.
- Go contexts, goroutines, mutexes and real clocks: a context is live or ended with a cause, clocks are arguments, steps are atomic.
- Nil contexts, option validation and constructors: plumbing with easy facts.
- Observer fan-out and panic isolation (observer.go:84-104), and `ReadTrace` file decoding, `Err` and `Close` of the recorder.
- Model, MCP and sandbox adapters and the example programs: model and tools are arbitrary answers.
- Exact error texts: they are opaque except for being empty or not.
- Schema version 1 beyond being refused for recovery without a write.
