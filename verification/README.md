# Verified models of the backup management center

The backup management center is a server that schedules, dispatches and records backups and restores, and
agents that execute them with restic and database clients. This project models the parts whose correctness
does not show from reading one function, and proves what they promise. `dafny verify dfyconfig.toml` checks
everything.

| module | what it models |
|---|---|
| `RestorePhases`, `RestoreStore` | statuses, phases, and the store's atomic writes on a restore |
| `RestoreDeadline` | the deadline of a restore that was asked to stop |
| `RestoreProtocol` | the database-restore protocol as a step system over server, streams, agents and targets |
| `DatabaseRestore`, `AgentReports` | the agent's restore procedure over every outcome of every call, and its report |
| `StreamRegistry` | the registry of agent streams and their capability records |
| `DispatchQueue` | the dispatcher's queues as classes, and one repository's queue, worker and watchdog as a step system |
| `LostWork` | what a restart of the server and the loss of an agent do to runs under way |
| `RunnerSlots` | repository locks, the concurrency semaphore and the restore mutex on the agent |
| `LruCache`, `ResultBuffer` | the agent's cache of finished results, and its buffers of unsent and unconfirmed results |
| `LogSink`, `Fanout` | the log sink, and the event bus of live subscribers |
| `CronCursor`, `DedupKeys` | schedule cursors, and the keys that join equal tasks |
| `Fingerprint`, `PathMapping` | the normal form under the snapshot fingerprint, and host/runtime path mapping |
| `Words`, `Primes`, `Sha256` | JavaScript's 32-bit operators, the first 64 primes, FIPS 180-4, and the browser's SHA-256 |
| `Sets` | a helper on the sizes of sets |

Concurrency is modelled by step systems: a step is one critical section, store transaction, channel operation
or external call, any enabled step may come next, and theorems hold of every state of every execution. Where
the program updates objects in place the model has classes or arrays; their methods are proved against
functions, and the theorems are about those functions.

What the environment answers is a parameter or a choice of step: adapters, restic, the network, the store's
success or failure, clocks. Assumed are the adapter contract of `internal/agent/backup/adapter.go`; that
nothing but this system writes to a restore's target (`deploy/README.md:203`); that a CommandAccepted
message answers the run's current claim; and that an agent's progress messages name a phase under way, never
one that releases the occupancy: the server writes whatever phase a progress message names
(`internal/server/agentreg/service.go:508`).

## Where the code does not do what one would expect

For each item one member gives a concrete execution or input, and another the exact condition under which
the property holds.

- A failed rollback does not always end as FAILED with code `rollback_failed`: a run that a restart or an
  expired grace already ended keeps its code. Exactly when: `FailedRollbackOutcome`; an input:
  `LateRollbackFailureKeepsCode`.
- A failing lookup of the restore request on a second queue copy records an untouched target while the agent
  executes the restore: `MisfireExecution`. What the server knows rules this out exactly when the row is not
  dispatched or waits for an operator: `LookupFailureExact`; `LookupFailureIndistinguishable` shows the same
  failure harmless in a state the server cannot tell from the other.
- An operator can resolve a restore that has not stopped: `LiveResolutionExecution`. The server's view and the
  agent's results show that it has stopped exactly when a result was produced or the command was never put:
  `ResolutionExact`, `ResolutionSafe`, `ResolutionIndistinguishable`.
- Two runs of one repository can be active after a single store failure: `OneFailureTwoActive` for each of three
  failures, one of them a failing read, and `UnwrittenRestartTwoActive`. At a claim another run is active exactly
  when one left behind by such a failure still is: `SecondActiveExact`.
- A listed run can be left without a job by a watchdog pass, after a failing read (`ReadFailureLeavesBehind`), or,
  with no failure at all, after a requeue between its claim and its send (`LateRequeueLeavesBehind`). Exactly when:
  `PassRepairs` in `DispatchSafety`; a condition on the steps since the pass began: `PassLeavesNoneBehind`.
- Stop requests rewrite the deadline of a restore that is already stopping, although they are documented never
  to: exactly when, `StopKeepsDeadlineExact` and `TickExact`; repeated cancelling (`CancelPostpones`) or progress
  messages (`ProgressPostpones`) postpone the end as often as they come, ticks alone never do
  (`TicksKeepDeadline`).
- A schedule slot is requested again, and refused, when a restart finds an old cursor
  (`UnsavedSlotRequestedTwice`, `OneRunPerSlot`); exactly when: `SlotsIncrease`.
- A slot is lost when the cursor cannot be read after a restart (`UnreadableCursorLosesSlot`); exactly when:
  `TickCoversExact`.
- A slot of the old expression fires when a plan is changed and the server restarted before the next tick
  (`RestartTrustsOldSlot`); the first tick after a restart fires exactly what `RestartFiresSaved` says.
- A result that was sent on one stream and noted as sent after the next stream came is confirmed by the
  next server message, without having been sent there (`LateNoteIsConfirmed`); exactly when: `ConfirmedExact`.
- Reverse path mapping can give another path when one runtime root lies inside another
  (`NestedRuntimeRootsBreakReverse`); for a path and for a whole configuration of absolute roots, exactly when:
  `RoundTripExact`, `ReverseExact`.
- Relative path mappings can choose `.` over a deeper root of one one-character name (`DotBeatsOneCharacter`);
  exactly then: `MostSpecificRoot`.
- The fingerprint of two snapshots with one id, time and host depends on their order (`TiesStayInOrder`); exactly
  when: `NormalFormExact`.

## Model

| member | source | states |
|---|---|---|
| RestoreProtocol.SentOnceAndVouched | internal/server/agentreg/registry.go:47-154 | in every state of every execution (claim, bind, send, accept, progress, disconnect, stop, timeout, crash, recovery, late or repeated result, any resolution, any failing lookup): no command is put more than once, and it is only on streams of its own agent that vouched for themselves |
| RestoreProtocol.EachSafeAlone | internal/server/dispatchgrpc/dispatcher.go:209-375 | in every state of every execution, whatever operators, lookups and other restores did: a restore that was released by neither an operator nor a misfired lookup of its own has ended, nobody runs it or can start it, and it was never put and is recorded as failed, or its phase is truthful about what it did unless somebody else wrote to the target meanwhile |
| RestoreProtocol.RestoreSafety | internal/server/dispatchgrpc/dispatcher.go:209-375 | while operators resolved only restores that had stopped and no lookup failed on a dispatched run: at most one restore is live; every released restore has ended, nobody runs it or can start it, and its phase is truthful about the content its target still holds |
| RestoreProtocol.ExecutionBase | internal/server/store/store.go:132-154 | the unconditional invariant: one command per run, honest results, streams and workers in order |
| RestoreProtocol.ExecutionSole | internal/server/store/sqlite.go:1960-2010 | its second layer, for the same executions as RestoreSafety: one occupying restore, targets holding what their last restore left |
| RestoreProtocol.GuardSuffices | internal/server/dispatchgrpc/dispatcher.go:213-227 | when the row is not dispatched or waits for an operator, a failing lookup never releases a live restore |
| RestoreProtocol.LookupFailureExact | internal/server/dispatchgrpc/dispatcher.go:213-227 | a failing lookup is harmless in every situation that looks the same to the server if and only if the row is not dispatched or waits for an operator |
| RestoreProtocol.LookupFailureIndistinguishable | internal/server/dispatchgrpc/dispatcher.go:213-227 | two executions alike to the server; the failure releases a live restore in one and is right in the other |
| RestoreProtocol.MisfireExecution | internal/server/dispatchgrpc/dispatcher.go:213-227 | a concrete execution in which a restore is recorded as failed and untouched while it executes |
| RestoreProtocol.ResolutionExact | internal/server/jobs/orchestrator.go:1782-1830 | the server's view, the puts and the agent's results show that nobody runs the restore or can start it if and only if a result was produced, or nothing was put and nothing is about to be |
| RestoreProtocol.ResolutionSafe | internal/server/store/sqlite.go:2291-2340 | on such evidence resolving by hand is safe |
| RestoreProtocol.ResolutionIndistinguishable | internal/server/jobs/orchestrator.go:1782-1830 | two executions with the same evidence, one with a live restore and one with a dead agent |
| RestoreProtocol.LiveResolutionExecution | internal/server/store/sqlite.go:2291-2340 | a concrete execution in which an operator resolves a live restore and a second one can be created |
| RestoreProtocol.PutKeeps | internal/server/agentreg/registry.go:132-154 | putting the command on the checked stream keeps the unconditional invariant, whatever happened to the registry since the check |
| RestoreDeadline.StopKeepsDeadlineExact | internal/server/store/sqlite.go:2094-2130 | a stop request leaves the deadline alone if and only if the phase is concluded or it asks for the same deadline |
| RestoreDeadline.TickExact | internal/server/dispatchgrpc/dispatcher.go:641-666 | when a tick moves the deadline, and when it ends the run, exactly |
| RestoreDeadline.TicksKeepDeadline | internal/server/dispatchgrpc/dispatcher.go:641-666 | any number of ticks leave a stopping restore as it is until one reaches the deadline, which hands it to an operator |
| RestoreDeadline.CancelPostpones | internal/server/dispatchgrpc/dispatcher.go:589-612 | cancelling again postpones the deadline any number of times |
| RestoreDeadline.ProgressPostpones | internal/server/store/sqlite.go:1925-1958 | progress takes cancelling back, so that the tick at the deadline asks to stop again, any number of times |
| RestoreStore.FailedRollbackOutcome | internal/server/agentreg/service.go:719-744 | a reported rollback failure never changes whether the phase releases; the run ends FAILED with rollback_failed if and only if it had not ended before, or had ended so |
| RestoreStore.LateRollbackFailureKeepsCode | cmd/server/main.go:503-555 | after a restart the same report leaves agent_disconnected in place |
| RestoreStore.ConclusionsArePermanent | internal/server/store/sqlite.go:2179-2290 | over any sequence of writes a terminal status, its code and a releasing phase never change; a phase that waits for an operator changes only to the operator's conclusion |
| RestoreStore.ResultOutcome | internal/server/agentreg/service.go:917-944 | every result maps to a terminal phase other than the operator's |
| AgentReports.PipelineReportsHonestly | internal/agent/runner.go:316-356 | every end of the restore pipeline becomes a report that is honest in the protocol's sense |
| AgentReports.EndToEnd | internal/server/agentreg/service.go:677-760 | from any outcome of the pipeline to the settled row: the phase is truthful, it releases unless the rollback failed, and status and code are the ones promised |
| DatabaseRestore.RunDatabaseRestore | internal/agent/pipeline/pipeline.go:448-671 | for every outcome of every call: the phase matches the target and the log (no write, target absent again, protection artifact imported and checked, chosen artifact imported and checked); an existing target is not written before a protection id is in hand; a dry run writes nothing; the verdict is a function of the outcomes |
| DatabaseRestore.RestoreUnderLock | internal/agent/pipeline/pipeline.go:519-671 | the same for the part that holds the agent-wide mutex |
| DatabaseRestore.ImportOrRollBack | internal/agent/pipeline/pipeline.go:608-671 | the same from the first write on, given a protected target |
| DatabaseRestore.RollbackDatabaseRestore | internal/agent/pipeline/pipeline.go:812-871 | when the rollback succeeds, exactly; rolled_back only after importing and checking the protection artifact, new_target_cleaned only after removing the target |
| DatabaseRestore.Site.UploadProtectionBackup | internal/agent/pipeline/pipeline.go:738-785 | an id is returned only for a snapshot in the repository that holds the target's content, and the target is not written |
| DatabaseRestore.ArtifactStaysInSnapshot | internal/agent/pipeline/pipeline.go:707-736 | the artifact chosen from a manifest is the single database's, and its path stays inside the snapshot directory |
| DatabaseRestore.FaithfulIsTruthful | internal/agent/pipeline/pipeline.go:677-700 | what the agent's log proves about a phase implies what the server believes of it |
| StreamRegistry.Registry.Register | internal/server/agentreg/registry.go:47-68 | a new stream starts without capability and the replaced one is cancelled, its messages and vouchers untouched |
| StreamRegistry.Registry.UnregisterIf | internal/server/agentreg/registry.go:85-95 | exactly the stream itself is removed, never its replacement |
| StreamRegistry.Registry.Record | internal/server/agentreg/registry.go:122-126 | the second step of a report: whatever happened to the registry since the lookup, only the record of the stream it came on changes, and that stream has vouched for itself |
| StreamRegistry.Registry.ReportCapabilities | internal/server/agentreg/registry.go:115-127 | lookup and record together: recorded if and only if it came on the registered stream |
| StreamRegistry.Registry.Verdict | internal/server/agentreg/registry.go:139-147 | the verdict on the stream that was found, exactly, whatever happened to the registry since; no error on a demand means that it vouched for itself |
| StreamRegistry.Registry.Checked | internal/server/agentreg/registry.go:132-147 | which stream is bound, and exactly when each error is returned |
| StreamRegistry.Registry.Deliver | internal/server/agentreg/registry.go:148-153 | the message goes to the stream that was checked or nowhere, and a guarded one only to a stream that vouched for itself |
| StreamRegistry.Registry.SendWithCapability | internal/server/agentreg/registry.go:132-154 | check and send together: success means the current, capable stream has the message |
| StreamRegistry.Registry.Send | internal/server/agentreg/registry.go:164-179 | the plain send, with its two errors |
| DispatchQueue.Dispatcher.Enqueue | internal/server/dispatchgrpc/dispatcher.go:136-177 | a marked run changes nothing; any other is marked, appended and signalled; every repository has its own queue and one worker |
| DispatchQueue.Dispatcher.Pop | internal/server/dispatchgrpc/dispatcher.go:189-198 | the first job leaves the queue, in order |
| DispatchQueue.Dispatcher.RemoveEnqueued | internal/server/dispatchgrpc/dispatcher.go:464-472 | both marks go, in every repository's view |
| DispatchQueue.Dispatcher.RequeueJob | internal/server/dispatchgrpc/dispatcher.go:440-461 | the job is appended and signalled with its marker kept, or dropped when the queue is gone |
| DispatchQueue.Dispatcher.PrepareRecovery | internal/server/dispatchgrpc/dispatcher.go:505-524 | true exactly when no job represents the run, and then its marker is dropped |
| DispatchQueue.DispatchSafety | internal/server/dispatchgrpc/dispatcher.go:180-375 | in every reachable state: no wake-up is lost; a run queued since the pass read its list and dealt with by it is in the queue or held by the worker if and only if its last job was not dropped, for a recorded reason; commands are put at most once per claim, and at most once ever for an operation that must not be repeated; of two active runs one was left after a store failure |
| DispatchQueue.AtMostOneActive | internal/server/dispatchgrpc/dispatcher.go:266-375 | without the four store failures at most one run of the repository is dispatched or running |
| DispatchQueue.SecondActiveExact | internal/server/dispatchgrpc/dispatcher.go:248-266 | at a claim another run is active if and only if one that was left after a store failure still is |
| DispatchQueue.PassLeavesNoneBehind | internal/server/dispatchgrpc/dispatcher.go:487-524 | a run listed by the pass and queued ever since is represented once the pass has dealt with it, unless the worker was already past looking at it or a read of that run failed since the pass began |
| DispatchQueue.ReadFailureLeavesBehind | internal/server/dispatchgrpc/dispatcher.go:209-213 | a concrete execution: one failing read after the check of the pass, and no job for the run |
| DispatchQueue.LateRequeueLeavesBehind | internal/server/dispatchgrpc/dispatcher.go:310-345 | a concrete execution without any failure: a requeue between claim and send, and no job for the run |
| DispatchQueue.FaultsAreRecorded | internal/server/dispatchgrpc/dispatcher.go:213-363 | runs count as left or disturbed only through the store failures and races named |
| DispatchQueue.OneFailureTwoActive | internal/server/dispatchgrpc/dispatcher.go:284-362 | concrete executions with two dispatched runs after one failure: an unwritten build error, an unwritten revert, or an unread row with all writes succeeding |
| DispatchQueue.UnwrittenRestartTwoActive | cmd/server/main.go:503-555 | the same after a start-up that cannot write one run |
| DispatchQueue.WorkerLocates | internal/server/dispatchgrpc/dispatcher.go:189-203 | a job leaves the queue only for the worker's hands, and those only when it is dropped |
| DispatchQueue.WorkerKeepsRow | internal/server/dispatchgrpc/dispatcher.go:257-351 | every step of the worker keeps the bounds on claims and sends of every run |
| LostWork.RunTable.RecoverStaleRuns | cmd/server/main.go:503-555 | the loop leaves every run as the per-run function of its old row and of the writes that succeeded says |
| LostWork.RunTable.HandleDisconnect | internal/server/agentreg/service.go:976-1038 | the same for the runs of a lost agent |
| LostWork.LostWorkIsNotRepeated | internal/server/agentreg/service.go:986-1048 | neither requeues what must not be repeated nor changes whether a restore occupies; what stays active, and that other agents' runs are untouched |
| LostWork.InterruptedRestore | cmd/server/main.go:524-542 | an interrupted restore ends failed and an operator can resolve it if and only if the second write succeeded |
| RunnerSlots.LockTable.RepositoryLock | internal/agent/runner.go:422-431 | one lock per repository path, the same for every caller |
| RunnerSlots.Exclusion | internal/agent/runner.go:295-314 | in every reachable state at most one pipeline per repository path, at most MaxConcurrency in total, at most one restore in its critical section |
| RunnerSlots.SomeoneCanAct | internal/agent/runner.go:295-314 | no deadlock: while a run is unfinished some run can act |
| RunnerSlots.EveryScheduleEnds | internal/agent/runner.go:229-363 | from any reachable state every schedule ends after at most ten actions per run, and one that cannot be continued has finished them all |
| LruCache.Lru.Get | internal/agent/runner.go:592-601 | the value and the refreshed order, as the specification has them |
| LruCache.Lru.Put | internal/agent/runner.go:603-622 | the stored value, the order and the eviction, as the specification has them |
| LruCache.Lru.MoveToFront | internal/agent/runner.go:624-634 | shifting in place moves the key to the front and keeps the order of the others |
| LruCache.Lru.Shift | internal/agent/runner.go:628 | the overlapping copy reads each element before overwriting it |
| LruCache.RunValid | internal/agent/runner.go:577-634 | after any operations: no duplicates, the order's elements are the map's keys, the size is within the capacity |
| LruCache.KeepsMostRecent | internal/agent/runner.go:592-622 | after any operations the order is the first cap keys of the list of all keys ever used, most recent first |
| LruCache.RecencyDistinct | internal/agent/runner.go:592-622 | that list has every used key once |
| LruCache.HoldsLastStored | internal/agent/runner.go:603-622 | a key that is present has the value stored for it last |
| LruCache.UsedKeySurvives | internal/agent/runner.go:592-634 | a key just used survives any operations that name fewer than cap other keys, with the value stored last |
| ResultBuffer.Buffers.SendRunResult | internal/agent/runner.go:464-486 | a result goes to pending or to unacked, by whether it could be sent |
| ResultBuffer.Buffers.FlushPendingResults | internal/agent/runner.go:526-551 | failed messages stay pending in order, the others become unacked in order |
| ResultBuffer.Buffers.SetStream | internal/agent/runner.go:103-111 | a new stream loses nothing and resends the unconfirmed before the unsent |
| ResultBuffer.ResultsConserved | internal/agent/runner.go:464-551 | in every interleaving, also when a send completes on the old stream, each message is in exactly one place, once; after a reconnection what waits for an answer was sent on the present stream, except exactly what was noted late; only what a stream accepted is acknowledged |
| ResultBuffer.ConfirmedExact | internal/agent/runner.go:488-500 | what a server message confirms was sent on the present stream if and only if it was not noted late, and is then nowhere else |
| ResultBuffer.LateNoteIsConfirmed | internal/agent/runner.go:475-493 | a concrete execution in which a result is confirmed that the present stream never carried |
| ResultBuffer.LeavesByAcknowledgment | internal/agent/runner.go:496-500 | a message leaves circulation only by an acknowledgment, out of unacked |
| LogSink.Sink.Write | internal/logging/sink.go:73-120 | the write does what the specification says, for the whole state |
| LogSink.Sink.SetHandler | internal/logging/sink.go:45-61 | the same for binding a handler |
| LogSink.Sink.DeliverLocked | internal/logging/sink.go:123-135 | entries go out in order up to the first error; the rest waits |
| LogSink.ChunkingIsIrrelevant | internal/logging/sink.go:73-120 | any cut of the byte stream into writes gives the state of a single write: entries delivered, waiting and lost, partial line, numbering, handler |
| LogSink.WrittenAppend | internal/logging/sink.go:83-119 | two writes are one write of both |
| LogSink.SplitJoins | internal/logging/sink.go:84-86 | splitting loses nothing and leaves no newline in a line |
| LogSink.WrittenKeeps | internal/logging/sink.go:105-145 | numbers follow acceptance, the newest wait, a bound handler leaves none waiting, all others were delivered or lost once and in order; losses are the oldest beyond the limit |
| LogSink.BoundKeeps | internal/logging/sink.go:45-70 | binding and unbinding keep all that |
| LogSink.BoundKeepsAll | internal/logging/sink.go:45-61 | binding loses no entry, even when the handler fails at once |
| Fanout.Bus.Publish | internal/server/events/fanout.go:65-96 | every subscriber of the run is offered the event once, full ones are closed and detached, others untouched |
| Fanout.Bus.Remove | internal/server/events/fanout.go:43-63 | ending a subscription closes its channel once and detaches it |
| Fanout.EveryClientServed | internal/server/events/fanout.go:31-96 | in every interleaving no channel is sent to after its close or closed twice, and each subscriber gets from each producer a gap-free run of its events, from its subscription on, complete up to the offer under way until it ends |
| Fanout.OfferGets | internal/server/events/fanout.go:72-95 | the offer extends that run by exactly the producer's next event, or ends it |
| CronCursor.Scheduler.TickPlan | internal/server/scheduler/scheduler.go:358-420 | which slot a tick fires and what it leaves in memory and store, for every plan |
| CronCursor.TickCovers | internal/server/scheduler/scheduler.go:389-419 | a tick fires exactly the first instant since the previous tick, so every instant passed is fired or preceded by it; nothing for an offline agent |
| CronCursor.TickCoversExact | internal/server/scheduler/scheduler.go:389-419 | under one expression, over any life, a tick does so if and only if it finds a cursor after the previous tick, or finds none and no instant passed |
| CronCursor.UnreadableCursorLosesSlot | internal/server/scheduler/scheduler.go:389-400 | a concrete life in which an unreadable cursor loses a slot |
| CronCursor.NoStaleSlot | internal/server/scheduler/scheduler.go:373-388 | while the server runs, a changed expression fires no slot of the old one |
| CronCursor.OneRunPerSlot | internal/server/store/migrations/0001_init.sql:103 | over every life, whatever failed, at most one run is created per slot, and every slot requested has its run when starting runs does not fail otherwise |
| CronCursor.SlotsIncrease | internal/server/scheduler/scheduler.go:358-436 | over any life under one expression the slots requested are instants, at most one per tick, and strictly increasing if and only if no first tick after a restart reads a cursor at or before the last slot |
| CronCursor.SavedSlotsIncrease | internal/server/scheduler/scheduler.go:358-436 | so they are when the cursor of the latest tick before each restart was saved, and without restarts always |
| CronCursor.CursorIsFresh | internal/server/scheduler/scheduler.go:428-436 | a cached or saved cursor is the first instant after the latest tick, of that tick's expression |
| CronCursor.CursorKeyInjective | internal/server/scheduler/scheduler.go:424-426 | cursors of different expressions or zones are told apart |
| CronCursor.UnsavedSlotRequestedTwice | internal/server/scheduler/scheduler.go:389-415 | a concrete life in which an unsaved slot is requested again after a restart, and only one run is created |
| CronCursor.RestartFiresSaved | internal/server/scheduler/scheduler.go:389-400 | the first tick after a restart fires exactly the first instant, since the previous tick, of the expression of that tick |
| CronCursor.RestartTrustsOldSlot | internal/server/scheduler/scheduler.go:389-400 | a change and a restart before the next tick fire an old slot |
| DedupKeys.KeysIdentifyTasks | internal/server/jobs/orchestrator.go:396-424 | over NUL-free fields, keys are equal if and only if the tasks are |
| DedupKeys.NulConfusesKeys | internal/server/jobs/orchestrator.go:404-410 | with a NUL inside a field they can coincide |
| DedupKeys.KeyIsJoined | internal/server/jobs/orchestrator.go:397-424 | the concatenations are the fields joined by NUL |
| DedupKeys.SystemParams | internal/server/scheduler/scheduler.go:222-232 | the parameters come back exactly from a fingerprint-free system key holding a JSON object, and nothing comes from one with a hexadecimal fingerprint |
| DedupKeys.ForgetRunIsRetention | internal/server/scheduler/scheduler.go:204-219 | either text showing a retention policy decides |
| DedupKeys.RetentionIsRecognised | internal/server/scheduler/scheduler.go:195-219 | a retention run is recognised whatever its progress text has become |
| Fingerprint.Normalized | internal/server/store/store.go:245-262 | the normal form of the caller's list is computed by sorting copies in place; the list and its inner slices are unchanged |
| Fingerprint.SortInPlace | internal/server/store/store.go:251-254 | insertion in place gives the stable sort of the old content |
| Fingerprint.Canonical | internal/server/store/store.go:244-266 | for distinct ids the normal form is equal if and only if the lists agree up to the order of snapshots, tags and paths |
| Fingerprint.NormalFormExact | internal/server/store/store.go:254-262 | in general, if and only if for every key they list the same snapshots in the same order |
| Fingerprint.TiesStayInOrder | internal/server/store/store.go:254-262 | two different snapshots with one key keep their order, so the normal form depends on it |
| Fingerprint.SortExact | internal/server/store/store.go:254-262 | a stable sort forgets exactly the order between elements with different keys |
| Fingerprint.KeysOrdered | internal/server/store/store.go:254-262 | the comparison function is a strict total order of keys |
| PathMapping.MapPath | internal/agent/pipeline/pipeline.go:900-945 | the loop computes the specified selection and image, or the same error |
| PathMapping.MostSpecificRoot | internal/agent/pipeline/pipeline.go:905-930 | the chosen root lies inside another covering root if and only if the two do not tie as . listed before a single one-character name |
| PathMapping.DotBeatsOneCharacter | internal/agent/pipeline/pipeline.go:905-930 | concrete relative mappings for which the shallower root is chosen |
| PathMapping.LongerIsDeeper | internal/agent/pipeline/pipeline.go:915-930 | among roots that cover a path, comparing text lengths compares depth |
| PathMapping.MappedInsideRoot | internal/agent/pipeline/pipeline.go:930-945 | the image lies inside the target root, at the path's place relative to the source root |
| PathMapping.ReverseUndoesForward | internal/agent/pipeline/pipeline.go:900-945 | for any roots, reverse undoes forward up to cleaning when no runtime root lies inside another |
| PathMapping.RoundTripExact | internal/agent/pipeline/pipeline.go:900-945 | for absolute roots, as the configuration admits, a path comes back if and only if the mapping chosen on the way back has the same two roots as the one on the way there |
| PathMapping.ReverseExact | internal/agent/pipeline/pipeline.go:900-945 | every path comes back if and only if for no two mappings the place below one host root that maps to the other runtime root goes back through that other mapping |
| PathMapping.NestedRuntimeRootsBreakReverse | internal/agent/pipeline/pipeline.go:900-945 | with nested runtime roots it does not |
| PathMapping.ImplicitMappingIdempotent | internal/agent/pipeline/pipeline.go:1037-1064 | the implicit source mapping applied twice is applied once |
| PathMapping.CleanIdempotent | internal/agent/pipeline/pipeline.go:900-905 | cleaning twice is cleaning once |
| PathMapping.MapBackupSource | internal/agent/pipeline/pipeline.go:996-1033 | the slices are rewritten in place up to the first error, and the rest is untouched |
| Sha256.Sha256Bytes | web/src/lib/sha256.ts:27-81 | for every byte array whose bit length is an exact JavaScript number, the result is the FIPS 180-4 digest |
| Sha256.Pad | web/src/lib/sha256.ts:31-41 | the buffer is the message padded by section 5.1.1 |
| Sha256.PaddingIsShortest | web/src/lib/sha256.ts:33-34 | the padded length is the smallest multiple of 64 that fits |
| Sha256.Expand | web/src/lib/sha256.ts:45-50 | the schedule of section 6.2.2 step 1 |
| Sha256.Compress | web/src/lib/sha256.ts:51-75 | the 64 rounds and the addition of steps 2 to 4 |
| Sha256.RoundStep | web/src/lib/sha256.ts:52-67 | the reassignment of the eight variables is one round of step 3 |
| Sha256.RotrIsROTR | web/src/lib/sha256.ts:22-24 | the signed rotation is ROTR as a word |
| Sha256.ChIsCh | web/src/lib/sha256.ts:54 | the signed choice is Ch as a word |
| Sha256.MajIsMaj | web/src/lib/sha256.ts:57 | the signed majority is Maj as a word |
| Sha256.FirstSum | web/src/lib/sha256.ts:53-55 | the five-term sum stays exact and reduces to four additions modulo 2^32 |
| Sha256.NextWord | web/src/lib/sha256.ts:47-49 | so does the sum for a schedule word |
| Sha256.ChBit | web/src/lib/sha256.ts:54 | each bit of the first word chooses between those of the other two |
| Sha256.MajBit | web/src/lib/sha256.ts:57 | each bit is that of the majority |
| Primes.FirstPrimes | web/src/lib/sha256.ts:11-20 | the 64 numbers behind the constants are exactly the first 64 primes, in order |
| Sha256.CubeRoots | web/src/lib/sha256.ts:11-20 | the 64 constants are the cube-root fractions of section 4.2.2 |
| Sha256.SquareRoots | web/src/lib/sha256.ts:28-30 | the initial value holds the square-root fractions of section 5.3.3 |
| Words.RotrBit | web/src/lib/sha256.ts:22-24 | ROTR moves bit (i + n) mod 32 to bit i |

## Left out

- Execution time and leases: a lease, a grace period or a lost heartbeat is an expiry step that may come at any time.
- The contents of databases and snapshots: a content is an opaque value, and importing an artifact leaves its content or an arbitrary one.
- The checks of an operator's request (`execution_stopped`, `target_verified`): they are the operator's word, which is why the protocol's theorem names the condition.
- restic, rclone, the database clients, gRPC, HTTP, WebSocket, SQL text, JSON encoding, Telegram, metrics and the web pages.
- AES-GCM, HMAC, argon2 and the server's own SHA-256; the cron library is a function returning the first instant strictly after its argument, or none.
- Symbolic links and the file system behind path checks; paths are treated lexically.
- Build failure, stale queued runs and failure to save credentials end only the run of a restore, not its request; no claim is made that every ended restore has a terminal phase.
- DispatchQueue.DispatchSafety: one repository at a time; the block on a repository with an unconcluded restore is one of the reasons for the step Postpone.
- RestoreProtocol.RestoreSafety: database restores only; other operations appear in `DispatchQueue` and `LostWork`.
- LostWork.RunTable.RecoverStaleRuns: secrets and notifications are not modelled, nor a crash between its two writes other than as the second one failing.
- RunnerSlots.Exclusion: a goroutine is a thread of its own, so a command delivered again while it runs counts as another run; the finished and running checks of Execute are not part of it.
- LogSink.ChunkingIsIrrelevant: time stamps are not modelled; a line's level, type and message are functions of the line; concurrent calls of Write are not modelled, since the standard logger serialises them.
- LruCache.Lru.Put: keys and results are numbers, and the capacity is at least one (the program's is 512).
- Fanout.Bus.Publish: the steps between the locks are interleaved in the step system, not in the method.
- StreamRegistry.Registry.Deliver: a full channel of an open stream blocks; the method describes the moment at which the select proceeds.
- CronCursor.OneRunPerSlot: run rows are never deleted here, so a slot whose run history pruning removed is not seen to be free again; why a request fails otherwise (an unknown plan, an active run of the same task) is one choice, and the program does not repeat it either.
- RestoreDeadline.TicksKeepDeadline: results, disconnects and restarts, which end the run or queue it again, are part of `RestoreProtocol` and not of this model.
- Fingerprint.Normalized: JSON encoding and hashing of the normal form; the library's sorts are represented by insertion in place, which gives the same result as any stable sort.
- Sha256.Sha256Bytes: the limits of the browser on array sizes.
- Byte formatting, version comparison, environment parsing and the request handlers: they would only add easy members.
