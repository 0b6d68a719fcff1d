# Verified model of a pure-Go HTCondor schedd

This project models the parts of the schedd in which state is changed by several parties and
proves what must hold over whole runs: no job with two runs, no log event lost or written twice,
no proc created twice, no job id handed out twice, no channel closed twice. Where a promise of the
code turns out not to hold, the project gives the run that breaks it and the condition under which
it does hold.

`dafny verify dfyconfig.toml` checks the whole project.

## How it is organised

* **Scheduler core** (`internal/sched`). `SchedulerCore` says what each event does to the core's
  state; the class in `Scheduler` does the same in place, handler by handler, and is proved equal
  to it. `SchedulerSystem` puts the core together with everything around it: the bounded event
  channel that drops posts when it is full, the run goroutines, teardown, drain and recovery
  commands, the lease sweep, new jobs, and queue actions that read a job's record at one moment and write
  the edited copy at a later one, or fail to. One step is one delivered event, one post, one sweep, one
  arrival or one half of an action, in any order. `SchedulerRegistry`, `SchedulerBudget`, `SchedulerVacate`,
  `SchedulerChannels`, `SchedulerDrain` and `SchedulerTasks` hold the invariants, `SchedulerEffects` says
  outright what each delivered event comes to in the queue, the registry and the launched goroutines,
  and `SchedulerTheorems` what follows for every reachable state.
* **User-log writer pool** (`internal/userlog`). `UserLogPool` takes one step per mutex section and
  per channel operation of producers, workers, the reaper and the evictor; `UserLogProofs` proves
  the invariants of every interleaving. `UserLogManager` has three of the manager's loops as methods,
  finding a file's state, evicting an idle one and draining one, and proves that each is a sequence of
  those steps; the reaper, the workers' outer loop and the producers' side are steps only.
* **Leases**. `MatchTable` is the table of claimed matches; `LeaseSweep` and
  `Scheduler.SweepExpired` are the sweep against concurrent use of that table.
* **Negotiation**. `RequestGroups` cuts the idle index into runs of equal checksum; `Negotiate`
  assigns matches to group members over a whole round.
* **Late materialization**. `Factory` and `FactoryProofs` are the engine's visits to one factory
  cluster, with failed and ambiguous writes, crashes and job changes in the middle of a visit;
  `Digest` is the expansion of one proc on a shared macro table.
* **Policy and actions**. `Policy` decides, `Actions` carries out.
* **Ids**. `Ids` is the durable cluster counter and the transactions that number procs;
  `Decimal` and `JobKeys` are the printed keys.
* **Shadow**. `Shadow` is the reconnect retry loop and the classification of a run's end.

The state a source file updates in place is a class with the same fields; each method is proved
against a function on values, and the properties are proved about those functions. ClassAds are
records, expressions are functions of the ad, and clock readings and network outcomes are parameters.
Storage outcomes are parameters of the actions, the id counter and the factory; a record the scheduler
core itself edits is stored in one atomic step.

## What does not hold as promised

* *A push onto the user log's ready queue never fails* (`internal/userlog/manager.go:384-404`).
  It can: a file state may be reaped or evicted while a producer that has looked it up has not sent
  yet, so more file states than `MaxFiles` are in use. `DroppingHeldFilesCanStrandEvents` is a run for
  every cap; the refused file's events stay in the buffer with nobody to write them.
  `PushRefusedExactly` says in which states a push is refused, and `NeverRefused` proves the promise
  for every run in which no held file state is dropped.
* *A log file has one writer at a time.* After such a drop a second file state can be made for the same
  path, and both are drained at once: `DroppingHeldFilesCanGiveTwoWriters` is a run for every cap, and
  `OneWriterPerPath` the promise for every run without such a drop.
* *A run's end and a policy action's end reach the core.* `Submit` drops an event when the channel is full
  (`internal/sched/sched.go:411-418`), and it can be full whenever a run or an action ends
  (`AnyEndCanBeDropped`, `AnyDoneCanBeDropped`). `DroppedEndIsForEver` proves that a run whose end was
  dropped stays registered whatever follows, so its job is not matched again and no drain finishes;
  `DroppedDoneIsForEver` that a job whose action's end was dropped gets no further policy action.
* *A job whose failures used up the budget never runs.* `actOnJob` reads the record, may wait for a
  teardown, and writes the whole record back, without a lock on the job. `OverlappingActionsCanOverrun`
  lets a hold and a release of one job overlap and ends with an exhausted job Running.
  `BudgetHoldsExactly` proves that a job's budget holds throughout a run if and only if no stale hold of
  that job ends in it, and `BudgetHolds` that it does for every job whose own actions do not overlap.
* *A vacated run writes nothing.* `handleStarted` does not look at the run's flags. With reconnects
  disabled, a drain that overtakes the start of a run vacates it while the job is Idle, and the
  `evStarted` delivered later makes the job Running (`LateStartRevivesTheJob`); the run's end is silent,
  so the job stays so (`LateStartStrandsTheJob`). `OnlyAStartWrites` proves that nothing else of a vacated
  run writes, and `VacatedStaysSilent` the promise for runs whose start is behind them.
* *Two `NewProc` calls never get the same id.* A transaction that has opened no cluster has active
  cluster -1, and `NewProc(-1)` passes the check (`internal/queue/txn.go:101`). `JobIdsAreUnique`
  proves that ids are unique if and only if at most one transaction does this, and
  `WithoutClusterIdsCollide` is a run with a collision.

## Model

| member | source | states |
|---|---|---|
| `SchedulerTheorems.RegistryMatchesRuns` | internal/sched/sched.go:717-752 | in every reachable state a job is registered exactly while a run of it has not delivered its terminal event, no job has two such runs, and the gauge is their number |
| `SchedulerTheorems.OneEndPerRun` | internal/sched/sched.go:771-904 | the channel holds one terminal event of a run that has posted it and none of any other run |
| `SchedulerTheorems.ClaimsAreAccountedFor` | internal/sched/sched.go:717-752 | every delivered match's claim was handed back or belongs to a run of its own, and every fresh run comes from one match |
| `SchedulerTheorems.EveryRunHadAnIdleJob` | internal/sched/sched.go:717-752 | every fresh run ever launched goes back to the delivery of a match for its job, on its claim, at a moment when the job was queued, Idle and without a run and the schedd was not draining |
| `SchedulerTheorems.NoJobIsLost` | internal/queue/actions.go:247-251 | a job that was recovered or has arrived is in the queue or in the history after any steps |
| `SchedulerTheorems.DroppedEndIsForEver` | internal/sched/sched.go:411-418 | once the full channel dropped a run's terminal event, after any further steps the run is still registered, its job takes no match, and a drain's channel is not closed |
| `SchedulerTheorems.AnyEndCanBeDropped` | internal/sched/sched.go:411-418 | from any reachable state with a live run, posts alone lead to a state in which its terminal event was dropped and the core is as before |
| `SchedulerTheorems.AnyDoneCanBeDropped` | internal/sched/sched.go:411-418 | the same for the done event of a running policy action |
| `SchedulerTheorems.PendingExactlyWhileWorking` | internal/sched/sched.go:1701-1717 | in every reachable state a job is pending exactly while one launched action on it is running, has its done event in the channel, or had that event dropped; there is only one such action, and its done event is in the channel once if posted and else not at all |
| `SchedulerTheorems.DroppedDoneIsForEver` | internal/sched/sched.go:411-418 | once an action's done event was dropped, after any further steps the job is still pending and no policy action on it has been launched |
| `SchedulerTheorems.BudgetHolds` | internal/sched/sched.go:1249-1284 | a job that is Idle, Running or registered has fewer shadow exceptions than the maximum, in every reachable state before which no two actions on that job overlapped, whatever was done to other jobs |
| `SchedulerTheorems.BudgetHoldsExactly` | internal/queue/actions.go:81-224 | in every state of a run the job's budget holds, if and only if no step of the run ends a hold of that job that began when its budget was used up and ends when it has a run |
| `SchedulerTheorems.OverlappingActionsCanOverrun` | internal/queue/actions.go:81-224 | a hold and a release of one held job that overlap can leave it Running with its budget used up |
| `SchedulerTheorems.VacatedStaysSilent` | internal/sched/sched.go:1008-1011 | once a run is vacated with its start behind it, no event of it delivered later, after any further steps, changes a job record or the history |
| `SchedulerTheorems.LateStartRevivesTheJob` | internal/sched/sched.go:907-921 | with reconnects disabled, a drain that overtakes the start of a run leaves the job Running behind a vacated run |
| `SchedulerTheorems.LateStartStrandsTheJob` | internal/sched/sched.go:1008-1011 | the end of that run is silent, so the job stays Running with no run, no event and no action left |
| `SchedulerTheorems.DrainClosesWhenEmpty` | internal/sched/sched.go:1378-1383 | after the drain its channel has been closed once if the registry is empty and not at all otherwise |
| `SchedulerTheorems.DrainingOnlyShrinks` | internal/sched/sched.go:717-723 | while draining no step registers a run, and a delivered match is released at once |
| `SchedulerTheorems.ClosedOnce` | internal/sched/sched.go:1783-1788 | no channel is closed twice, and a closed one is waited for nowhere |
| `SchedulerTheorems.WaitersAreReaped` | internal/sched/sched.go:1314-1329 | a teardown channel that reached the core waits on one registered run or has been closed |
| `SchedulerRegistry.HandleEvolves` | internal/sched/sched.go:677-712 | every handler moves registry and launched runs together: the terminal event's job leaves, new runs enter, all others stay |
| `SchedulerRegistry.StepKeepsReg` | internal/sched/sched.go:411-418 | every step, dropped posts included, keeps registry, runs and channel in correspondence |
| `SchedulerBudget.HandleRespects` | internal/sched/sched.go:677-712 | every handler keeps every job within its budget and leaves the record of an exhausted one alone |
| `SchedulerBudget.OnlyAStaleHoldOverruns` | internal/queue/actions.go:99-148 | a step keeps a job's budget if and only if it is not the end of a hold whose snapshot was exhausted on that job when it has a run by now |
| `SchedulerBudget.ChargedExactly` | internal/sched/sched.go:1021-1043 | a delivered event raises a job's exception count by one exactly when it ends a Running job's run that is not torn down, by a panic or without an exit result and without detaching; a failed reconnect never does |
| `SchedulerBudget.LastChargeHolds` | internal/sched/sched.go:1249-1284 | the charge that reaches the maximum holds the job with code 1002, any other requeues it |
| `SchedulerVacate.StepKeepsQuieted` | internal/sched/sched.go:1314-1329 | no step brings a quieted run back |
| `SchedulerVacate.VacatedRunIsSilent` | internal/sched/sched.go:1232-1235 | the events of a quieted run write nothing, from any state that keeps the registry invariant |
| `SchedulerVacate.OnlyAStartWrites` | internal/sched/sched.go:907-921 | of a vacated run's events exactly the evStarted of a job still queued writes, and it makes the job Running |
| `SchedulerChannels.HandleConserves` | internal/sched/sched.go:1314-1383 | every handler takes charge of the channel its event brings and of no other, and loses none |
| `SchedulerChannels.HandleDrains` | internal/sched/sched.go:1334-1383 | once draining, the registry only shrinks and the reaping that empties it closes the drain's channel; before, only evDrain starts a drain |
| `SchedulerDrain.StepKeepsDrain` | internal/sched/sched.go:434-462 | the single drain of Stop is pending while runs are registered and closed after |
| `SchedulerDrain.StepKeepsChans` | internal/sched/sched.go:477-515 | a channel made so far is in exactly one of: the event channel, a run's waiters, the drain, the closed ones, the dropped ones |
| `SchedulerDrain.StepKeepsGrants` | internal/sched/sched.go:717-752 | delivered matches and what became of them correspond one to one, in order |
| `SchedulerEffects.MatchOutcome` | internal/sched/sched.go:717-752 | a well-formed match for a queued, Idle, unregistered job outside a drain registers a run of it on that claim; any other hands the claim back and leaves the registry alone; no match writes a record |
| `SchedulerEffects.OnlyMatchesRun` | internal/sched/sched.go:677-752 | no other event launches a fresh run |
| `SchedulerEffects.StartOutcome` | internal/sched/sched.go:907-943 | the record gets the slot, the event's claim or the run's, a lease, its first renewal and one more start, and is Running; the registry entry follows |
| `SchedulerEffects.ExitOutcome` | internal/sched/sched.go:988-1135 | by verdict, a result holds the job with its codes, requeues it, submits its removal or archives it as Completed, each with one more completion and off its slot; no result is a counted failure; a run torn down or detached changes nothing |
| `SchedulerEffects.FailOutcome` | internal/sched/sched.go:1195-1284 | the claim of the event or of the run is handed back exactly when it was not given up already and no reconnect is to use it; the job fails unless the run is torn down, counted only for a panic |
| `SchedulerEffects.ReconnectFailOutcome` | internal/sched/sched.go:1564-1598 | the job is requeued and not charged, unless the run is torn down |
| `SchedulerEffects.TeardownOutcome` | internal/sched/sched.go:1314-1329 | the run is vacated, told to stop and notes its waiter; without a run the waiter is answered at once |
| `SchedulerEffects.DrainOutcome` | internal/sched/sched.go:1334-1374 | with reconnects disabled every run not yet vacated is vacated and its Running job sent back, otherwise every live run is detached and no record written |
| `SchedulerEffects.SweepRuns` | internal/sched/sched.go:1826-1849 | the victims not yet vacated are vacated and told to stop, every other run is as it was |
| `SchedulerEffects.SweepJobs` | internal/sched/sched.go:1807-1849 | their Running jobs go back to Idle, every other Running job with a live run has its lease renewed, no other record changes |
| `SchedulerEffects.PolicyOutcome` | internal/sched/sched.go:1701-1732 | an action is launched exactly when none is pending and the current status admits it: a removal of a job not removed, a hold of an Idle or Running one, a release of a Held one |
| `SchedulerEffects.RecoverOutcome` | internal/sched/sched.go:1412-1488 | a scanned job left Running is re-attached on the claim and slot of its record exactly when it has a claim and its lease has not run out, and goes back to Idle otherwise; nothing else is touched |
| `SchedulerEffects.RecoveryLeavesNoOrphan` | internal/sched/sched.go:1404-1411 | after a scan of the whole queue no Running job is without a run |
| `SchedulerEffects.StartSurvivesRestart` | internal/sched/sched.go:928-943 | a schedd restarted after a start picks the run up on that claim and slot if and only if a claim was recorded and the lease counted from the start has not run out |
| `SchedulerEffects.RenewalSurvivesRestart` | internal/sched/sched.go:1807-1825 | after a sweep the lease counts from the sweep |
| `SchedulerEffects.OnlyExitsArchive` | internal/sched/sched.go:677-712 | no event but the end of a run takes a job out of the queue or writes the history |
| `SchedulerTasks.StepKeepsTasks` | internal/sched/sched.go:1701-1717 | every step, dropped posts included, keeps pending jobs, action goroutines and done events in correspondence |
| `SchedulerTasks.PendingLaunchesNone` | internal/sched/sched.go:1701-1705 | while a job is pending no step launches another action on it |
| `SchedulerCore.OnExited` | internal/sched/sched.go:988-1135 | the run leaves the registry, only its job's record may change, and a vacated or detached run changes none |
| `SchedulerCore.OnFailed` | internal/sched/sched.go:1195-1244 | the same for a failed run, with at most one release of its claim |
| `SchedulerCore.OnReconnectFailed` | internal/sched/sched.go:1564-1598 | the same for a failed reconnect, never charged |
| `SchedulerCore.JobFailed` | internal/sched/sched.go:1249-1284 | only the job named changes, and only when Running |
| `SchedulerCore.Concluded` | internal/sched/sched.go:1045-1135 | only the job named changes, and a removal is posted as an event |
| `Scheduler.Scheduler.HandleMatch` | internal/sched/sched.go:717-752 | the handler in place: registers an Idle, unregistered job's run, releases the claim in every other case |
| `Scheduler.Scheduler.HandleStarted` | internal/sched/sched.go:907-973 | the handler in place: slot, claim and lease written, status Running whatever it was |
| `Scheduler.Scheduler.HandleExited` | internal/sched/sched.go:988-1135 | the handler in place, with its deferred reaping, the on-exit policy evaluated on the ad read back, and the run's match record removed |
| `Scheduler.Scheduler.HandleFailed` | internal/sched/sched.go:1195-1244 | the handler in place, and the match record of the event's claim or the run's removed, the run's own when it detached |
| `Scheduler.Scheduler.HandleReconnectFailed` | internal/sched/sched.go:1564-1598 | the handler in place, and the match record of the event's claim or the run's removed |
| `Scheduler.Scheduler.FailJob` | internal/sched/sched.go:1249-1284 | requeue or hold, in place |
| `Scheduler.Scheduler.Conclude` | internal/sched/sched.go:1084-1135 | what the on-exit policy decided, in place |
| `Scheduler.Scheduler.HandleTeardown` | internal/sched/sched.go:1314-1329 | the run is vacated and its waiter noted, or the waiter is closed |
| `Scheduler.Scheduler.HandleDrain` | internal/sched/sched.go:1334-1374 | all runs vacated and requeued, or detached, or the channel closed when there are none |
| `Scheduler.Scheduler.VacateRuns` | internal/sched/sched.go:1350-1357 | the loop vacates and requeues every run not yet vacated, in any order |
| `Scheduler.Scheduler.DetachRuns` | internal/sched/sched.go:1364-1373 | the loop detaches every run neither vacated nor detached |
| `Scheduler.Scheduler.ReapWaiters` | internal/sched/sched.go:1783-1788 | every waiter of the run is closed, in order |
| `Scheduler.Scheduler.FinishDrainIfEmpty` | internal/sched/sched.go:1378-1383 | the drain's channel is closed and forgotten when draining and empty |
| `Scheduler.Scheduler.RequeueToIdle` | internal/sched/sched.go:1387-1402 | a Running job goes back to Idle without its run's attributes, any other is left |
| `Scheduler.Scheduler.HandleRecover` | internal/sched/sched.go:1412-1488 | orphans with a live lease get a reconnecting run, the others are requeued |
| `Scheduler.Scheduler.ScanOrphans` | internal/sched/sched.go:1421-1457 | the scan requeues the stale orphans and returns the recoverable ones in order |
| `Scheduler.Scheduler.ReattachRuns` | internal/sched/sched.go:1465-1487 | each recovered job is registered with a reconnecting run |
| `Scheduler.Scheduler.HandlePolicyAction` | internal/sched/sched.go:1701-1717 | an applicable action not yet pending is launched once |
| `Scheduler.Scheduler.SweepExpired` | internal/sched/sched.go:1807-1849 | the pass renews every live run's lease in table and record, drops the expired records, and vacates one run for each that a run not vacated holds |
| `LeaseSweep.SweepSparesLiveRuns` | internal/sched/sched.go:1807-1849 | a run live when the pass begins is neither vacated nor requeued, for any alive interval and any concurrent use of the table, if the pass ends before the leases set during it for the run's own claim |
| `LeaseSweep.LiveRunIsRenewed` | internal/sched/sched.go:1809-1825 | the pass renews the claim of every live run it visits |
| `LeaseSweep.SweepVacatesLapsed` | internal/sched/sched.go:1826-1849 | if the last operation of the pass on a claim set a lease that ends before the pass does, a run holding the claim is vacated and its Running job is Idle, without host and claim |
| `LeaseSweep.SweepVacatesForgotten` | internal/sched/sched.go:1826-1849 | the same for a lease that ended and that nothing touched during the pass |
| `MatchTable.RenewedIsKept` | internal/match/match.go:229-256 | a claim renewed anywhere in a sequence of table operations is not expired at its end if the leases set for that claim meanwhile reach that far |
| `MatchTable.LastOneDecides` | internal/match/match.go:147-278 | after any sequence of operations the last one on a claim decides its record: when its lease ends, or that it is gone |
| `MatchTable.SweepSpares` | internal/match/match.go:245-256 | a sweep keeps exactly the records with no deadline or one not yet past |
| `MatchTable.LeaseFits` | internal/match/match.go:183-192 | the 64-bit lease is the product of interval, one second at least, and missed alives, six unless another positive number was set, while that fits |
| `MatchTable.WrapsAround` | internal/match/match.go:183-192 | when it does not fit, the product is taken modulo 2^64 into the signed range |
| `MatchTable.Table.SetAlivesMissed` | internal/match/match.go:133-140 | a non-positive count restores the default, and leases are the same either way |
| `MatchTable.Table.CreateFromClaim` | internal/match/match.go:147-180 | the claim's record is new with a lease of its own interval, and nothing is recorded when its session cannot be imported |
| `MatchTable.Table.RenewLease` | internal/match/match.go:209-222 | a known claim's lease starts again |
| `MatchTable.Table.RenewLeaseFor` | internal/match/match.go:229-242 | a known claim's lease ends after the given span |
| `MatchTable.Table.ExpireSweep` | internal/match/match.go:245-256 | exactly the records whose deadline is past are removed, and returned once each; the others are as they were |
| `MatchTable.Table.Remove` | internal/match/match.go:266-278 | the claim's record is removed and returned |
| `UserLogProofs.ExactlyOnceInOrder` | internal/userlog/manager.go:234-268 | in every interleaving, written events, the one in the worker's hand and the buffer are the accepted events in order |
| `UserLogProofs.NoLostWakeup` | internal/userlog/manager.go:234-256 | unless the ready queue ever refused a push, a file with buffered events is owned, queued, or about to be signalled |
| `UserLogProofs.QuiescentPoolWroteAll` | internal/userlog/manager.go:216-256 | a pool at rest that never refused a push has written everything it accepted |
| `UserLogProofs.SingleOwnerAndSlot` | internal/userlog/manager.go:223-227 | a file has at most one owner and one ready-queue token, never both, and tracked files and buffers stay within their caps |
| `UserLogProofs.NeverRefused` | internal/userlog/manager.go:384-404 | a push is never refused unless a file state was dropped while a goroutine held it |
| `UserLogProofs.PushRefusedExactly` | internal/userlog/manager.go:384-404 | in any reachable state, whatever was dropped before, a push is refused exactly when the ready queue is full, and then a state being pushed or queued is no longer tracked |
| `UserLogProofs.DroppedOnlyWhenFull` | internal/userlog/manager.go:359-382 | a producer that may not wait gives an event up exactly when the buffer is full, and can send otherwise |
| `UserLogProofs.ShutdownSignalsAgain` | internal/userlog/manager.go:436-456 | at shutdown exactly the files with events and neither owner nor slot are signalled once more, and get a slot unless the ready queue is full |
| `UserLogProofs.OneWriterPerPath` | internal/userlog/manager.go:301-321 | without such a drop no log file has two writers |
| `UserLogProofs.DroppingHeldFilesCanGiveTwoWriters` | internal/userlog/manager.go:272-321 | for every cap, a file state dropped while a producer holds it can leave two workers writing to the same path at once |
| `UserLogProofs.DroppingHeldFilesCanStrandEvents` | internal/userlog/manager.go:272-336 | for every cap, file states dropped while a producer holds them can fill the ready queue, and the next push is refused and leaves its events buffered with nobody to write them |
| `UserLogProofs.StepKeepsInv` | internal/userlog/manager.go:216-404 | every step of every goroutine keeps the pool's invariant |
| `UserLogManager.Manager.EvictIdleLocked` | internal/userlog/manager.go:325-336 | an idle file is dropped, or there is none |
| `UserLogManager.Manager.FileFor` | internal/userlog/manager.go:301-321 | the state is found, or created, after an eviction if there was no room; none is given only at shutdown or when all files are busy |
| `UserLogManager.Manager.DrainFile` | internal/userlog/manager.go:234-256 | undisturbed, the worker writes the whole buffer in order and releases the file |
| `UserLogManager.DrainIsMoves` | internal/userlog/manager.go:234-256 | such a drain is the pool's receive, write and release steps of one worker, each possible when it is made |
| `UserLogManager.EvictionIsTwoSteps` | internal/userlog/manager.go:325-336 | an eviction is the pool's two evictor steps |
| `RequestGroups.IdleRequestGroups` | internal/queue/rrl.go:86-113 | the consumer sees the full grouping, or the part of it up to the group after which it stopped |
| `RequestGroups.GroupingIsLossless` | internal/queue/rrl.go:86-113 | the groups' ids are the index without the ads lacking ids, and each group is a maximal run of equal checksums |
| `RequestGroups.MaximalRunsAreUnique` | internal/queue/rrl.go:61-70 | there is only one such grouping |
| `Negotiate.GroupsAreSeparate` | internal/queue/rrl.go:86-113 | the groups of an index with each job once share no job |
| `Negotiate.NoJobAssignedTwice` | internal/negotiate/negotiate.go:318-356 | over any sequence of opcodes no job is assigned to two matches, every assigned job was offered, and a group gets no more matches than it has jobs; when all matches name offered representatives, a match without a job goes to nobody |
| `Negotiate.EveryMatchForwardedOnce` | internal/negotiate/negotiate.go:318-337 | over any sequence of opcodes, whatever the matches name, the matches forwarded are the matches received, once each and in order |
| `Negotiate.AssignedWasIdle` | internal/negotiate/negotiate.go:343-355 | after any sequence of opcodes a match for an offered group goes to the first member found idle when inspected of those not inspected before, and to nobody exactly when the group is rejected or all of them are found busy, whatever changes between two inspections; any other match is forwarded as it came |
| `Negotiate.RejectedYieldsNothing` | internal/negotiate/negotiate.go:343-373 | whatever follows, a rejected group gets no further match |
| `Negotiate.RejectionHits` | internal/negotiate/negotiate.go:361-373 | after any sequence of opcodes, a group turns rejected exactly when the rejection names its representative, or names nobody who represents an offered group and it is the last one offered |
| `Negotiate.RejectedGoesToNobody` | internal/negotiate/negotiate.go:343-373 | from then on every match that names its representative goes to nobody, whatever comes between |
| `Negotiate.CursorsPassTheInspected` | internal/negotiate/negotiate.go:343-355 | a match moves only its own group's cursor: past the member it goes to, to the end when none is idle, not at all when rejected |
| `Negotiate.SendOffers` | internal/negotiate/negotiate.go:256-267 | a request for n groups is answered with the next n, or all that are left |
| `Negotiate.CountersAreRight` | internal/negotiate/negotiate.go:256-337 | the counters are the groups offered and the matches that went to a job |
| `Negotiate.RunKeepsInv` | internal/negotiate/negotiate.go:256-373 | every sequence of opcodes keeps cursors, picks and counts in order |
| `Negotiate.NextAt` | internal/negotiate/negotiate.go:347-354 | the first position at or after the cursor whose member is found idle |
| `Negotiate.Round.SendRequests` | internal/negotiate/negotiate.go:256-267 | up to n groups are offered, in order |
| `Negotiate.Round.SendGroup` | internal/negotiate/negotiate.go:271-300 | the group is registered under its representative and is the most recent |
| `Negotiate.Round.NextIdle` | internal/negotiate/negotiate.go:343-355 | the loop returns the first member found idle when it is inspected and leaves the cursor behind it |
| `Negotiate.Round.HandleMatch` | internal/negotiate/negotiate.go:318-337 | the match is forwarded to the member picked, to nobody, or unchanged when its group is unknown |
| `Negotiate.Round.HandleReject` | internal/negotiate/negotiate.go:361-373 | the named group, or the most recent, is rejected |
| `FactoryProofs.CreatedExactlyOnce` | internal/queue/factory.go:220-268 | over any visits, failures, crashes and job changes the procs created are 0 to NextProcId-1, once each, NextRow is NextProcId divided by the repeat count, NextProcId is within the product of rows and repeats and the limit, and no live proc is beyond it |
| `FactoryProofs.FinishedFactoryIsComplete` | internal/factory/engine.go:153-212 | a factory that reached the full product has produced every pair of row and step with exactly one proc |
| `FactoryProofs.VisitCreatesTheQuota` | internal/factory/engine.go:153-201 | an undisturbed visit creates exactly as many procs as limit and idle maximum leave room for |
| `FactoryProofs.VisitFillsUp` | internal/factory/engine.go:153-201 | an undisturbed visit stops exactly when the product of rows and repeats, the limit or the idle maximum is reached |
| `FactoryProofs.VisitOutcome` | internal/factory/engine.go:153-212 | any visit creates the next procs in order, one turn each, advances the cluster ad with them, and ends because of a crash, a limit, the idle maximum, a failed write or a failed expansion; only limit and failed expansion mark the factory done |
| `FactoryProofs.PausedVisit` | internal/factory/engine.go:136-144 | a visit to a paused factory reclaims its cluster ad exactly when no proc is left |
| `FactoryProofs.OtherVisits` | internal/factory/engine.go:130-151 | no other visit reclaims it, and one that cannot read the digest only marks the factory done |
| `FactoryProofs.IdleStaysBounded` | internal/factory/engine.go:165-201 | while jobs only leave Idle, even during a visit, no more than the maximum are idle |
| `FactoryProofs.PairOf` | internal/factory/materialize.go:19-22 | row and step determine a proc below the total, and RowIndex and Step give them back |
| `Factory.Cluster.MaterializeCluster` | internal/factory/engine.go:130-212 | a whole visit: nothing, a clean-up, a pause, or topping up |
| `Factory.Cluster.MaterializeUpTo` | internal/factory/engine.go:165-212 | the loop does what the recursive definition of topping up says, turn by turn |
| `Factory.Cluster.MaterializeProc` | internal/queue/factory.go:220-268 | proc and advanced cluster ad are written together or not at all |
| `Factory.Cluster.PauseFactory` | internal/queue/factory.go:280-289 | the cluster ad is marked done, if there is one |
| `Factory.Cluster.ProcCounts` | internal/queue/factory.go:143-178 | the number of live procs and of idle ones |
| `Digest.MaterializeForgetsHistory` | internal/factory/materialize.go:44-87 | after any earlier expansions an expansion gives what it gives on a freshly parsed digest |
| `Digest.ResettingForgets` | internal/factory/materialize.go:82-87 | setting the same names again wipes out every earlier value |
| `Digest.PackedRowSplits` | internal/factory/materialize.go:92-103 | a row packed from two or more fields comes apart into them |
| `Digest.SpacedRowSplits` | internal/factory/materialize.go:92-103 | a row of words comes apart into them when there are several variables |
| `Digest.PlainRowIsWhole` | internal/factory/materialize.go:92-103 | a row without a separator is the value of a single variable |
| `Digest.ExpansionBinds` | internal/factory/materialize.go:44-77 | unless overridden, Step is the remainder and Row the quotient of the proc number by the repeat count, the ids are cluster and proc, Item is the row when no names are given, and each name has its field or nothing |
| `Digest.Digest.Materialize` | internal/factory/materialize.go:44-77 | the table gets all live variables in order and the result is computed from that table |
| `Digest.Digest.SetVar` | internal/factory/materialize.go:82-87 | the variable is set under its name and its lower-case form |
| `Digest.Digest.SetFixed` | internal/factory/materialize.go:48-55 | cluster, proc, step and row variables are set |
| `Digest.Digest.SetNamed` | internal/factory/materialize.go:61-69 | each named variable gets its field or the empty string |
| `Policy.AnalyzeIsFirstMatch` | internal/policy/policy.go:196-315 | for every given state, a negative one being read from the ad, the decision, reason and codes included, is that of the first documented rule that applies and whose value is true or a number other than zero; a removed job stays, or is removed if it exited |
| `Policy.OnExitDecides` | internal/policy/policy.go:235-258 | with no periodic expression true, a job that exited is held if and only if OnExitHold is true, else run again if and only if OnExitRemove is there and is false or zero, else completed |
| `Policy.ExitVerdictFollows` | internal/sched/sched.go:1076-1125 | the core does with a job that exited what the first documented rule that fires decides |
| `Policy.SubCodesAreCut` | internal/policy/policy.go:378-390 | a sub-code is its number cut towards zero, and 0 for anything but a number |
| `Policy.ExitIsDecided` | internal/policy/policy.go:235-258 | a job that exited is held, removed, requeued or completed, never left or released |
| `Policy.SkippedWouldStay` | internal/sched/sched.go:1676-1689 | a job the evaluator skips would have been told to stay |
| `Policy.EvaluatePeriodic` | internal/sched/sched.go:1642-1671 | the scan with its fast path submits exactly what a scan without it would |
| `Policy.PeriodicSubmits` | internal/sched/sched.go:1642-1671 | a job is owed the hold, release or removal of the first documented rule that fires for its status, on behalf of the schedd, or nothing |
| `Policy.PeriodicActionIsAccepted` | internal/sched/sched.go:1722-1732 | a periodic decision about an unchanged job is applicable, and accepted unless it releases a spooling hold |
| `Policy.PeriodicActionIsRecorded` | internal/queue/actions.go:99-224 | a periodic hold is recorded with the codes of the decision, a release and a removal as such |
| `Actions.JobStore.ActOnJob` | internal/queue/actions.go:81-224 | checking changes nothing and reports what applying reports unless the write fails; applying writes the edited snapshot, or archives it and deletes the job |
| `Actions.JobStore.ArchiveAndDelete` | internal/queue/actions.go:247-251 | the job leaves the queue, and its record is in the history unless the history refuses it |
| `Actions.RepeatIsRefused` | internal/queue/actions.go:99-224 | asking again is refused, except for a hold with a code of its own and a release back to Held |
| `Actions.AcceptedExactly` | internal/queue/actions.go:81-224 | an action is accepted if and only if the job is queued, the actor may act, and status and hold code admit it; a missing job and a stranger are told so |
| `Actions.HoldIsRecorded` | internal/queue/actions.go:99-148 | a held job has the code, sub-code, one hold more, keeps its failures and is off its slot |
| `Actions.ReleaseIsRecorded` | internal/queue/actions.go:150-188 | a released job goes to the status it asks for or Idle, without hold and failures |
| `Actions.RemovalIsRecorded` | internal/queue/actions.go:190-221 | a removed job is Removed, without claim and lease of a run it had |
| `Actions.ReleaseUndoesHold` | internal/queue/actions.go:99-188 | a hold and a release give a waiting job its record back, but for the count of holds and the moment |
| `Actions.ActionsMoveRecords` | internal/queue/actions.go:190-251 | a hold and a release keep the job queued and the history as it is, a removal moves the record into the history |
| `Ids.JobIdsAreUnique` | internal/queue/txn.go:97-109 | over any transactions, failed writes and restarts, no two NewProc calls get the same id, if and only if at most one transaction called it for cluster -1 |
| `Ids.WithoutClusterIdsCollide` | internal/queue/txn.go:101-103 | two transactions without a cluster get the same id |
| `Ids.IdsAreOrderly` | internal/queue/queue.go:249-263 | cluster ids strictly increase, and one transaction numbers a cluster's procs without a gap |
| `Ids.SameIdMeansNoCluster` | internal/queue/txn.go:97-109 | equal ids come from different transactions without a cluster |
| `Ids.NewProcOutcome` | internal/queue/txn.go:97-109 | a call succeeds exactly for the active cluster of an open transaction that may write, and gets the number of its calls so far |
| `Ids.NewClusterOutcome` | internal/queue/txn.go:82-94 | the counter is handed out exactly to an open transaction that may write when the advanced counter was stored |
| `Ids.RestartOutcome` | internal/queue/queue.go:164-171 | after a restart the counter is what was stored, never lower than before |
| `Ids.Queue.AllocClusterId` | internal/queue/queue.go:249-263 | the id is given out and the counter advanced in memory and on disk, or the counter in memory is as before |
| `Ids.Queue.Open` | internal/queue/queue.go:164-171 | the counter is what is on disk, at least 1 |
| `Ids.Txn.NewCluster` | internal/queue/txn.go:82-94 | the new id becomes the active cluster, numbered from 0 |
| `Ids.Txn.NewProc` | internal/queue/txn.go:97-109 | the next proc of the active cluster, refused for any other |
| `JobKeys.ParseUndoesJobKey` | internal/queue/queue.go:346-367 | parsing a printed key gives its numbers back, for all 64-bit integers |
| `JobKeys.JobKeyIsInjective` | internal/queue/queue.go:346-350 | different jobs have different keys |
| `JobKeys.KeysAreChained` | internal/queue/queue.go:371-388 | a proc's parent is its cluster's key; cluster keys are structural and have none |
| `JobKeys.CounterIsNoJob` | internal/queue/queue.go:371-388 | the counter's key is no job's, is structural and has no parent |
| `Decimal.AtoiItoa` | internal/queue/queue.go:346-367 | reading a printed integer gives it back |
| `Decimal.Forms` | internal/queue/queue.go:346-367 | what printed numbers look like and which texts are no numbers |
| `Shadow.EstablishReconnectWithRetry` | shadow/reconnect.go:145-185 | at most four attempts however long each takes; each sleep begins when its attempt ends, lasts 4, 8 and 16 seconds and ends within 45 seconds and the lease; the loop times out exactly when the next one would not; only an unreachable startd is tried again, and four attempts are really made when each fails at once |
| `Shadow.ShiftFits` | shadow/reconnect.go:170-173 | the shifted delay never overflows in the attempts there can be |
| `Shadow.RetryDeadline` | shadow/reconnect.go:146-155 | a moment is by the deadline exactly when it is within 45 seconds and the lease, if one is known |
| `Shadow.ExitedRunIsNeverCharged` | shadow/shadow.go:307-358 | a run's end is charged exactly when there was no job_exit and no detach and the job is Running and not torn down, however the wind-down went |
| `Shadow.WaitStatusDecodes` | shadow/shadow.go:123-137 | exit codes and signals are read back from the wait status, one or the other |
| `Shadow.Shadow.AfterServe` | shadow/shadow.go:307-358 | a result exactly when the job reported its exit, and which commands the startd is sent |
| `Shadow.Shadow.Winddown` | shadow/shadow.go:381-408 | the deactivation that fits, its fallback, and the release |
| `Shadow.WinddownIs` | shadow/shadow.go:381-408 | which commands are sent, in which order and when the wind-down has gone well, in words |
| `Shadow.OutcomeIs` | shadow/shadow.go:307-358 | the result exactly with a reported exit; which error stands for which way a run ended without one |
| `Shadow.Shadow.RecordExit` | shadow/shadow.go:513-520 | the exit is on record |

## Left out

- CEDAR framing, sockets, security sessions, claim clients, advertising and statistics: outcomes of the network are parameters.
- QMGMT, query and spool command handlers, per-attribute authorization and identity mapping: an action is given whether its actor may act.
- Spool stage-in, which releases holds outside the core.
- Transaction edits of committed ads, and the content of ads in `Ids`: only ids and keys are modelled.
- ClassAd evaluation, macro expansion and the mapping of submit commands to attributes: functions of the ad or of the macro table.
- User-log texts, writer caching and dropped-event counters.
- User-log pool as objects: concurrency is modelled as a transition system; `UserLogManager` has the loops in place.
- Scheduler.Scheduler.FailJob: the core's edits of a record (`Modify`) are atomic and always stored; a failed write, or an action that slips between its read and its write, is not modelled.
- Test hooks, reconfiguration setters, and `evReschedule`, which only advertises.
- SchedulerTheorems.BudgetHolds: a newly submitted job is taken to have no NumShadowExceptions, because nothing in the core limits what a submitter writes there.
- SchedulerTheorems.PendingExactlyWhileWorking: the queue action that a policy goroutine applies is a pair of steps of its own, not ordered with the goroutine's end.
- Scheduler.Scheduler.VacateRuns: all jobs requeued in one pass get the same time stamp.
- Factory.Cluster.MaterializeCluster: counts are unbounded integers, and a factory's limits do not change while it runs.
- Shadow.EstablishReconnectWithRetry: the handshake itself is one of three outcomes.
- Negotiate.Round.HandleReject: the representative named in a reject reason is given already parsed.
