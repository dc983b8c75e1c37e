# TaskPaw: verified models of the stateful cores

TaskPaw watches long-running jobs on a small fleet of machines. This project models
the parts of it that keep state across calls, threads or crashes, and proves what
each of them keeps. Every module is one component:

| file | component |
|---|---|
| `HubUpgrade.dfy` | the journalled upgrade of the Hub service on macOS |
| `EventLineage.dfy` | the event counter kept in two records, its reservations and its offline repair |
| `EventQueue.dfy` | the agent's event queue, its acknowledgements and its published cursor |
| `EventDelivery.dfy` | the queue over its durable counter, boot after boot |
| `GpuLease.dfy` | the process-wide GPU lease with its ordered waiters |
| `Lifecycle.dfy` | startup, deactivation, cleanup and the stopped event |
| `Supervisor.dfy` | register, reconfigure, stop, workers and cleanups of one monitor |
| `ActivityStore.dfy` | the bounded store of activity facts |
| `MirrorLog.dfy` | the write side of the task log: ids, mirroring under a cap, deferred counts |
| `Reconcile.dfy` | the backward scan of the task log at boot |
| `LogPages.dfy` | the read side of the task log: merged days, cached summaries, pages |
| `Power.dfy` | the power sampler: windows, buckets, owner counters, readings |
| `PowerHistory.dfy` | the sampler's bounded history series |
| `Wrappers.dfy` | `Option` and `Result` |

An object whose methods update its fields is a class with those fields. Its methods
are proved equal to a function of the old state, and the properties are proved of
that function over every state, call and run. Concurrent code is a machine of small
steps, one per lock section or blocking call, and the properties hold of every
interleaving. A crash or an I/O error may come before any file operation.

Where a property does not hold of the code, the project says so with a concrete
case and proves exactly when it holds:

- An upgrade that crashes between the staged program and its journal (or between
  the two unlinks after a refused stop) leaves an orphaned staged program that
  blocks every later upgrade (`CrashThenRecover`, `OrphanStays`).
- A cleanup can begin inside the deactivation only where a `stop` called neither by
  the registry nor by `finish` takes part, on the deactivating thread itself; with
  such a caller the stopped event can also come before the cleanup has returned
  (`OnlyDirectStopsNest`, `CleanupInsideDeactivation`, `StoppedBeforeCleaned`).
- With the registry and `finish` as the only callers, a process is told it has
  stopped without its cleanup exactly when the deactivation raised in the startup's
  own `finish`, or in the registry's `stop` after startup with the cleanup not taken
  on (`StoppedMeansCleaned`, which carries the result; `RaisingAbandons` only names
  the guard, and `StoppedWithoutCleanup` is a run that ends so).
- On any clock, open work is let go without a proof that covers it only in two ways
  (`RunsLetGo`). The interrupt of an actor other than the parent covers no fact, yet
  it takes away the summary of its scope (`OtherActorSweeps`); the interrupts the
  hooks build name the parent. And a proof that takes a summary away covers a
  parent's work in it exactly up to a day from its own time (`RetiringCovers`), so
  work stamped later than that goes with it when the clock steps back
  (`SteppedBackLoses`). Hooks stamp their facts before they wait for the store, so
  facts come out of order: by no more than the freshness a store is called with,
  which is 300 seconds by default, that alone loses nothing
  (`RunsDischargeUnderProof`, `HookRunsCover`).
- With a negative queue size the overflow callback counts more than was dropped
  (`OverflowCountIsExact`).
- A day file whose read fails part way is summed up in the cache as if it were the
  whole day, and later queries for one task skip it (`CachedRightWhenWhole`,
  `FailedReadHidesADay`).
- A part of a window is negative exactly when its two GPU readings are negative on
  average, and the whole exactly when that outweighs the CPU and the baseline; the
  displayed figure clamps the readings, the integrated energy does not
  (`WindowNonNegative`, `WindowSign`).
- The energy between two readings is taken as none where the sum of its windows is
  negative, so two intervals make the whole exactly when the middle reading lies
  between the others (`BetweenIsExact`, `BetweenAdds`).
- A bucket of the power history straddles two points exactly when the offset from
  UTC is not a whole number of buckets (`BucketsFitWholeOffsets`).

## Model

| member | source | states |
|---|---|---|
| HubUpgrade.RollBack | taskpaw_v3/hub/macos_service.py:527-580 | from any disk an uncommitted upgrade can leave, recovery cut off after any effect is still such a disk, and completed it is exactly the old installation |
| HubUpgrade.RollForward | taskpaw_v3/hub/macos_service.py:527-580 | from any disk a committed upgrade can leave, recovery cut off anywhere stays committed, and completed it is exactly the new installation |
| HubUpgrade.RecoveriesConverge | taskpaw_v3/hub/macos_service.py:527-580 | recoveries interrupted anywhere, any number of times, never change the phase and settle as soon as one runs through |
| HubUpgrade.StageStates | taskpaw_v3/hub/macos_service.py:587-621 | which of the settled, orphaned and prepared disks each prefix of staging leaves |
| HubUpgrade.AbandonStates | taskpaw_v3/hub/macos_service.py:622-627 | the same for the withdrawal after the old job refuses to stop |
| HubUpgrade.SwapStates | taskpaw_v3/hub/macos_service.py:628-634 | every prefix of the swap keeps a copy of the old program and passes recovery's checks |
| HubUpgrade.CommitStates | taskpaw_v3/hub/macos_service.py:641-644 | the journal's second write is the point from which the upgrade can only go forward |
| HubUpgrade.CrashThenRecover | taskpaw_v3/hub/macos_service.py:587-644 | after a crash anywhere and one recovery the outcome is exactly the old or the new installation, if and only if the crash was not in one of the two orphan windows; it is the new one if and only if the commit was durable |
| HubUpgrade.HistoriesAreLawful | taskpaw_v3/hub/macos_service.py:646-705 | any history of installs, failures, crashes and recoveries stays among the admissible disks, and one more recovery ends in an installation with at most an orphan beside it |
| HubUpgrade.OrphanStays | taskpaw_v3/hub/macos_service.py:587-593 | an orphaned staged program survives every history and blocks every install |
| HubUpgrade.NoHistoryLosesTheProgram | taskpaw_v3/hub/macos_service.py:628-644 | no history loses every copy of the old program before the commit, and otherwise the program the manifest names is in place |
| HubUpgrade.RecoversOnlyItsOwn | taskpaw_v3/hub/macos_service.py:527-580 | recovery goes ahead if and only if manifest, programs and plist are those of its journal's upgrade and the program to go on with or back to is there; otherwise it touches nothing |
| HubUpgrade.InstallsOverInstallation | taskpaw_v3/hub/macos_service.py:582-593 | an install goes ahead exactly on a complete installation of another program |
| HubUpgrade.InstalledIsExact | taskpaw_v3/hub/macos_service.py:582-644 | a committed install over an installation leaves exactly the new installation |
| HubUpgrade.UndoneIsExact | taskpaw_v3/hub/macos_service.py:622-640 | an install that is withdrawn or rolled back leaves exactly the old installation |
| HubUpgrade.Manager.RecoverUpgrade | taskpaw_v3/hub/macos_service.py:527-580 | the recovery command, with any operation failing or dying, leaves the disk at a prefix of the specified recovery; without a failing operation it succeeds if and only if it is admitted and launchd lets it; a job that does not stop is left untouched |
| HubUpgrade.Manager.RollBackFiles | taskpaw_v3/hub/macos_service.py:563-578 | its rollback branch does the same effects in the same order, and refuses where the specification does |
| HubUpgrade.Manager.RestoreManifest | taskpaw_v3/hub/macos_service.py:575-578 | the end of a rollback leaves the disk at a prefix of the plan's last four effects, and at their end when it succeeds |
| HubUpgrade.Manager.InstallProgram | taskpaw_v3/hub/macos_service.py:582-644 | an install, however launchd and the file system answer, is one of the cut-off or rolled-back histories; on success over an installation exactly the new one is left; with no failing file operation it succeeds if and only if no leftover is in the way, the old job stops and the new one starts, and otherwise leaves exactly the old one if the job to go back from stops |
| EventLineage.OpenMatches | taskpaw_v3/core/state.py:240-261 | a session opens exactly when both records are good and equal, the expected server matches and an id is left |
| EventLineage.ReservesExactly | taskpaw_v3/core/state.py:263-289 | a reservation is accepted if and only if it asks for the next id and both records are its own, or on a retry its target on the anchor or on both; every damage is refused by name |
| EventLineage.ReserveSucceeds | taskpaw_v3/core/state.py:263-289 | it succeeds if and only if the session is open and free, the request is accepted and both writes complete; a refused one changes nothing |
| EventLineage.ReserveKeepsPair | taskpaw_v3/core/state.py:263-289 | after any reservation, failed or not, the records share one identity and the anchor is at most one id ahead |
| EventLineage.RetryCompletes | taskpaw_v3/core/state.py:263-289 | a retry with the same id is accepted after every partial write and completes with both records at the target |
| EventLineage.StepKeepsInv | taskpaw_v3/core/state.py:240-295 | every step of a boot, a reservation, a close, a crash, a damaged record and an offline repair keeps both counters above all issued ids |
| EventLineage.NoIdIsIssuedTwice | taskpaw_v3/core/state.py:263-289 | over any history no id is issued twice in one stream, and a session that opens starts above all of them |
| EventLineage.LeaseIsHeld | taskpaw_v3/core/state.py:240-295 | at every step a session has the lease if and only if it is not closed or a reservation is under way, and while it has it no boot and no repair takes place |
| EventLineage.NewLineageStarts | taskpaw_v3/agent/state.py:124-154 | a new lineage starts at id 1 and a migrated one at its old counter, in a stream of its own, and neither replaces a pair that can be trusted |
| EventLineage.RecoveryReopens | taskpaw_v3/agent/state.py:154-168 | the record recovery writes opens, lies above every issued id, and a recovery cut off between its writes can be run again to the same end |
| EventLineage.OneSurvivorSuffices | taskpaw_v3/agent/state.py:154-168 | with only one record surviving recovery loses no issued id and skips at most one that was only reserved |
| EventLineage.ReserveIsItsSteps | taskpaw_v3/core/state.py:263-289 | the whole reservation and its interleaved steps end in the same session and disk |
| EventLineage.StateSession.ReserveNext | taskpaw_v3/core/state.py:263-289 | the method's result, session and both files are those of the specified reservation, with a close that arrives meanwhile |
| EventLineage.StateSession.Close | taskpaw_v3/core/state.py:291-295 | the lease is given up at once unless a reservation is under way |
| EventLineage.RecoverOffline | taskpaw_v3/agent/state.py:84-180 | the loop over both record files chooses the larger of two agreeing records, or the only one, and refuses otherwise |
| EventQueue.AddKeepsInv | taskpaw_v3/core/protocol.py:128-135 | an added event keeps the queue a gapless interval and accounts for what an overflow drops |
| EventQueue.FetchKeepsInv | taskpaw_v3/core/protocol.py:174-191 | so does a payload with any acknowledgement |
| EventQueue.NothingIsLostSilently | taskpaw_v3/core/protocol.py:170-191 | over any run every event ever added is queued, was returned, or was dropped by a counted overflow, and the queued ids end just below the next one |
| EventQueue.AckTrimsOnlyReturned | taskpaw_v3/core/protocol.py:174-191 | an acknowledgement removes exactly the ids up to it, and only events some payload has returned |
| EventQueue.OfferedIsAccepted | taskpaw_v3/core/protocol.py:174-191 | an acknowledgement is accepted if and only if it lies from -1 to the last id offered, so for every id a payload returned |
| EventQueue.OverflowCountIsExact | taskpaw_v3/core/protocol.py:131-135 | a full queue drops as many of its oldest events as do not fit, and the overflow callback counts them exactly if and only if the configured size is not negative |
| EventQueue.CursorRoundTrip | taskpaw_v3/core/state.py:314-344 | the reader accepts every published cursor and reads it back unchanged, if and only if a usable durable identity stands behind the queue |
| EventQueue.AcceptedIsPublished | taskpaw_v3/core/state.py:314-344 | the reader accepts only cursors some durable queue could publish, and reads every key as it stands |
| EventQueue.CursorTells | taskpaw_v3/core/protocol.py:193-205 | each key of a published cursor carries the value it is named for |
| EventQueue.CursorResumes | taskpaw_v3/core/protocol.py:174-205 | acknowledging a cursor's high-water mark is accepted and yields exactly the queued events no payload has returned |
| EventQueue.EventQueue.AddEvent | taskpaw_v3/core/protocol.py:84-136 | an event is visible only after both records hold the id above it; an addition succeeds if and only if the queue is open, the level is known, an id is left and the reservation succeeds; a refused one changes nothing |
| EventQueue.EventQueue.FetchPayload | taskpaw_v3/core/protocol.py:174-191 | the queue after a payload is the specified one, and an acknowledgement never offered is refused |
| EventQueue.EventQueue.NetworkPayload | taskpaw_v3/core/protocol.py:211-220 | a caller that names a stream or a boot must name this queue's, and gets the cursor as it stands after the payload |
| EventDelivery.StepKeepsInv | taskpaw_v3/core/protocol.py:84-136 | every boot, reservation step, failure, crash, repair and payload keeps the queue at its session's counter and its events among those issued in its stream |
| EventDelivery.AnEventCanJoin | taskpaw_v3/core/protocol.py:84-136 | in an open session over undamaged records the reservation of the next id and its two writes can be taken, and then, and only then, the event joins the queue |
| EventDelivery.IdNamesOneEvent | taskpaw_v3/core/protocol.py:116-136 | over any history an id of a stream names one event in every queue and every payload there has been, and it is an id the records issued |
| GpuLease.StepKeepsInv | taskpaw_v3/core/gpu_lease.py:75-148 | every operation at any time keeps: the holder does not wait, a held lease has no reservation, a free one with waiters is reserved for the first |
| GpuLease.TryOnFreeLease | taskpaw_v3/core/gpu_lease.py:92-115 | a try on an open free lease fails if and only if a live reservation belongs to another run, the earliest waiter |
| GpuLease.TryOnHeldLease | taskpaw_v3/core/gpu_lease.py:92-115 | a try on a held lease is granted to the holder alone, who only renews its title; any other run waits with what it asked for |
| GpuLease.HolderStays | taskpaw_v3/core/gpu_lease.py:92-148 | a held lease stays with its holder through every operation but its own release |
| GpuLease.OnlyTriesTake | taskpaw_v3/core/gpu_lease.py:92-148 | a free lease changes hands only to a run whose try is granted |
| GpuLease.ReleaseFrees | taskpaw_v3/core/gpu_lease.py:117-126 | a release is one if and only if the holder asks for it, frees the lease, and otherwise changes nothing |
| GpuLease.HeldUntilReleased | taskpaw_v3/core/gpu_lease.py:92-126 | over any run, until the holder releases it stays the holder and no other run is granted the lease |
| GpuLease.FirstIsReserved | taskpaw_v3/core/gpu_lease.py:85-89 | a free lease somebody waits for is kept for the first waiter, by a running reservation or a new one of 30 s or two of its intervals |
| GpuLease.CloseAnswers | taskpaw_v3/core/gpu_lease.py:139-148 | the lease closes if and only if nobody holds it, and otherwise nothing changes |
| GpuLease.WithdrawForgets | taskpaw_v3/core/gpu_lease.py:128-133 | a withdrawn run neither waits nor keeps a reservation, and the holder stays |
| GpuLease.LabelNames | taskpaw_v3/core/gpu_lease.py:150-158 | who blocks is the holder, or the first waiter of a free lease, or nobody |
| GpuLease.ClosedForever | taskpaw_v3/core/gpu_lease.py:139-148 | once closed, the lease never again has a holder, a waiter or a reservation |
| GpuLease.PruneDropsExactly | taskpaw_v3/core/gpu_lease.py:75-84 | a prune drops a waiter if and only if it is stale or its own reservation has run out |
| GpuLease.PruneKeepsWaiter | taskpaw_v3/core/gpu_lease.py:75-89 | a waiter that retries before max(30 s, twice its interval) are over is neither stale nor loses its reservation, and nobody overtakes it |
| GpuLease.PatientStep | taskpaw_v3/core/gpu_lease.py:75-133 | one step past such a waiter serves it, serves a run ahead of it, or leaves it waiting with nobody new ahead |
| GpuLease.FifoFairness | taskpaw_v3/core/gpu_lease.py:75-115 | over a whole run only runs registered earlier are served before it, each at most once, and unless served it still waits at the end |
| GpuLease.HeadIsServed | taskpaw_v3/core/gpu_lease.py:92-115 | a patient waiter with nobody ahead takes a free lease with its next try |
| GpuLease.RefusedTryWaits | taskpaw_v3/core/gpu_lease.py:92-115 | a refused try registers the run behind exactly the runs already waiting |
| GpuLease.GpuLease.Prune | taskpaw_v3/core/gpu_lease.py:75-89 | the pruning loop and the reservation that follows equal the specification |
| GpuLease.GpuLease.TryAcquire | taskpaw_v3/core/gpu_lease.py:92-115 | the object's new state and answer are the specified ones, of which `HolderStays`, `TryOnHeldLease` and `TryOnFreeLease` say what they are |
| GpuLease.GpuLease.Release | taskpaw_v3/core/gpu_lease.py:117-126 | only the holder's release frees the lease, and it hands out the next reservation |
| GpuLease.GpuLease.Withdraw | taskpaw_v3/core/gpu_lease.py:128-133 | a withdrawn run neither waits nor keeps a reservation |
| GpuLease.GpuLease.CloseIfIdle | taskpaw_v3/core/gpu_lease.py:139-148 | the lease closes if and only if nobody holds it |
| GpuLease.GpuLease.CurrentLabel | taskpaw_v3/core/gpu_lease.py:150-158 | who blocks is the holder, otherwise the run the lease is reserved for |
| Lifecycle.StepKeepsInv | taskpaw_v3/core/lifecycle.py:238-287 | every step of every activation of `stop`, `finish`, `shutdown` and the release of a hold keeps the coordination invariant |
| Lifecycle.OneOrderlyCleanup | taskpaw_v3/core/lifecycle.py:259-287 | over every interleaving deactivation and cleanup begin at most once, the cleanup never during startup, and only with the deactivation over or on top of it on its own thread |
| Lifecycle.OnlyDirectStopsNest | taskpaw_v3/core/lifecycle.py:259-270 | a cleanup that begins before the deactivation is over runs on top of it, and one of the two was called neither by the registry nor by `finish` |
| Lifecycle.SomebodyMovesOn | taskpaw_v3/core/lifecycle.py:259-287 | in every state with a call under way some call can take its next step: nobody waits for the revoke lock in a circle |
| Lifecycle.QuietIsStopped | taskpaw_v3/core/lifecycle.py:191-211 | when every call has ended, a stop that was asked for, with no hold left and the startup finished, has been announced, and its cleanup has returned or was abandoned by a raising deactivation |
| Lifecycle.EveryStopCanEnd | taskpaw_v3/core/lifecycle.py:191-287 | so from every state of every run, once a stop is due, the calls under way can all end by themselves, callbacks that return provided, and the stopped event is then set |
| Lifecycle.StoppedMeansCleaned | taskpaw_v3/core/lifecycle.py:55-92 | with no other caller of `stop` the cleanup begins only after the deactivation is complete, and at the stopped event it has returned if and only if no raising deactivation abandoned it |
| Lifecycle.RaisingAbandons | taskpaw_v3/core/lifecycle.py:259-287 | names the guard that `StoppedMeansCleaned` refers to: a raising deactivation abandons the cleanup if and only if it ran in `finish`, or found the startup over and the cleanup not taken on |
| Lifecycle.StoppedWithoutCleanup | taskpaw_v3/core/lifecycle.py:191-211 | with the registry as the only caller a raising deactivation can leave the stopped event set, every call ended and the cleanup never run |
| Lifecycle.StoppedBeforeCleaned | taskpaw_v3/core/lifecycle.py:191-211 | a direct caller of `stop` can be overtaken by the stopped event |
| Lifecycle.CleanupInsideDeactivation | taskpaw_v3/core/lifecycle.py:259-270 | through the reentrant lock a signal can start the cleanup inside the deactivation |
| Supervisor.StopAfterStart | taskpaw_v3/monitors/supervisor.py:199-216 | when the plugin's stop begins its start is over and no worker will enter it again |
| Supervisor.StepKeepsInv | taskpaw_v3/monitors/supervisor.py:115-369 | every step of operations, workers, cleanups and the watchdog keeps the registry in order |
| Supervisor.OnlyRegisteredRuns | taskpaw_v3/monitors/supervisor.py:460-516 | only the registered instance can have a worker that runs or is about to |
| Supervisor.InstallsAlone | taskpaw_v3/monitors/supervisor.py:137-182 | when register or reconfigure installs an instance every other one is completely finished |
| Supervisor.CompleteForGood | taskpaw_v3/monitors/supervisor.py:218-248 | a finished instance stays finished and is never started or stopped again |
| Supervisor.EveryRunHasOneOwner | taskpaw_v3/monitors/supervisor.py:115-369 | over all interleavings: one worker at most, no stop during a start, one successful stop at most, and an instance leaves only when finished |
| Supervisor.EveryInstanceCanEnd | taskpaw_v3/monitors/supervisor.py:199-248 | no reachable state is stuck: wherever the threads of an instance stand, their own next steps finish it, and nothing else changes |
| Supervisor.ReservesWhenOver | taskpaw_v3/monitors/supervisor.py:150-163 | the id is reserved for a first instance if and only if the supervisor is open, no operation is under way and everything before is over |
| Supervisor.ReplacesWhenRunning | taskpaw_v3/monitors/supervisor.py:318-333 | it is reserved for a replacement if and only if, besides, an instance is registered that is not stopping |
| Supervisor.FirstInstalls | taskpaw_v3/monitors/supervisor.py:164-182 | the reserved operation registers one new instance, not yet started, and then ends |
| Supervisor.ReplacementWaits | taskpaw_v3/monitors/supervisor.py:334-354 | a replacement is made beside the old instance and waits exactly until everything before it is over |
| Supervisor.ReplacementInstalls | taskpaw_v3/monitors/supervisor.py:355-369 | it is registered then unless cancelled or the supervisor closed; given up, it is retired |
| Supervisor.StopAsksAll | taskpaw_v3/monitors/supervisor.py:250-264 | a stop asks every registered and retired instance, and no other, and cancels the operation under way |
| Supervisor.StartsExactly | taskpaw_v3/monitors/supervisor.py:460-487 | a worker is launched if and only if the registered instance was never asked to stop, has none, and the supervisor is open; one that cannot be made counts as a failed start |
| Supervisor.StaysClosed | taskpaw_v3/monitors/supervisor.py:184-297 | a closed supervisor stays closed and runs nothing |
| Supervisor.ClosedLaunchesNothing | taskpaw_v3/monitors/supervisor.py:460-470 | it launches no worker and registers no replacement any more |
| Supervisor.WorkerComesUp | taskpaw_v3/monitors/supervisor.py:488-516 | a launched worker enters the start of the plugin unless a stop was asked for, and a failed start asks for one |
| Supervisor.RetiringPublishes | taskpaw_v3/monitors/supervisor.py:218-240 | retiring publishes a cleanup if and only if there is none or the last one failed |
| Supervisor.CleanupRuns | taskpaw_v3/monitors/supervisor.py:199-216 | a cleanup waits for the start to be over, and one whose stop fails is over but has to be published again |
| Supervisor.Supervisor.Prune | taskpaw_v3/monitors/supervisor.py:115-135 | only finished instances are dropped from the registry and from the retired ones |
| Supervisor.Supervisor.Register | taskpaw_v3/monitors/supervisor.py:150-163 | the id is reserved only when nothing of it is registered, pending or retired |
| Supervisor.Supervisor.Reconfigure | taskpaw_v3/monitors/supervisor.py:318-333 | a replacement is reserved only for an instance that is registered and not stopping |
| Supervisor.Supervisor.OldGone | taskpaw_v3/monitors/supervisor.py:347-354 | the wait for the old instance ends when neither it nor a retired one is left |
| Supervisor.Supervisor.Replace | taskpaw_v3/monitors/supervisor.py:355-358 | the replacement is installed unless it was cancelled or the supervisor closed |
| Supervisor.Supervisor.Stop | taskpaw_v3/monitors/supervisor.py:250-264 | every instance of the id is asked to stop and the operation under way is cancelled |
| Supervisor.Supervisor.RetireOne | taskpaw_v3/monitors/supervisor.py:218-240 | a cleanup is published unless one is at work or has succeeded |
| Supervisor.Supervisor.StartOne | taskpaw_v3/monitors/supervisor.py:460-487 | a worker is launched only for an instance that is not stopping and has none |
| ActivityStore.CollapseLawful | taskpaw_v3/integrations/activity_writer.py:518-532 | a verified session end lets go of open facts, stored or summed up, only where it covers them, and of summaries only of its session |
| ActivityStore.ExpireLawful | taskpaw_v3/integrations/activity_writer.py:611-652 | expiry lets go of an open fact only under a proof that covers it, or leaves it remembered by its scope's summary or its tool's overflow bit, for all work of up to a time that may lie as far behind the clock as what expires |
| ActivityStore.MakeRoomLawful | taskpaw_v3/integrations/activity_writer.py:707-722 | so does making room in a full store: only under a proof that covers the fact |
| ActivityStore.AdmitKeeps | taskpaw_v3/integrations/activity_writer.py:673-756 | an admission keeps all caps and unique ids, leaves the new fact stored or covered, and lets open work of up to a time within its freshness go only under a proof that covers it or the interrupt of another actor than the parent, of exactly its scope and at most a day older |
| ActivityStore.RefusedKeeps | taskpaw_v3/integrations/activity_writer.py:655-670 | a capacity refusal leaves every stored fact in place, lets nothing go whatever proofs there are, and remembers the refused one, at worst by a store-wide bit |
| ActivityStore.FinalsRaiseWatermark | taskpaw_v3/integrations/activity_writer.py:738-755 | a stored final lifts its tool's watermark to its own time at least |
| ActivityStore.CollapseClears | taskpaw_v3/integrations/activity_writer.py:518-532 | after a verified session end exactly the facts it does not cover and the other verified ends are left, and within a day of its time no summary of its session |
| ActivityStore.AdmittedEndClears | taskpaw_v3/integrations/activity_writer.py:673-756 | so after an admitted verified end it is stored, no stored fact but a verified end is covered by it, and within a day of its time no summary of its session is left |
| ActivityStore.AdmittedEndLeaves | taskpaw_v3/integrations/activity_writer.py:673-756 | a new verified end that finds room leaves, besides itself, exactly the facts that outlive an expiry and that it does not cover |
| ActivityStore.ConcludedInterruptClears | taskpaw_v3/integrations/activity_writer.py:738-744 | an admitted interrupt that no proof covers takes away the summary of its scope, exactly in its time window, and no fact |
| ActivityStore.ExpireLeavesExactly | taskpaw_v3/integrations/activity_writer.py:611-652 | expiry leaves a stored fact if and only if it is young enough for its kind and, unless it is a verified end, no verified end in the past covers it and, unless it is an interrupt, no expiring interrupt does |
| ActivityStore.MakeRoomLeavesExactly | taskpaw_v3/integrations/activity_writer.py:707-722 | making room leaves everything while there is room, otherwise exactly what outlives an expiry, and if that is not enough only interrupts and what no final interrupts |
| ActivityStore.RoomAdmits | taskpaw_v3/integrations/activity_writer.py:673-756 | a new fact with room for its tool, for one more fact and for its session and turn is admitted |
| ActivityStore.NewFactIsStored | taskpaw_v3/integrations/activity_writer.py:673-756 | an admitted fact of a new id that no stored proof covers is stored as it was given |
| ActivityStore.RepeatIsAdmitted | taskpaw_v3/integrations/activity_writer.py:673-756 | a fact that is stored already is admitted again, even in a full store |
| ActivityStore.RetainSums | taskpaw_v3/integrations/activity_writer.py:582-608 | work with session, turn and actor named is added to the summary of its scope while there is room for one |
| ActivityStore.RetainMarks | taskpaw_v3/integrations/activity_writer.py:582-608 | any other work to be remembered marks its tool and touches nothing else |
| ActivityStore.PublishAnswers | taskpaw_v3/integrations/activity_writer.py:759-800 | a malformed offer changes nothing; any other is published, limited or refused as its admission says |
| ActivityStore.ConfirmAnswers | taskpaw_v3/integrations/activity_writer.py:914-944 | only session ends of the parent with their process named are confirmed, and one that is not leaves everything as it was |
| ActivityStore.RunsForgetNothing | taskpaw_v3/integrations/activity_writer.py:611-800 | over any run, on any clock, open work stays stored or remembered unless an interrupt of its scope or the verified end of its session was stored or admitted; overflow bits never go and watermarks never fall |
| ActivityStore.RetiringCovers | taskpaw_v3/integrations/activity_writer.py:460-471 | a proof that may take a summary away covers a parent's work summed up in it if and only if the work is at most a day later |
| ActivityStore.RunsLetGo | taskpaw_v3/integrations/activity_writer.py:518-756 | over any run, on any clock, open work stays known, or a proof covers it, or another actor's interrupt swept its scope, or it lies more than a day after the proof of its scope or session |
| ActivityStore.RunsDischargeUnderProof | taskpaw_v3/integrations/activity_writer.py:811-832 | when no action's clock is more than d behind an earlier one and every accepted freshness is at least d, the last of these does not happen: the proof covers the fact, or is the interrupt of another actor than the parent, of exactly its scope and at most a day older |
| ActivityStore.HookRunsCover | taskpaw_v3/integrations/activity_writer.py:243-253 | with interrupts that name the parent, as the hooks build them, only a stored or admitted proof that covers the fact lets it go then |
| ActivityStore.SteppedBackLoses | taskpaw_v3/integrations/activity_writer.py:738-744 | with a clock that steps back by more than a day, two admissions lose a parent's work under a parent's interrupt that does not cover it |
| ActivityStore.OtherActorSweeps | taskpaw_v3/integrations/activity_writer.py:738-744 | the interrupt of another actor makes the store forget old work of its scope that no proof covers |
| ActivityStore.ActivityStore.DeleteRows | taskpaw_v3/integrations/activity_writer.py:518-523 | deleting by id the rows that fail a test leaves exactly those that pass, in order |
| ActivityStore.ActivityStore.RetainUnknown | taskpaw_v3/integrations/activity_writer.py:582-608 | a fact is added to its scope's summary, or marks its tool when its identity is incomplete or the summaries are full |
| ActivityStore.ActivityStore.ProofFor | taskpaw_v3/integrations/activity_writer.py:535-542 | a proof is found if and only if one in the time window covers the fact |
| ActivityStore.ActivityStore.ExpireFacts | taskpaw_v3/integrations/activity_writer.py:611-652 | the three expiry loops equal the specified folds |
| ActivityStore.ActivityStore.AdmitFact | taskpaw_v3/integrations/activity_writer.py:673-756 | admission answers and, unless refused, changes the tables as specified; `AdmitKeeps`, `AdmittedEndLeaves` and `NewFactIsStored` say what that leaves |
| ActivityStore.ActivityStore.PublishHook | taskpaw_v3/integrations/activity_writer.py:759-800 | a refusal rolls the tables back and records only the coverage, an inconsistent fact rolls back everything |
| ActivityStore.ActivityStore.ConfirmSessionEnds | taskpaw_v3/integrations/activity_writer.py:914-944 | verified session ends are admitted together or not at all |
| MirrorLog.RecordKeepsInv | taskpaw_v3/core/tasklog.py:361-449 | every record keeps ids increasing, the cap per task and day, and counts each mirror call once |
| MirrorLog.RollKeepsInv | taskpaw_v3/core/tasklog.py:396-403 | a day rollover flushes the pending counts under the old day and starts from what the new day's file holds |
| MirrorLog.EveryMirrorIsAccounted | taskpaw_v3/core/tasklog.py:304-449 | over any run the mirror calls equal the mirrored rows plus the counts in suppressed rows plus the pending ones, at most the cap is inserted per task and day, and ids increase by day and number |
| MirrorLog.StopLeavesNothingPending | taskpaw_v3/core/tasklog.py:404-405 | after an agent stop every mirror call is in a row |
| MirrorLog.InsertNumbers | taskpaw_v3/core/tasklog.py:304-331 | a row takes the next number, or one above a base that grows with the time of day while the day file is unread |
| MirrorLog.MirrorWrites | taskpaw_v3/core/tasklog.py:406-438 | below 500 a mirror call writes one mirrored row; above it, the row that says so once per task, and a suppressed row with all that is pending if and only if the last is an hour old |
| MirrorLog.ScanRestores | taskpaw_v3/core/tasklog.py:259-277 | after a scan the counter is the larger of its own and the file's numbers, the mirrored counts are those of the file, and exactly the tasks with a suppressed row are capped |
| MirrorLog.RestartContinues | taskpaw_v3/core/tasklog.py:247-277 | a restart that reads the day's file uses no number of the day again and counts what is mirrored already towards the cap, and exactly the tasks whose rows say so are capped |
| MirrorLog.TaskLog.FlushDeltas | taskpaw_v3/core/tasklog.py:346-359 | the loop writes one suppressed row per pending task and clears it |
| MirrorLog.TaskLog.ScanToday | taskpaw_v3/core/tasklog.py:259-277 | the scan of the day file restores the counter, the mirrored counts and the capped tasks |
| MirrorLog.TaskLog.RecordCall | taskpaw_v3/core/tasklog.py:361-449 | the object's new state is the specified one for every kind of call |
| MirrorLog.TaskLog.MirrorOne | taskpaw_v3/core/tasklog.py:406-438 | mirrored below the cap, otherwise counted and reported once an hour |
| Reconcile.ScanMeansForward | taskpaw_v3/core/tasklog.py:633-669 | reading rows backwards gives what running them forwards gives, for any activities open before them |
| Reconcile.ScanIsForward | taskpaw_v3/core/tasklog.py:633-669 | the scan back to the last boundary equals the forward machine over the whole log |
| Reconcile.ScanFindsOpenActivities | taskpaw_v3/core/tasklog.py:633-669 | the scan reports an activity with a start row if and only if nothing after that row starts or closes it or ends the session, each once, most recent first |
| Reconcile.ExitMeans | taskpaw_v3/core/tasklog.py:670-683 | the last exit was clean if and only if the last session boundary is a stop, a first run if and only if nothing is stored, otherwise unclean at the last row's time |
| Reconcile.FoundIsOpen | taskpaw_v3/core/tasklog.py:633-683 | the start rows found are those of the activities left open, each once, the most recent first |
| Reconcile.RecordedOnce | taskpaw_v3/core/tasklog.py:674-682 | once the interrupted rows are recorded nothing is left open: reconciling again finds nothing |
| Reconcile.StoredLog.ReconcileLog | taskpaw_v3/core/tasklog.py:612-683 | clean if and only if the last session boundary is a stop, first if and only if the log is empty, otherwise unclean at the last row's time, with the start rows of exactly the activities left open |
| LogPages.PagesCoverTheList | taskpaw_v3/core/tasklog.py:579-610 | following the returned key yields exactly the wanted rows, each once, newest first, at any page size |
| LogPages.MatchesIsAskedFor | taskpaw_v3/core/tasklog.py:523-541 | a row matches if and only if it is of the task and one of the severities asked for, and some label holds the text as a stretch of it |
| LogPages.PagesCoverTheDays | taskpaw_v3/core/tasklog.py:543-610 | over one right cache, whatever is in it, the pages of the merged days hold each row asked for, on disk or in memory, once, newest first |
| LogPages.LogStore.Walk | taskpaw_v3/core/tasklog.py:543-610 | asking again with each returned key, every query changing the cache and reading whole, shows each row asked for, on disk or in memory, once, newest first |
| LogPages.LogStore.WholePage | taskpaw_v3/core/tasklog.py:543-610 | one page and what its key leaves are the rows wanted, a page that is not the last is full, and the cache left behind is right again |
| LogPages.LogStore.StartDay | taskpaw_v3/core/tasklog.py:396-403 | a rollover keeps memory, cache and their rightness, so both may hold several days; only a scan that meets a row makes the new day the latest |
| LogPages.SkippingLosesNothing | taskpaw_v3/core/tasklog.py:580-586 | skipping a day whose cached tasks lack the one asked for drops no match |
| LogPages.CachedIsShown | taskpaw_v3/core/tasklog.py:504-521 | a right cached summary is that of the rows the day shows |
| LogPages.CacheableMeans | taskpaw_v3/core/tasklog.py:504-512 | a day is summed up if and only if there is a folder, a later day has rows, and each of its rows in memory was read too |
| LogPages.CachedRightWhenWhole | taskpaw_v3/core/tasklog.py:504-512 | what a read puts in the cache is right if and only if the read was whole |
| LogPages.FailedReadHidesADay | taskpaw_v3/core/tasklog.py:504-512 | after a failed read a row on disk is missing from the answers |
| LogPages.WholeReadsKeepExact | taskpaw_v3/core/tasklog.py:504-521 | queries whose reads are whole keep every cached summary right |
| LogPages.WriteKeepsExact | taskpaw_v3/core/tasklog.py:329-331 | writing today's row keeps the other summaries right, even when it pushes one out of memory |
| LogPages.ViewShows | taskpaw_v3/core/tasklog.py:504-514 | a day shows exactly the rows read and the rows in memory, in order |
| LogPages.WriteShows | taskpaw_v3/core/tasklog.py:304-331 | a write shows its row, saved or not, on its day, and loses none but the oldest row of a full memory when that is not on disk |
| LogPages.LogStore.Insert | taskpaw_v3/core/tasklog.py:304-331 | the bounded memory, the file and the cache after a write |
| LogPages.LogStore.DaySummary | taskpaw_v3/core/tasklog.py:516-521 | the count and tasks of a day are right whenever the cache is and the read was whole |
| LogPages.LogStore.Gather | taskpaw_v3/core/tasklog.py:579-604 | the loop over days and rows with both early stops finds the first matches of the full listing |
| LogPages.LogStore.Query | taskpaw_v3/core/tasklog.py:543-610 | the page and the key to go on from are those of the listing of the selected days |
| LogPages.SelectedAreNewest | taskpaw_v3/core/tasklog.py:570-578 | a query reads the day asked for, or for one task the newest days held and leaves out only older ones, or today |
| LogPages.HeldDays | taskpaw_v3/core/tasklog.py:499-502 | a day is held if and only if it has a file or rows in memory |
| LogPages.SortDays | taskpaw_v3/core/tasklog.py:499-502 | the days with a file or with rows in memory, newest first |
| Power.ResolvedIsSane | taskpaw_v3/core/power.py:109-130 | for every accepted configuration and platform the configured values are used, an idle power gives way only to a platform TDP below it, and the CPU's share stays between idle and full load |
| Power.CpuCurve | taskpaw_v3/core/power.py:126-130 | the CPU's share is idle at no load or without a reading, the TDP at full load, and never falls as the load grows |
| Power.WattsIsWall | taskpaw_v3/core/power.py:133-146 | the figure of the moment is the clamped gpu, the cpu and the baseline over the supply's efficiency |
| Power.CalibrationInverts | taskpaw_v3/core/power.py:133-137 | a baseline worked out from a socket reading gives that reading back |
| Power.EnergyIsWallEnergy | taskpaw_v3/core/power.py:622-626 | a window is (gpu + cpu + base) over the supply's efficiency |
| Power.WindowIsMeasured | taskpaw_v3/core/power.py:615-633 | a window exists if and only if the gap is above 0 and up to 15 s; its gpu energy is the mean of two readings, its cpu energy the curve at the load, over the gap in hours; its owner, activity and bucket are those of the sample |
| Power.WindowNonNegative | taskpaw_v3/core/power.py:622-626 | a window's parts are non-negative if and only if its two GPU readings are on average |
| Power.WindowSign | taskpaw_v3/core/power.py:622-626 | a window as a whole is non-negative if and only if that average, the CPU and the baseline are together |
| Power.NewestKeepsLatest | taskpaw_v3/core/power.py:670-673 | pruning keeps as many buckets as fit, unchanged, and all later than those dropped |
| Power.BucketStepKeepsLaw | taskpaw_v3/core/power.py:635-668 | closed, open and pruned energy of every bucket is what was loaded and measured, part by part |
| Power.OwnerStepKeepsLaw | taskpaw_v3/core/power.py:670-704 | kept and dropped energy of every owner is what was measured for it |
| Power.TickKeepsValid | taskpaw_v3/core/power.py:589-633 | every tick keeps buckets, owners and counters equal to what was measured |
| Power.TickOffKeepsValid | taskpaw_v3/core/power.py:594-605 | switching sampling off moves the open bucket and loses nothing |
| Power.ActivitiesMakeWhole | taskpaw_v3/core/power.py:653-658 | the activities of any windows make up their gpu, cpu and other energy |
| Power.EnergyIsConserved | taskpaw_v3/core/power.py:635-704 | the totals over buckets, over owners and over windows are equal |
| Power.ReadIsReading | taskpaw_v3/core/power.py:707-722 | a reading is the owner's whole energy since its counter began |
| Power.ReadingLasts | taskpaw_v3/core/power.py:707-722 | later ticks never change what a reading stands for |
| Power.ReadingLastsReads | taskpaw_v3/core/power.py:707-722 | nor do later readings, of any owner, new counters included |
| Power.BetweenIsExact | taskpaw_v3/core/power.py:724-768 | between two readings of a live counter lies, in whole and in each part, exactly the sum of the owner's windows between them, or nothing where that sum is negative; with no negative window there, the parts make the whole |
| Power.BetweenAdds | taskpaw_v3/core/power.py:724-768 | of three readings the two intervals make the whole, in energy and in each part, if and only if the middle reading lies between the others; so they do when no window of the owner between them has a negative part |
| Power.PeakIsExact | taskpaw_v3/core/power.py:747-767 | a peak that is told is the largest figure sampled between the readings; none is told if and only if none was sampled or one was dropped from the buffer |
| Power.PowerSampler.TakeSample | taskpaw_v3/core/power.py:589-633 | one tick of the object is the specified one, whose window `WindowIsMeasured` describes |
| Power.PowerSampler.Prune | taskpaw_v3/core/power.py:670-676 | the loop drops the oldest buckets and the idle counters |
| Power.PowerSampler.Count | taskpaw_v3/core/power.py:685-704 | the owner's counter and its bounded peak buffer take the window in |
| Power.PowerSampler.EnergyBetween | taskpaw_v3/core/power.py:724-768 | the answer, or none, is the specified one |
| Power.PowerSampler.AllBuckets | taskpaw_v3/core/power.py:771-780 | the open bucket is merged with what was closed at its start |
| PowerHistory.EveryBucketHasAPoint | taskpaw_v3/core/power.py:838-854 | the open bucket lies in the last point and every bucket shown has a point within bounds |
| PowerHistory.BucketsFitWholeOffsets | taskpaw_v3/core/power.py:838-854 | every bucket shown lies wholly within one point if and only if the offset from UTC is a whole number of buckets |
| PowerHistory.PointsMakeTotal | taskpaw_v3/core/power.py:847-861 | the points add up to the buckets shown, for energy, covered time and each activity |
| PowerHistory.HistoryIsMeasured | taskpaw_v3/core/power.py:832-880 | in a sampler's history the points add up to what was loaded and measured, less what was pruned |
| PowerHistory.Series | taskpaw_v3/core/power.py:850-861 | the loop fills each point with the sum of its buckets, in whatever order they come |
| PowerHistory.History | taskpaw_v3/core/power.py:832-861 | a known range gives one sum per point, with every bucket shown inside the bounds, and an unknown one is refused |

## Left out

- File bytes and fsync: a rename, an unlink and an atomic write are single effects; the temporary file a hard crash inside an atomic write can leave is not modelled.
- Copying and checking the staged program, and removing it again when it is refused, is one effect; a crash within it counts as before or after.
- launchctl, codesign, permissions and ownership by user id: what launchd answers is an argument, and a file is absent, an owned program or refused.
- The uninstall command of the Hub service: it is not journalled.
- Records on disk are read as good, legacy, missing or corrupt; their JSON is not parsed.
- Event level, title, data and the history ring of recent events: only ids, monitor and message are kept.
- One call takes one clock reading where the code may read the clock several times within it (GPU lease, task log), except where a second reading decides something (the pruning of idle counters).
- Threads appear as interleaved steps, one per lock section or blocking call; the memory model is not part of this, nor is a signal handler that runs between two instructions inside a locked section.
- Lifecycle: the calls on one thread nest, and `finish` is called once, on a thread with no other call under way, as the launchers do.
- The registry's own handlers and the process exit around the shutdown coordinator.
- Supervisor: emits, throttling, backoff, degraded state and deadlines are left out; a wait may end at any time, and a cancel token that is set without a stop request only lets a worker skip its start.
- Supervisor: one monitor id; the registry keeps different ids apart by its dictionary keys.
- The projection link of the activity store, its JSON file and the reader of facts: a fact already linked keeps its first time, which is an argument.
- SQLite: tables are maps and sequences, a transaction is a saved copy; page limits and foreign data are refused before the modelled code runs.
- The hash that names a fact or a verified session end: ids are strings, and a witness is taken as built from its source.
- Text limits counted in UTF-8 bytes.
- LogPages.LogStore.Walk: asks while nothing is written; what another thread writes between two pages is not part of it, and nor is a read that fails (`CachedRightWhenWhole` says what that costs).
- LogPages.LogStore.Query: the polling form (rows after a key, oldest first) and the list of all days are left out; they add no state.
- LogPages.LogStore.Insert: takes the row's number as an argument above all earlier ones; `MirrorLog` proves that the numbers increase, except that after an unreadable day file a restart relies on the clock having advanced.
- Free text is looked for in the labels as they are; case folding is not modelled.
- Power figures are reals; rounding in the answers, calendar totals, time-zone lookup and the choice of activity from lease and dispatcher are left out.
- A tick after the sampler has been stopped, which does nothing.
- The power database: the buckets loaded at start are arbitrary, and writing closed buckets back is not modelled.
- `workflow/approval_store.py`: it rests on a base class and models outside these files.
