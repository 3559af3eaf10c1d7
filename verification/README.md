# Proofs about LiteIO's control plane

LiteIO runs storage volumes on a cluster: a controller schedules them, an agent on each storage
node creates logical volumes and NVMe-oF targets, and a manager on each host connects them. These
processes share API objects and act on the outside world between reading and writing them. The
project models six parts of this and proves what holds in every run.

- **Live migration** (`HostScan`, `Migration`, `MigrationSafety`, `MigrationRuns`,
  `MigrationProgress`, `MigrationPasses`, `MigrationOutcome`). Three actors move one object through its phases. A step
  is one action of one actor, so any interleaving, any stale read by the controller and a crash
  between acting and recording are runs. `Update` and `Status().Update` are refused on a stale
  version; the agent's progress report is a JSON merge patch (section 2 of RFC 7386) and never is.
- **Volume groups** (`VolGroupScheduler`, `VolGroupRuns`, `VolGroupGreedy`, `VolGroupOutcome`). The greedy splitter
  with its own truncating division, its append loop whose bound shrinks as it counts, rollback and
  rescheduling.
- **Scheduler state** (`NodeAccounting`, `NodeBooks`, `StateIndex`, `StateOutcome`, `SchedulerState`). Cached free space,
  reservations and the index from volume uuid to node, first as values and then as the objects that
  are changed in place.
- **Volume life cycle** (`VolumeBinding`, `VolumeLifecycle`, `VolumeLifecycleSafety`,
  `VolumeLifecycleRuns`, `VolumePasses`, `VolumeProgress`). Controller and agent, finalizers, a cache that lags but
  never goes back, and the real scheduler state inside the step system.
- **Targets** (`SvcId`, `Target`, `TargetRuns`, `TargetOutcome`). The port allocator and the creation of a target by
  remote calls that may fail with or without effect.
- **Two small machines**: the start and stop of a `RunnableGroup` (`RunnableGroupProgress`), and one
  active snapshot per origin (`Snapshot`, `SnapshotRuns`, `SnapshotLife`).

Each step system is a total function `Step`; a label that is impossible in a state changes nothing,
so every sequence of labels is a run. Invariants are proved step by step and lifted to runs. The
imperative modules hold the code as classes and loops and tie each method to the function the
theorems are about; remote calls and commands in them may be refused, or take effect while their
answer is lost. `Prelude` holds the two types all parts share.

Where a promised property does not hold of the code, the code is kept, one lemma shows inputs or a
run on which it fails, and another gives the exact condition under which it holds:

- a successful bind keeps the uuid index right if and only if name and uuid agree
  (`RenamedBreaksIndex`, `TwinBreaksIndex`, `BindKeepsIndexExactlyWhen`); removing a pool does if and
  only if it is empty (`RemovePoolExactlyWhen`);
- a rejected `AddVolume` leaves the cache behind by exactly the reservation it dropped, and exact if
  and only if there was none (`RejectedAddGap`);
- the controller can erase the agent's logical-volume finalizer by patching finalizers from a cached
  version older than its own earlier patch (`StaleReadErases`, `LosesRecordExactlyWhen`);
- the allocator's last probe fails even if it finds a free id (`FreeIdRefused`, `NextIsExact`), and a
  failed resynchronisation lets a used port be handed out again (`FailedSyncReusesPort`,
  `TrackedExactlyWhen`, `DeleteTrackedExactlyWhen`);
- `RunnableGroup.Add` can send on the closed internal channel (`AddCanCrash`,
  `SendOnClosedExactlyWhen`), and one that overlaps the stop can report no error while its runnable
  is never started (`AddCanBeDropped`, `DroppedExactlyWhen`);
- a snapshot created with labels that lack the origin, or edited so, escapes the check for siblings
  (`TwoActiveExactlyWhen`);
- a deleted volume keeps its space if it goes between its binding and the record of it
  (`GoneButBound`, `GoneStaysBoundExactlyWhen`);
- a logical volume can stay on its node while its space is given away (`UnrecordedIsAbandoned`,
  `AbandonsExactlyWhen`);
- the cleanup of migration tasks overwrites its flag with every task it lists (`TaskCanBeMissed`,
  `TaskFoundExactlyWhen`), and so does the host's search for a path with every subsystem of the NQN
  (`FlagCanMiss`, `FlagIsSearchExactlyWhen`);
- so a migration can finish and leave its copy task behind (`CleanupCanMiss`, `FinishedIsClean`,
  `AloneEndsClean`);
- a piece of a volume group can be larger than the free space of its node, because it is rounded up
  (`OfferCanExceedFree`, `ExceedsFreeExactlyWhen`);
- a target created over a subsystem that exports another bdev does not export the requested one
  (`BdevCanBeIgnored`, `OkIsComplete`).

One branch of the code is dead with the client the repository generates. The controller tears a
deleted volume down at once when its pool is missing, which it recognises by a nil pool
(pkg/controller/manager/reconciler/volume_reconciler.go:133). The generated client returns an empty
object instead (pkg/generated/clientset/versioned/typed/volume.antstor.alipay.com/v1/storagepool.go:67-77),
which looks like a pool that is not ready, so the volume falls through to the pruning after 20 minutes.
The model has both: the label of a deletion pass says whether a missing pool is seen as nil.
`RecordedIsNeverFree` covers either client, `RecordedIsNeverFreeOutright` the generated one.

## Model

| member | source | states |
|---|---|---|
| HostScan.ScanFlag | pkg/host-nvme/sync_migration.go:121-136 | the nested flag loops compute `Flag`, in which a later subsystem with the same NQN overwrites an earlier one |
| HostScan.FlagMeaning | pkg/host-nvme/sync_migration.go:183-198 | the flag never reports a path that is not listed, and equals the plain search when every NQN is listed once |
| HostScan.FlagExactly | pkg/host-nvme/sync_migration.go:183-198 | for every list the flag is set if and only if some subsystem of the NQN has a match and every later one of that NQN has no path at all |
| HostScan.FlagIsSearchExactlyWhen | pkg/host-nvme/sync_migration.go:183-198 | the flag differs from the plain search if and only if a match is followed by a last subsystem of the NQN that has paths but no match |
| HostScan.FlagCanMiss | pkg/host-nvme/sync_migration.go:183-198 | with an NQN listed twice the flag misses a working path that the search finds |
| HostScan.FlagOfListing | pkg/host-nvme/sync_migration.go:183-198 | on a faithful listing the flag is set if and only if the host has that path, in that state |
| HostScan.ScanSource | pkg/host-nvme/sync_migration.go:224-241 | the loops find the last path with the source address in a subsystem that has more than one path |
| HostScan.SourceOfListing | pkg/host-nvme/sync_migration.go:224-241 | on a faithful listing the source path is reported if and only if it is there beside another path, with its state |
| MigrationSafety.StepInv | pkg/controller/manager/reconciler/migration_reconciler.go:62-269 | every step of controller, agent, host or environment, from fresh or stale snapshots, keeps the protocol invariant |
| MigrationSafety.PatchWrite | pkg/agent/sync/sync_migration.go:196-235 | the agent's unversioned patch, applied to any later version, undoes nothing that is recorded |
| MigrationRuns.RecordedIsReal | pkg/controller/manager/reconciler/migration_reconciler.go:215-251 | in every run a pipe recorded Connected before cleaning means the destination bdev is attached, Syncing means both connections are up, Success means autoswitch is enabled and the switch was seen, and finalizers match statuses exactly |
| MigrationRuns.FinishedIsClean | pkg/agent/sync/sync_migration.go:240-277 | in every run, whatever tasks of other sources SPDK lists, Finished means both finalizers gone and the destination bdev detached, and no copy task left if and only if the run's last cleaning pass did not find the copy hidden behind a task of another source |
| MigrationRuns.AloneEndsClean | pkg/agent/sync/sync_migration.go:240-277 | in every run in which SPDK lists tasks of this source only, Finished means that no copy task is left |
| MigrationRuns.MissedExactlyWhen | pkg/spdk/service_migrate.go:165-190 | after a step the copy counts as missed if and only if the step looked for it in a cleaning pass while a task of another source was listed last, or it was no such step and the copy counted as missed before |
| MigrationProgress.CleanupCanMiss | pkg/spdk/service_migrate.go:178-185 | every fresh migration has a run that finishes it with its copy task still there |
| MigrationRuns.NothingUndone | pkg/agent/sync/sync_migration.go:109-142 | from any reachable state on, phase, connections and autoswitch only move forward, whatever is written |
| MigrationRuns.HistoryOfRun | pkg/controller/manager/reconciler/migration_reconciler.go:215-269 | any two moments of one run are ordered the same way |
| MigrationRuns.SawWorkingEarlier | pkg/host-nvme/sync_migration.go:175-206 | if a run counts on the switch, some earlier host pass really listed the destination path as working |
| MigrationRuns.DisconnectIsSafe | pkg/host-nvme/sync_migration.go:217-264 | when a run cuts the source path, an earlier step saw the destination working, this pass listed the source as degraded with another path beside it, and a path remains unless the environment took one since |
| MigrationRuns.BoundedlyManyChanges | pkg/controller/manager/reconciler/migration_reconciler.go:127-269 | in every run phase, connections and autoswitch change at most twelve times, each change lowering a measure |
| MigrationProgress.SomeActorCanMove | pkg/agent/sync/sync_migration.go:109-279 | in every live unfinished state some actor can bring the migration strictly closer to its end |
| MigrationProgress.FailedKeepsPhase | pkg/controller/manager/reconciler/migration_reconciler.go:62-65 | once an error is recorded the phase never moves |
| MigrationProgress.FinishesExactlyWhen | pkg/host-nvme/sync_migration.go:112-282 | a reachable migration can still finish if and only if it has finished, or no error is recorded and the destination path is there, not needed, or its switch is about to be recorded |
| MigrationProgress.FreshMigrationFinishes | pkg/controller/manager/reconciler/migration_reconciler.go:67-269 | from every fresh migration some run reaches Finished |
| MigrationOutcome.AdvancesExactlyWhen | pkg/controller/manager/reconciler/migration_reconciler.go:62-269 | a step moves the phase, by one and with the status that goes with it, if and only if it is a controller pass over the newest version that finds both volumes ready and recorded and what the phase waits for done; it records an error if and only if such a pass finds the source missing, no logical volume, or bound to its host |
| MigrationOutcome.RecordedVolumesAreRight | pkg/controller/manager/reconciler/migration_reconciler.go:105-210 | in every run the recorded object names nodes, hosts and targets of both volumes as they are |
| MigrationOutcome.NamedByController | pkg/controller/manager/reconciler/migration_reconciler.go:134-143 | the destination gets the name that was made up for it, from the controller alone |
| MigrationOutcome.SyncsExactly | pkg/agent/sync/sync_migration.go:152-235 | a syncing pass starts the copy if and only if there is none, and reports, with the progress of the copy and the switch enabled, if and only if the copy is completed or ten seconds further and the switch is enabled or a round has passed |
| MigrationOutcome.AutoSwitchExactlyWhen | pkg/agent/sync/sync_migration.go:204-222 | SPDK is told to switch by no step but a syncing pass that sees a copy due and through at least one round |
| MigrationOutcome.SwitchAllowedEarlier | pkg/agent/sync/sync_migration.go:198-222 | in every run, if SPDK was told to switch or the object says so, an earlier pass saw such a copy |
| MigrationOutcome.SourceIsCut | pkg/host-nvme/sync_migration.go:217-275 | in every run, once the host has recorded that it is disconnected it has lost the source path, unless a pass decided to close with that path as its only one |
| MigrationPasses.VolumeMigration.DropFinalizer | pkg/agent/sync/sync_migration.go:263-273 | the rebuilding loop removes exactly one finalizer from the list and keeps the order |
| MigrationPasses.ControllerReconcile | pkg/controller/manager/reconciler/migration_reconciler.go:62-269 | the in-place pass asks for exactly the write of `ControllerPass` |
| MigrationPasses.AgentReconcile | pkg/agent/sync/sync_migration.go:80-279 | the in-place pass has the effects and the request of `AgentPass`, for any combination of failing SPDK calls |
| MigrationPasses.AgentPassIsSteps | pkg/agent/sync/sync_migration.go:80-279 | an agent pass that others leave alone is as many steps of the step system as its calls take effect, all of them when every call is answered, and then a stop |
| MigrationPasses.HostReconcile | pkg/host-nvme/sync_migration.go:83-282 | the in-place pass has the effects and the request of `HostPass`, for any combination of failing commands |
| MigrationPasses.HostPassIsSteps | pkg/host-nvme/sync_migration.go:83-282 | a host pass that others leave alone is as many steps of the step system as its commands take effect, all of them when every command is answered, and then a stop |
| MigrationPasses.Spdk.EnsureDestBdev | pkg/spdk/service_migrate.go:41-87 | succeeds if and only if the query does and the bdev is there or the attach is answered, and then the bdev is attached; nothing else changes |
| MigrationPasses.Spdk.DetachDestBdev | pkg/spdk/service_migrate.go:89-127 | succeeds if and only if the query does and the bdev is not there or the detach is answered, and then the bdev is gone; nothing else changes |
| MigrationPasses.Spdk.GetTasks | pkg/spdk/service_migrate.go:129-152 | the loop keeps exactly the reported tasks of that source, in order |
| MigrationPasses.Spdk.CleanTask | pkg/spdk/service_migrate.go:165-190 | the loop lets the last listed task alone decide, by source and destination, whether the copy is removed; a failed query is an error |
| MigrationPasses.TaskFoundExactlyWhen | pkg/spdk/service_migrate.go:165-190 | the flag after the loop agrees with a search of the list if and only if no listed task, or the last one, has that source and destination |
| MigrationPasses.TaskCanBeMissed | pkg/spdk/service_migrate.go:178-185 | a copy listed before one of another source or destination is not found, and stays |
| VolGroupScheduler.FindNode | pkg/controller/manager/scheduler/sched_vol_group.go:119-139 | the loop finds the first unused node with a positive offer, or the last value it computed |
| VolGroupScheduler.VolumeGroup.SchedVolGroup | pkg/controller/manager/scheduler/sched_vol_group.go:65-201 | the in-place scheduler leaves the volumes and the verdict of `Sched` |
| VolGroupRuns.OfferBounds | pkg/controller/manager/scheduler/sched_vol_group.go:77-98 | an offer is a multiple of 4 MiB, keeps remote bytes within the watermark, and exceeds what is wanted, free or allowed at most by less than 4 MiB |
| VolGroupRuns.ExceedsFreeExactlyWhen | pkg/controller/manager/scheduler/sched_vol_group.go:77-98 | a piece is larger than the free space of its node if and only if it starts above the aligned part of that space and the watermark leaves room for the rounding up |
| VolGroupRuns.OfferCanExceedFree | pkg/controller/manager/scheduler/sched_vol_group.go:77-98 | five MiB free, and an offer of eight |
| VolGroupRuns.SchedOk | pkg/controller/manager/scheduler/sched_vol_group.go:65-201 | a successful call keeps every scheduled entry and leaves distinct nodes, aligned sizes, count and bytes within their bounds |
| VolGroupRuns.Watermark | pkg/controller/manager/scheduler/sched_vol_group.go:267-289 | after a call every node used before is untouched, and on every other node remote bytes old and new stay within available minus the local share |
| VolGroupRuns.ScheduleVolumeGroup | pkg/controller/manager/scheduler/sched_vol_group.go:20-63 | the method that decides whether to schedule leaves what `ScheduleGroup` says when it succeeds, and the entries placed so far when it fails |
| VolGroupRuns.RollbackUnrecoverable | pkg/controller/manager/reconciler/volume_group_reconciler.go:220-283 | the loop clears node and size of exactly the failed entries and reports whether there were any |
| VolGroupRuns.EveryRun | pkg/controller/manager/reconciler/volume_group_reconciler.go:220-325 | over every run of scheduling and rollback from an empty group: distinct nodes, positive multiples of 4 MiB, at most the maximum count, bytes below total plus 4 MiB |
| VolGroupRuns.AppendExact | pkg/controller/manager/scheduler/sched_vol_group.go:150-189 | the append loop adds at most half of the missing count rounded up, and exactly that many if bytes are left |
| VolGroupRuns.SchedCounts | pkg/controller/manager/scheduler/sched_vol_group.go:100-201 | after any call, failed or not, the loop's counter and bytes left agree with the entries of the group |
| VolGroupRuns.SchedPlaces | pkg/controller/manager/scheduler/sched_vol_group.go:100-189 | a successful call with bytes left and count below the maximum leaves more scheduled entries than before, and no others, also after a rollback |
| VolGroupRuns.SchedHalves | pkg/controller/manager/scheduler/sched_vol_group.go:150-189 | a successful call without rolled-back entries covers the total or halves the missing count |
| VolGroupRuns.Converges | pkg/controller/manager/scheduler/sched_vol_group.go:100-201 | as many successful passes as the maximum count end with the total covered or the count reached |
| VolGroupOutcome.OfferIsLargest | pkg/controller/manager/scheduler/sched_vol_group.go:77-98 | the size of a piece is the largest multiple of 4 MiB that overshoots what is free, wanted and allowed by less than that and stays below the ceiling, and nothing below the minimum |
| VolGroupOutcome.HasRoomExactlyWhen | pkg/controller/manager/scheduler/sched_vol_group.go:267-289 | a node gets a piece if and only if minimum, free space and maximum allow one and 4 MiB stay below the ceiling, with the local share written out |
| VolGroupOutcome.WatermarkWrittenOut | pkg/controller/manager/scheduler/sched_vol_group.go:267-289 | the watermark after a call, as available bytes minus their local percentage |
| VolGroupOutcome.SchedWalks | pkg/controller/manager/scheduler/sched_vol_group.go:104-189 | a call is a walk that always goes to the first unused node with room: count, bytes left and used nodes are those of the walk |
| VolGroupOutcome.FailsExactlyWhen | pkg/controller/manager/scheduler/sched_vol_group.go:139-187 | a call fails if and only if a walk of fewer placements than the call may make ends with bytes left and no unused node with room |
| VolGroupOutcome.FailedIsStuck | pkg/controller/manager/scheduler/sched_vol_group.go:139-187 | a failed call leaves a volume wanted, bytes left and no unused node with room |
| VolGroupOutcome.FirstCallSucceedsExactlyWhen | pkg/controller/manager/scheduler/sched_vol_group.go:150-189 | on an empty group a call succeeds if and only if the sorted list does not run out of room, with the total uncovered, within half the maximum count |
| VolGroupOutcome.EntriesKeepNames | pkg/controller/manager/scheduler/sched_vol_group.go:126-178 | a rolled-back entry gets its new place under its old name, and every other new entry a fresh one |
| VolGroupOutcome.RolledBackIsFree | pkg/controller/manager/reconciler/volume_group_reconciler.go:256-272 | a rollback frees the nodes of the failed entries and keeps all others |
| VolGroupGreedy.LessIsStrictWeakOrder | pkg/controller/manager/scheduler/sched_vol_group.go:249-261 | the comparison is a strict weak order, as sorting needs |
| VolGroupGreedy.SortedMeaning | pkg/controller/manager/scheduler/sched_vol_group.go:50-54 | the reversed sort puts nodes with volumes first, and by descending free space within each kind |
| VolGroupGreedy.AppendGreedy | pkg/controller/manager/scheduler/sched_vol_group.go:150-189 | the append loop takes the sorted nodes in order |
| VolGroupGreedy.PrefixIsBest | pkg/controller/manager/scheduler/sched_vol_group.go:77-98 | no choice of k distinct nodes holds more than the first k of the sorted list |
| VolGroupGreedy.GreedyIsOptimal | pkg/controller/manager/scheduler/sched_vol_group.go:150-189 | after k picks the bytes covered are the most any k nodes could cover, capped at the total |
| VolGroupGreedy.PrefixIsFeasible | pkg/controller/manager/scheduler/sched_vol_group.go:77-98 | that maximum is attained |
| VolGroupGreedy.FirstCallIsOptimal | pkg/controller/manager/scheduler/sched_vol_group.go:65-201 | one call on an empty group covers the most possible for the number of volumes it places |
| VolGroupGreedy.FewestNodes | pkg/api/volume.antstor.alipay.com/v1/volume_group_types.go:33-34 | while bytes are left, no choice of as many nodes covers the total |
| NodeAccounting.SumMapWithout | pkg/controller/manager/state/node.go:215-225 | the sum of reservations does not depend on the order they are visited |
| NodeAccounting.AddConserved | pkg/controller/manager/state/node.go:61-101 | adding a volume, accepted or rejected, keeps the books, and an accepted one leaves them exact |
| NodeAccounting.RemoveConserved | pkg/controller/manager/state/node.go:103-127 | removing a volume keeps the books and leaves them exact |
| NodeAccounting.ReserveConserved | pkg/controller/manager/state/node.go:237-260 | reserving keeps the books and a granted reservation leaves them exact |
| NodeAccounting.ApplyConserved | pkg/controller/manager/state/node.go:179-270 | every operation keeps the books and every successful one leaves cached free equal to the recomputation |
| NodeAccounting.NodeHistory | pkg/controller/manager/state/node.go:61-270 | after any history cached free never exceeds capacity minus reserved volumes, bound volumes and live reservations, and no non-empty reservation id coexists with its volume |
| NodeAccounting.RejectedAddGap | pkg/controller/manager/state/node.go:69-80 | a rejected volume leaves the cache short by exactly the reservation it dropped, and exact if and only if that is nothing |
| NodeAccounting.GrantedFitsIn | pkg/controller/manager/state/node.go:246-260 | a granted reservation leaves free space non-negative |
| NodeBooks.NewNodeFree | pkg/controller/manager/state/node.go:29-41 | a new node offers its capacity without the reserved logical volumes |
| NodeBooks.PoolFree | pkg/controller/manager/state/node.go:179-196 | a further reserved logical volume, or a smaller capacity, lowers the free space by its bytes |
| NodeBooks.CapacityFilled | pkg/controller/manager/state/state.go:108-122 | a pool without a reported capacity counts as large as its volume group, or else its lvstore |
| NodeBooks.NewVolumeFree | pkg/controller/manager/state/node.go:61-101 | a new volume takes its real or nominal size and its snapshot reserve from the free space, and what was promised to it is free again |
| NodeBooks.KnownVolumeFree | pkg/controller/manager/state/node.go:73-98 | a volume of a known name is replaced if and only if its size is the same, and only the difference in bytes changes the free space |
| NodeBooks.GoneVolumeFree | pkg/controller/manager/state/node.go:103-127 | a volume that goes gives exactly its bytes back |
| NodeBooks.ReservesExactlyWhen | pkg/controller/manager/state/node.go:237-260 | a reservation is made if and only if no bound volume has its id and the free space covers it, and takes exactly its bytes |
| NodeBooks.UnreservedFree | pkg/controller/manager/state/node.go:263-270 | a reservation that is dropped gives its bytes back |
| NodeBooks.ReservationIdOf | pkg/controller/manager/state/reservation.go:115-130 | a reservation is found by the annotation of the volume, or else by the claim it was made for, namespace first |
| NodeBooks.BooksBalance | pkg/controller/manager/state/node.go:179-234 | after every history free, reserved, bound and promised bytes do not exceed the capacity, and add up to it when the last operation succeeded |
| StateIndex.GetIsBruteForce | pkg/controller/manager/state/state.go:205-222 | lookup through the index equals a search of all nodes, and the volume found is the only one |
| StateIndex.BindKeepsIndexExactlyWhen | pkg/controller/manager/state/state.go:154-179 | a successful bind keeps the index right if and only if name and uuid meet the same volumes of the node and the uuid is bound nowhere else |
| StateIndex.RenamedBreaksIndex | pkg/controller/manager/state/node.go:73-89 | a known name with another uuid leaves the old uuid indexed and gone |
| StateIndex.TwinBreaksIndex | pkg/controller/manager/state/state.go:170-176 | a known uuid under another name puts it on the node twice |
| StateIndex.UnbindIndexed | pkg/controller/manager/state/state.go:181-203 | unbinding keeps the index right and leaves the volume on no node |
| StateIndex.RemovePoolExactlyWhen | pkg/controller/manager/state/state.go:147-152 | removing a pool keeps the index right if and only if it held no volume, which its caller checks |
| StateIndex.SetPoolIndexed | pkg/controller/manager/state/state.go:108-135 | setting a pool, new or known, keeps the index right |
| StateIndex.HistoryIndexed | pkg/controller/manager/reconciler/pool_reconciler.go:195-211 | every history with one identity per volume and only empty pools removed keeps the index right |
| StateIndex.HistoryLookup | pkg/controller/manager/state/state.go:205-222 | over every such history from the empty state lookup is brute-force search |
| StateIndex.ApplyKeepsBooks | pkg/controller/manager/state/state.go:108-203 | the books of every node are kept by any operation on the state, proper or not |
| StateIndex.BindThenUnbind | pkg/controller/manager/state/state.go:154-203 | binding a fresh volume without reservation and unbinding it restores the whole state |
| StateOutcome.BindErrorExactlyWhen | pkg/controller/manager/state/state.go:154-179 | which error a bind returns, and when |
| StateOutcome.FailedBindKeeps | pkg/controller/manager/state/state.go:154-179 | a bind that fails leaves every volume and the index as they were |
| StateOutcome.BindThenGet | pkg/controller/manager/state/state.go:154-222 | what was bound is found on its node, and no other node changes |
| StateOutcome.BindKeepsOthers | pkg/controller/manager/state/state.go:154-222 | every other volume is found as before |
| StateOutcome.UnbindThenGet | pkg/controller/manager/state/state.go:181-222 | what was unbound is found no more, and no other node changes |
| StateOutcome.UnbindFrees | pkg/controller/manager/state/state.go:181-203 | its bytes are free again |
| StateOutcome.UnbindKeepsOthers | pkg/controller/manager/state/state.go:181-222 | every other volume is found as before |
| StateOutcome.SetPoolOutcome | pkg/controller/manager/state/state.go:108-135 | a pool that is set is that of its node; volumes, index and all other nodes stay |
| SchedulerState.Node.constructor | pkg/controller/manager/state/node.go:29-41 | a new node is empty, with its free space computed |
| SchedulerState.Node.GetFreeResource | pkg/controller/manager/state/node.go:179-234 | the three loops compute `Exact` and drop exactly the reservations of bound volumes |
| SchedulerState.Node.AddVolume | pkg/controller/manager/state/node.go:61-101 | the in-place method does `Add`, clash and replacement included |
| SchedulerState.Node.RemoveVolumeByID | pkg/controller/manager/state/node.go:103-127 | the in-place method does `Remove` |
| SchedulerState.Node.GetVolumeByID | pkg/controller/manager/state/node.go:129-145 | the loop finds the first volume with that uuid or none |
| SchedulerState.Node.Reserve | pkg/controller/manager/state/node.go:237-260 | the in-place method does `Reserve` |
| SchedulerState.Node.Unreserve | pkg/controller/manager/state/node.go:263-270 | the in-place method does `Unreserve` |
| SchedulerState.State.SetStoragePool | pkg/controller/manager/state/state.go:108-135 | the new state is that of `StateIndex.SetStoragePool`, and nodes stay distinct objects |
| SchedulerState.State.RemoveStoragePool | pkg/controller/manager/state/state.go:147-152 | the new state is that of `StateIndex.RemoveStoragePool` |
| SchedulerState.State.BindAntstorVolume | pkg/controller/manager/state/state.go:154-179 | error and new state are those of `StateIndex.Bind` |
| SchedulerState.State.UnbindAntstorVolume | pkg/controller/manager/state/state.go:181-203 | error and new state are those of `StateIndex.Unbind` |
| SchedulerState.State.GetVolumeByID | pkg/controller/manager/state/state.go:205-222 | the answer is that of `StateIndex.GetVolumeByID` |
| VolumeBinding.ForeignKeeps | pkg/controller/manager/state/state.go:108-203 | whatever is done for other volumes and pools, this volume stays where it is |
| VolumeBinding.BindOurs | pkg/controller/manager/state/state.go:154-179 | binding a volume where it is, or for the first time, puts it there if and only if no error comes back |
| VolumeBinding.LookupOurs | pkg/controller/manager/reconciler/volume_reconciler.go:299-306 | a volume is found in state if and only if it is bound, and the copy found names its node |
| VolumeBinding.BoundIsCounted | pkg/controller/manager/state/node.go:179-234 | a bound volume is on one node only, and its bytes and the cached free space fit side by side in the capacity |
| VolumeLifecycleSafety.StepInv | pkg/controller/manager/reconciler/volume_reconciler.go:93-373 | every step of controller, agent, user or other reconcilers keeps the life-cycle invariant |
| VolumeLifecycleSafety.RecordFits | pkg/controller/manager/reconciler/volume_reconciler.go:261-283 | the controller's patch of finalizers, computed from an old version, still tells the truth about the binding |
| VolumeLifecycleRuns.RecordedIsNeverFree | pkg/agent/sync/sync_volume.go:86-93 | in every run a volume with a logical-volume finalizer has the in-state finalizer and is bound at its target node, so its bytes are not free, unless it was torn down because its pool was seen as nil |
| VolumeLifecycleRuns.RecordedIsNeverFreeOutright | pkg/generated/clientset/versioned/typed/volume.antstor.alipay.com/v1/storagepool.go:67-77 | with the generated client, which never returns a nil pool, that holds in every run without exception |
| VolumeLifecycleRuns.ForcedOnlyWithoutPool | pkg/controller/manager/reconciler/volume_reconciler.go:124-141 | only a pass over a deleted volume that sees its missing pool as nil tears it down by force |
| VolumeLifecycleRuns.OneNode | pkg/controller/manager/reconciler/volume_reconciler.go:299-370 | in every run all nodes ever bound, recorded as target or given a logical volume are one and the same |
| VolumeLifecycleRuns.OneNodeOverTime | pkg/controller/manager/reconciler/volume_reconciler.go:299-370 | two moments of a run never show the volume bound to different nodes |
| VolumeLifecycleRuns.GoneStaysBoundExactlyWhen | pkg/controller/manager/reconciler/volume_reconciler.go:106-122 | in every run a volume that is gone is still bound if and only if it was ever bound, was not torn down by force, and no version recorded its binding |
| VolumeLifecycleRuns.GoneButBound | pkg/controller/manager/reconciler/volume_reconciler.go:241-253 | deleted between the binding and its record, a volume is gone and stays bound |
| VolumeLifecycleRuns.RecordedExists | pkg/agent/sync/sync_volume.go:448-465 | in every run a recorded logical volume exists on the target node until the volume is deleted |
| VolumeLifecycleRuns.LosesRecordExactlyWhen | pkg/controller/manager/reconciler/volume_reconciler.go:261-283 | a step loses the record of an existing logical volume if and only if it is the patch of a pass whose version lacked the in-state finalizer, or the clearing of all finalizers, and then the teardown was forced by a missing pool |
| VolumeLifecycleRuns.AbandonsExactlyWhen | pkg/controller/manager/reconciler/volume_reconciler.go:106-141 | a step leaves a logical volume whose space is not counted if and only if it is the unbinding of a deletion pass that sees no record of the logical volume that is there, or a nil pool, or its creation from a version read before the unbinding |
| VolumeLifecycleRuns.StaleReadErases | pkg/controller/manager/reconciler/volume_reconciler.go:261-283 | a run in which that patch does erase the record while the logical volume is there |
| VolumeLifecycleRuns.UnrecordedIsAbandoned | pkg/agent/sync/sync_volume.go:448-465 | deleted between the creation of the logical volume and its record, the volume is unbound and gone while the logical volume stays |
| VolumePasses.ValidateAndMutate | pkg/controller/manager/reconciler/volume_reconciler.go:241-287 | the in-place pass leaves the state and the object of `ValidatePass`: bound, and label and finalizer patched in where the version read lacked them |
| VolumePasses.ScheduleVolume | pkg/controller/manager/reconciler/volume_reconciler.go:289-373 | the in-place pass leaves the state and the object of `SchedulePass`, the status report for want of a node included |
| VolumePasses.HandleDeletion | pkg/controller/manager/reconciler/volume_reconciler.go:93-177 | the in-place pass leaves the state and the object of `DeletionPass`, whether a missing pool is seen as nil or as one that is not ready |
| VolumePasses.SyncOneVolume | pkg/agent/sync/sync_volume.go:76-139 | the in-place agent pass leaves the object and the logical volumes of `AgentPass`, whatever becomes of its call on the node |
| VolumePasses.AntstorVolume.DropFinalizers | pkg/agent/sync/sync_volume.go:317-324 | the rebuilding loop keeps exactly the other finalizers, in order |
| VolumePasses.ValidatePassIsRun | pkg/controller/manager/reconciler/volume_reconciler.go:241-287 | an undisturbed pass over a scheduled volume is a run of the step system |
| VolumePasses.SchedulePassIsRun | pkg/controller/manager/reconciler/volume_reconciler.go:289-373 | an undisturbed scheduling pass is a run of the step system |
| VolumePasses.NoNodePassIsRun | pkg/controller/manager/reconciler/volume_reconciler.go:319-345 | so is one that finds no node and reports it, or stops |
| VolumePasses.DeletionPassIsRun | pkg/controller/manager/reconciler/volume_reconciler.go:93-177 | an undisturbed deletion pass is a run of the step system |
| VolumePasses.AgentPassIsRun | pkg/agent/sync/sync_volume.go:219-334 | an undisturbed agent pass is a run of the step system, cut off by a stop where it ends early |
| VolumeProgress.RetryKeepsNode | pkg/controller/manager/reconciler/volume_reconciler.go:300-317 | a volume bound in the state without a recorded target gets that node by the next pass, whatever node would be chosen now, and the state stays |
| VolumeProgress.CanBeServed | pkg/controller/manager/reconciler/volume_reconciler.go:241-373 | from every reachable state a volume some node can take has a run that binds, labels, marks, creates and exposes it there |
| VolumeProgress.TeardownOutcome | pkg/controller/manager/reconciler/volume_reconciler.go:93-177 | what a pass over a volume being deleted does: end it and give the space back, drop exactly the finalizers of a failed node, or nothing |
| VolumeProgress.DeletionCanComplete | pkg/agent/sync/sync_volume.go:219-334 | from every reachable state of a deletion some run ends it without force, with a recorded logical volume removed and a recorded binding given back |
| SvcId.SvcIdAllocator.NextID | pkg/spdk/svcid.go:31-69 | the probing loop returns and leaves what `Next` says |
| SvcId.SvcIdAllocator.FreeID | pkg/spdk/svcid.go:23-29 | exactly that id leaves the set |
| SvcId.SvcIdAllocator.SyncFromTruth | pkg/spdk/svcid.go:71-94 | the set becomes the ids of all listeners, empty when the read fails, and stays as it is when there is no reader |
| SvcId.NextIsExact | pkg/spdk/svcid.go:44-68 | with ids in use the answer is the unique first free id cyclically after the cursor; none comes, and nothing changes, if and only if all ids but the cursor's own are in use |
| SvcId.FreeIdRefused | pkg/spdk/svcid.go:56-61 | with only the cursor's own id free the allocator fails |
| SvcId.FreedIsNext | pkg/spdk/svcid.go:23-69 | with all others in use a freed id is the next one, unless the cursor stands on it, and then there is none |
| SvcId.NextValid | pkg/spdk/svcid.go:31-69 | the cursor stays in range and the id handed out was not in use |
| SvcId.NoIdTwice | pkg/spdk/svcid.go:31-69 | an id handed out is not handed out again before it is freed or the set is resynchronised from a reader, whatever else happens |
| Target.OkExactlyWhen | pkg/spdk/service_tgt.go:61-236 | from any partial state a call succeeds if and only if the bdev is free of others, every remote call still needed succeeds and a port is found when needed |
| Target.CreateShape | pkg/spdk/service_tgt.go:128-226 | whatever fails, only the subsystem of that name changes, and only where it was empty |
| Target.OkIsComplete | pkg/spdk/service_tgt.go:128-236 | success leaves that NQN with a namespace and a listener and the set in step with the listeners, returns the id of a listener it added, and exports the requested bdev if and only if the subsystem had no namespace or that one |
| Target.FoundIdExactlyWhen | pkg/spdk/service_tgt.go:128-236 | where a listener was found, the id returned is that of one of the requested transport, or the id asked for when there is none of that transport |
| Target.BdevCanBeIgnored | pkg/spdk/service_tgt.go:128-236 | over a subsystem that exports another bdev the call succeeds and the requested bdev is not exported |
| Target.RetryChangesNothing | pkg/spdk/service_tgt.go:98-236 | after a success the same request changes nothing and returns the same NQN and service id |
| Target.CreateKeepsNames | pkg/spdk/service_tgt.go:103-126 | whatever fails, no NQN and no bdev gets into two subsystems |
| Target.PickedPortIsFree | pkg/spdk/service_tgt.go:144-169 | while the set covers the listeners, a port the service picks is in range and on no existing listener |
| Target.TrackedExactlyWhen | pkg/spdk/service_tgt.go:228-236 | a call keeps the set covering the listeners if and only if its resynchronisation, if reached, succeeds and no listener asked for on an unknown id is added while the answer is lost |
| Target.DeleteTrackedExactlyWhen | pkg/spdk/service_tgt.go:245-267 | a deletion keeps it so if and only if its resynchronisation, if reached, succeeds or no listener is left |
| TargetOutcome.NewTarget | pkg/spdk/service_tgt.go:174-226 | over a new NQN a call adds, at the end and nowhere else, as much of the target as its calls took effect, on the requested or the next-fit port |
| TargetOutcome.DeleteOutcome | pkg/spdk/service_tgt.go:238-270 | a deletion that is not refused leaves the other subsystems in order and none of that name, otherwise none changes; it succeeds if and only if the list was read and the target was absent or the deletion answered |
| TargetOutcome.FreedBdev | pkg/spdk/service_tgt.go:238-270 | the bdevs of a deleted target are in no subsystem any more |
| TargetOutcome.FreedThenCreated | pkg/spdk/service_tgt.go:61-270 | and can be exported under another name |
| TargetOutcome.CreateThenDelete | pkg/spdk/service_tgt.go:61-270 | deleting a target just created gives back the subsystems as they were, and the set of their ports |
| TargetRuns.RunKeepsNames | pkg/spdk/service_tgt.go:61-270 | over every sequence of creations and deletions with any faults, names and bdevs stay unique |
| TargetRuns.RunKeepsPorts | pkg/spdk/service_tgt.go:61-270 | while resynchronisations succeed and the service picks the ports, no two targets share one |
| TargetRuns.FailedSyncReusesPort | pkg/spdk/svcid.go:79-86 | after one failed resynchronisation a new target is given the port of an existing one |
| TargetRuns.SpdkService.CreateTarget | pkg/spdk/service_tgt.go:61-236 | the method with its scan and remote calls leaves and returns what `Create` says |
| TargetRuns.SpdkService.DeleteTarget | pkg/spdk/service_tgt.go:238-270 | the method leaves and returns what `Delete` says, resynchronising even when the deletion fails |
| RunnableGroup.StepInv | pkg/util/runnable/runnable_group.go:89-265 | every step of every goroutine keeps the invariant |
| RunnableGroup.EveryRunIsSafe | pkg/util/runnable/runnable_group.go:142-188 | in every interleaving the WaitGroup counts the runnables started and not returned, is never raised after the stop flag, and nothing is sent on the closed ready channel |
| RunnableGroup.StartWaitsForAll | pkg/util/runnable/runnable_group.go:89-137 | when Start is over every runnable added before was handed over and has reported ready |
| RunnableGroup.StoppedRun | pkg/util/runnable/runnable_group.go:243-247 | from the stop flag on nothing is started |
| RunnableGroup.StopWaitsForAll | pkg/util/runnable/runnable_group.go:237-265 | when StopAndWait returns through `done` every started runnable has returned and none starts later |
| RunnableGroup.SendOnClosedExactlyWhen | pkg/util/runnable/runnable_group.go:197-234 | in a stopped group a send on the closed internal channel is possible if and only if some Add had passed its check and not handed its runnable over |
| RunnableGroup.AddCanCrash | pkg/util/runnable/runnable_group.go:197-240 | a run from the start in which that happens |
| RunnableGroup.SentIsStarted | pkg/util/runnable/runnable_group.go:142-186 | in every run, until the flag is set, a runnable handed over is started or in the reconciler's hands |
| RunnableGroup.DropsExactlyWhen | pkg/util/runnable/runnable_group.go:142-163 | a step drops an accepted runnable if and only if the reconciler checks it after the flag is set |
| RunnableGroup.DroppedRun | pkg/util/runnable/runnable_group.go:142-163 | a dropped runnable is never started in any continuation |
| RunnableGroup.DroppedExactlyWhen | pkg/util/runnable/runnable_group.go:195-234 | in a stopped group some run drops a runnable if and only if it is dropped already, is in the reconciler's hands, or its Add passed the check before and the channel is still open |
| RunnableGroup.AddCanBeDropped | pkg/util/runnable/runnable_group.go:195-234 | a run from the start in which Add reports no error and its runnable is never started, whatever follows |
| RunnableGroupProgress.EarlyAddsAreQueued | pkg/util/runnable/runnable_group.go:197-228 | in every run a call of Add before Start that got past its check has its runnable in the queue, and an error is returned only once the group is stopped |
| RunnableGroupProgress.QueuedIsHandedOver | pkg/util/runnable/runnable_group.go:100-137 | what was queued is handed over by the time Start is over |
| RunnableGroupProgress.ReconcilerEnds | pkg/util/runnable/runnable_group.go:142-155 | with the channel closed the reconciler can end |
| RunnableGroupProgress.StopsExactlyWhen | pkg/util/runnable/runnable_group.go:89-265 | a reachable group can be brought to a clean end if and only if it has ended so, or nothing was sent on the closed channel and the caller's context did not expire first |
| Snapshot.StepInv | pkg/controller/manager/reconciler/snapshot_reconciler.go:69-218 | every step of controller, agents and well-behaved users keeps the invariant |
| Snapshot.ClearIsAlone | pkg/controller/manager/reconciler/snapshot_reconciler.go:135-153 | with labels in place, finding no labelled unmerged sibling means no sibling is active |
| Snapshot.OneActive | pkg/agent/sync/sync_snapshot.go:107-120 | in every run with labels in place, no two snapshots of one origin and namespace both have a status other than empty or merged |
| SnapshotRuns.MergedIsFinal | pkg/agent/sync/sync_snapshot.go:164-193 | a merged snapshot stays merged for as long as it exists, whatever users do to its labels |
| SnapshotRuns.EveryRunReadsUnmerged | pkg/controller/manager/reconciler/snapshot_reconciler.go:107-110 | what that asks of its first state, that the controller goes on only with a version it read as unmerged, holds in every run |
| SnapshotRuns.TwoActiveExactlyWhen | pkg/controller/manager/reconciler/snapshot_reconciler.go:112-121 | over runs in which users give these labels and edits, two snapshots of one origin can both become active if and only if one is created with labels that are not empty and lack the right origin, or some edit leaves the origin out |
| SnapshotRuns.AntstorSnapshot.NoneInTheWay | pkg/controller/manager/reconciler/snapshot_reconciler.go:143-153 | the loop is clear if and only if no sibling is in the way |
| SnapshotRuns.AntstorSnapshot.Check | pkg/controller/manager/reconciler/snapshot_reconciler.go:69-153 | decision and changed snapshot are those of `Decide` |
| SnapshotRuns.AntstorSnapshot.Advance | pkg/controller/manager/reconciler/snapshot_reconciler.go:195-218 | the snapshot to write is that of `Act` |
| SnapshotLife.PassOutcome | pkg/controller/manager/reconciler/snapshot_reconciler.go:69-153 | when a pass releases, labels or resizes a snapshot and to what, and with which it goes on |
| SnapshotLife.AgentActsExactlyWhen | pkg/agent/sync/sync_snapshot.go:95-193 | when the agent takes, reports, restores and finishes a snapshot that is not being deleted |
| SnapshotLife.BecomesMerged | pkg/agent/sync/sync_snapshot.go:155-193 | a ready snapshot with the label that asks for it has a run that merges it |
| SnapshotLife.WholeLife | pkg/agent/sync/sync_snapshot.go:95-193 | a new snapshot with nothing in its way can be made ready on the node of its origin, merged and let go |

## Left out

- Sizes are integers: Quantity and float64 rounding are not modelled, and the local percentage of a pool is the truncated quotient of available times percentage by 100.
- Reservation sizes and snapshot reserves are taken to be non-negative.
- GreedyIsOptimal, FirstCallIsOptimal and FewestNodes hold under the conditions of `Plain`: no minimum size, no local share, aligned sizes, every node in use, free space within the remote limit.
- DisconnectIsSafe, like all migration theorems, assumes that source and destination have different addresses and the same NQN, and that `nvme list-subsys` is faithful.
- FinishedIsClean, like its companions, has SPDK list at most the one copy of this source that the agent starts; tasks of other sources come, go and change places freely.
- CleanupCanMiss: the query names the source, and the code filters its answer again; whether SPDK itself filters is not visible here. Where it does, no other task is listed, and by `AloneEndsClean` every finished migration has left no copy behind.
- All migration theorems, FinishesExactlyWhen among them, are about runs in which SPDK does not restart, and no path comes back or appears except by the host's own connect: there are no steps for these.
- AgentReconcile and HostReconcile, like their steps, find the two volumes by one question, whether the destination is ready; errors of the API reads end a pass like any stop.
- ScheduleVolumeGroup: takes its nodes as the filter chain and the library's sort leave them; `SortedMeaning` says what that order is, and a failing filter ends the call before it does anything.
- ValidateAndMutate: starts at the binding; the earlier exits for a missing uuid label, an empty status or a bad layout are the steps `CtlReport` and `CtlStop`.
- SyncOneVolume: the expansion of a volume, the setting of its type, the volume plugins and the final report that it is ready are not in it; their writes are edits by others.
- RecordedIsNeverFree is about one lifetime of the controller; the rebuilding of the state after a restart is not modelled. The bytes counted are those of the volume as last bound, which lag behind an expansion until the next successful bind.
- OneNode takes uuids and names to be unique and node ids to be non-empty.
- The API server of the life cycle accepts any finalizer on an object being deleted; one that refuses new ones has fewer runs.
- Labels other than that of the target node, status texts, volume types, snapshots cloned into volumes and the expansion label are not part of the volume's model; writes of them are steps that only make a new version.
- CreateTarget and DeleteTarget are taken one at a time, as the single agent worker issues them; other creators of subsystems are not modelled.
- Each method of the scheduler's state is one step; `Reserve` checks before it locks, and that window is not modelled.
- The error channel of a RunnableGroup is always drained, so a goroutine never blocks on it; whether a ready check ever passes is not modelled.
- Filters and priorities of the scheduler are an arbitrary choice of node; event handlers and requeue delays are not modelled, a step may happen at any time its guard holds.
- Random names and uuids are parameters.
- gRPC and CSI servers, LVM and nvme commands, the JSON-RPC transport, metadata synchronisation, metrics, leases and webhooks would only add thin wrappers.
- The second volume worker under the scheduler extender repeats the reconciler's logic and is not modelled.
