# Koala's lazy-by-key reconfiguration in Dafny

Koala moves the ownership of keys between the workers of a running stateful
dataflow without stopping it. This project models the lazy-by-key protocol and
the data structures it rests on, and proves what the protocol promises: records
are neither lost nor processed twice, every bucket has one writer, every read
sees one global map, and with eventual migration a removed worker is not needed
any more when the reconfiguration that removes it is complete.

`dafny verify dfyconfig.toml` checks the whole project.

## How the model is built

One stateful operator is modelled, with any number of workers, upstream tasks,
buckets, keys and records, through any number of reconfigurations.

* `KeyedStore` is a step machine. One action is one atomic step of one routine:
  a batch starts, a key is read locally, fetched, flushed or relocated, a batch
  is served, a write, a scan of eventual migration, a key map that leaves or
  arrives. A run is any interleaving of all routines of all workers.
  `StoreInvariant` states the structure that every step keeps, key by key, in all
  runs: entries, locations, routines. `StoreValues` has the values of a key,
  which depend on what was deleted. `StoreRefinement` and `EventualMigration`
  prove the properties of all runs.
* `RecordFlow` is the step machine of the coordinator's steps, the upstream
  routing switch with in-flight barriers, and the transition phase of the
  senders. `FlowProperties` has its theorems; `FlowOrder` and `KeyOrder` are about
  the order of records.
* `Cluster` runs both machines together with the owner history and the eventual
  migration messages, in both modes for the state of removed workers: it is
  migrated eventually, or it stays there and is fetched on demand. Here a step
  that finds a nil key map, an unlisted key, a missing lock, an occupied bucket,
  an unfinished migration or an outstanding routine of a key that leaves is not
  excluded: it leads to a state in which the worker has failed.
  `ClusterInvariant` proves for every step, and `ClusterProperties` for every
  run, that this happens in three cases only, says when it cannot happen at all,
  and carries the other theorems over to the whole system. `GradualMigration` is
  about the calls that follow one migration message.
* `SysRuns` and `Reconfiguration` build runs of the whole system out of blocks;
  the second one carries out any reconfiguration of a system at rest. `FatalRuns`,
  `Replacement`, `LateScan`, `ScaleUp`, `StaleCopy` and `EarlyHandOver` are the
  concrete runs.
* `StateService`, `Coordinator`, `ScatterGather`, `KeyMapCodec`, `Collector`,
  `FastForward`, `SlidingWindow`, `Timers`, `IndexTransfer` and `PartitionTable`
  are the loops and objects of the source: classes that update their fields,
  loops with invariants, a byte buffer that is filled by offset. Each is proved
  against a specification, and where it is a step of the machines above the
  contract says which one. `KeyMapFormat` and `WindowSpec` hold specifications.
* `EvenPartition` is the partition policy that chooses the next table;
  `BucketDealing` has its round robin over donors and recipients.
* `RingBuffer` is a step machine of two threads at the granularity of single
  memory accesses.

Go's map iteration order is arbitrary: loops over maps choose the next element
nondeterministically, or the order is a parameter.

## What turned out

* With deletes the store does not always refine one global map. A fetched key
  leaves its copy at the source, and an unknown key is read from the owner of
  its bucket, so a bucket that returns to a worker with an old copy of a deleted
  key answers with the old value. `StaleCopyRun` is such a run. `ArrivalExact`
  and `StaleRead` say exactly when it happens: when the worker that a key map
  arrives at still stores a deleted key of it. Other keys are not affected, and
  nothing but values is: everything about entries, locations, counters and
  records holds in all runs. Runs without deletes need no condition
  (`DeleteFreeRefinement`, `NoDeletesClean`).
* That a receiver has the key map before it processes a record of the bucket is
  not an assumption: the key maps are read before the peer channel is added
  (internal/supplier/supplier.go:243-294), and `ReceiverHasMap` follows.
* A sender fails when it enters the transition phase with a fetch, flush or lookup
  update of a key that leaves outstanding; worker/worker.go:204-215 does not wait
  for them. Giving the key maps away keeps the store consistent exactly if nothing
  is outstanding (`DepartExact`). A lookup update that is still outstanding aborts
  (`DepartedUpdateAborts`); if the flush is, the new owner fetches the key from a
  worker that does not store it yet, gets an empty value, and the value is lost
  (`DepartedFlushRead`). `EarlyUpdateRun` and `EarlyFlushRun` are runs in which a
  scale-down catches a worker in this state.
* A worker fails when it deletes a key that nobody has set, for instance when one
  batch sets and clears an unknown key: RemoveKey aborts on a key that is not
  listed (internal/keyby/keyLookupTableV2.go:165-170). `WriteExact` shows that a
  write of a batch aborts exactly then; `DeadDeleteRun` is a run that ends so.
* A worker fails when it scans for a cancelling worker after the last one was
  counted: the locks are gone (state/lazyByKeyUtil.go:325-327 against 380-381).
  With gradual migration a worker that was counted can be scanned again for the
  keys of a second batch while another one finishes; `LateScanRun` is such a run
  for every batch size. `LateScanOnlyIf` shows that it takes a positive batch
  size and a message with two cancelling workers, and `ScanExact` that a scan
  fails in no other way.
* These three are the only failures (`AbortsExactly`). If senders wait, only live
  keys are deleted, and migration is not gradual or no message names two
  cancelling workers, there is none (`NeverAborts`), and a new message finds no
  scan outstanding (`MessageFindsNoScan`).
* Fetch-on-demand is the default mode. There a worker is still fetched from after
  the reconfiguration that removed it is complete (`OnDemandRun`);
  `RemovedNeverRead` is about the other mode.
* A record whose pane ended before the watermark breaks the results of a sliding
  window (`OnTimeExact`, `LateRecordBreaks`). It makes a window that has fired due
  again exactly if its pane was freed or had no records
  (`LateRecordFiresTwice`). The source has no check for it.
* A negative timestamp that is not on a pane boundary is put into the wrong pane
  because the remainder truncates (`PaneStartExact` gives the exact condition).
* The bucket reserved by MaxSupportedBuckets is needed: with it as upper end of
  a range query the bound wraps around and nothing is in range
  (`BucketRangeWraps`).
* The even policy refuses some scale-ups of an even table when the workers come
  in another order (`OrderMatters`). `RePartition` gives the exact condition,
  and with the order the coordinator uses it always holds (`NeverRefused`).
* The pool of capacity + 2 batches is as small as it can be
  (`SmallerPoolAliases`).

## Model

| member | source | states |
|---|---|---|
| StoreInvariant.WriteKeeps | state/stateServiceApi.go:117-163 | A set, merge or delete that does not abort keeps every key's entry, location and routines consistent with which keys are live. |
| StoreValues.WriteValue | state/stateServiceApi.go:117-163 | A write changes the value of its key in the global map by exactly that write, and what is stored and held of every other key stays right. |
| StoreValues.UpdateValue | state/lazyByKeyUtil.go:193-232 | Relocating a fetched key, before or after its flush, leaves what every read of every key will return unchanged. |
| StoreValues.FlushValue | state/lazyByKeyUtil.go:166-168 | A background flush writes the value the key already has, so no key changes its meaning. |
| StoreInvariant.BeginKeeps | state/lazyByKeyUtil.go:12-120 | Grouping the keys of a batch and starting its fetches and scans keeps the invariant of every key. |
| StoreInvariant.StartScanKeeps | state/lazyByKeyUtil.go:281-316 | The additional keys of a scan are live at the cancelling worker and touched by no other routine, so collecting them keeps the invariant. |
| StoreRefinement.DepartExact | worker/worker.go:204-215 | Between batches, giving the key maps away keeps the store consistent iff no fetch, flush or lookup update of a leaving key is outstanding. |
| StoreRefinement.DepartedUpdateAborts | internal/keyby/keyLookupTableV2.go:111-132 | A lookup update of a leaving key that is outstanding when its key map leaves is still due afterwards and aborts. |
| StoreRefinement.DepartedFlushRead | worker/worker.go:204-215 | A key whose flush is outstanding when its key map leaves is read by its new owner at the old one: the batch is answered with what that worker has from before, and with an empty value if it has nothing. |
| EarlyHandOver.EarlyUpdateRun | worker/worker.go:204-215 | A run of the whole system exists in which a sender hands over with a lookup update outstanding, which then aborts. |
| EarlyHandOver.EarlyFlushRun | worker/worker.go:204-215 | A run exists in which a sender hands over with a flush outstanding, and the next read at the new owner gets an empty value where the global map has another. |
| StoreInvariant.InstallKeeps | internal/keyby/keyLookupTableV2.go:181-257 | Installing received key maps keeps every entry, location and routine consistent, whatever the receiver stores. |
| StoreRefinement.RunKeeps | state/lazyByKeyUtil.go:12-120 | Every run, whatever is deleted and wherever buckets go, keeps the structure: one entry per live key, at its owner or under way, and routines that agree with it. |
| StoreValues.ValueStep | state/lazyByKeyUtil.go:12-120 | Every step keeps what each routine will read or write of a key equal to its value in the global map, unless its key map arrives where an old copy is. |
| StoreRefinement.Refinement | state/stateServiceApi.go:36-113 | In every run, through any number of bucket moves, a batch is answered for exactly the keys it asked for, and a key with its value in the global map at that moment, unless its key map arrived before where an old copy of it was. |
| StoreRefinement.DeleteFreeRefinement | state/stateServiceApi.go:36-113 | Without deletes there is no hypothesis: the whole answer is the global map's answer to the keys of the batch. |
| StoreRefinement.AnswersAll | state/lazyByKeyUtil.go:12-120 | In every run a batch is answered for exactly the keys it was started with, whatever was deleted. |
| StoreRefinement.ReadsLastWrite | state/stateServiceApi.go:36-163 | A batch reads of a key what was written last by any worker, merges included, or nothing if it was never written or deleted last, under the condition on old copies. |
| StoreRefinement.BatchProgress | state/lazyByKeyUtil.go:12-120 | In every state with the invariant of the runs no batch is stuck: each key that is missing can be read or fetched now, no key was not asked for, and with all of them there the batch can be answered. |
| StoreRefinement.RoutineProgress | state/lazyByKeyUtil.go:56-119 | A key on its way can be fetched, flushed or relocated now. |
| StoreRefinement.LocatedWhenDrained | state/stateServiceApi.go:58-75 | When the migration wait group is zero, a key is in the key map of its owner iff it is live, and the location listed there stores its current value. |
| StoreValues.ArrivalExact | internal/keyby/keyLookupTableV2.go:181-257 | The arrival of a key map keeps the value of a key right iff the receiver has no old copy of it. |
| StoreRefinement.StaleRead | internal/keyby/keyLookupTableV2.go:89-107 | The first read of a deleted key after its bucket arrived finds it gone iff the worker has no old copy. |
| StaleCopy.StaleCopyRun | internal/keyby/keyLookupTableV2.go:89-107 | A run of the whole system, with a scale-up and a scale-down, exists in which a batch is served with the old value of a key that the global map does not have. |
| StoreRefinement.UpdateNeverAborts | internal/keyby/keyLookupTableV2.go:111-132 | Every key a routine is about to relocate is in a non-nil key map. |
| StoreRefinement.WriteExact | internal/keyby/keyLookupTableV2.go:134-174 | A write of a key of a served batch aborts iff it deletes a key that is not in the global map; the key map is never nil. |
| StoreRefinement.GroupedRemoteIsListed | state/stateServiceUtil.go:999-1018 | A key grouped to another worker is listed and live; an unknown key is grouped to the local worker. |
| StoreRefinement.InstallNeverAborts | internal/keyby/keyLookupTableV2.go:220-231 | A receiver never has entries of its own for a bucket whose key map is on its way to it. |
| StoreRefinement.SingleCopy | internal/keyby/keyLookupTableV2.go:279-294 | Over all workers and messages a key has an entry iff it is live, and then exactly one; a table has a map for a bucket iff it names its worker as owner. |
| StoreRefinement.NoLostUpdate | state/stateServiceApi.go:141-155 | In every run the backend and the key map of a worker hold what it wrote of a key until it writes the key again, starts its next batch or hands over buckets. |
| StoreRefinement.AdditionalKeysDisjoint | state/lazyByKeyUtil.go:382-398 | In every run the additional keys of a scan are not keys of the batch and not on the way already. |
| EventualMigration.ProgressStep | state/lazyByKeyUtil.go:281-336 | Every step keeps the counter exact and every finished bucket free of keys that nobody is fetching. |
| EventualMigration.CounterCounts | state/lazyByKeyUtil.go:318-335 | In every reachable state the counter is the number of cancelling workers not yet done, and migration is on iff it is not zero. |
| EventualMigration.MigrationComplete | state/lazyByKeyUtil.go:318-335 | At counter zero what is still listed at a cancelling worker is a needed key already stored locally; once the wait group is zero nothing is. |
| EventualMigration.LeftStep | state/lazyByKeyUtil.go:359-407 | While the buckets of a worker stay, no step adds to the keys that are still to be migrated from a cancelling worker. |
| GradualMigration.GradualTerminates | state/lazyByKeyUtil.go:359-407 | In every run of the whole system, after a message the calls for a cancelling worker that stop early are at most its listed keys divided by the batch size, none without a batch size, and until it is counted no other call has returned. |
| GradualMigration.SignalsOnce | state/lazyByKeyUtil.go:318-335 | Between two messages the end of the migration is signalled exactly once if it has ended and not at all otherwise, by a call that returns, and finished buckets stay finished until then. |
| EventualMigration.LocationsTurnLocal | internal/keyby/keyLookupTableV2.go:111-150 | Entries that point to another worker only ever disappear while the bucket stays. |
| EventualMigration.LateScanOnlyIf | state/lazyByKeyUtil.go:318-335 | In every run a scan that finds the migration over is of a worker that was counted before, with a positive batch size and a message with at least two cancelling workers. |
| EventualMigration.SourceDoneStep | state/lazyByKeyUtil.go:281-336 | Nothing of an affected bucket is ever still to be fetched from a counted worker. |
| RecordFlow.FlowStepKeeps | worker/worker.go:98-187 | Every step of the protocol keeps: a barrier separates old-table from new-table records on each channel, peer channels carry key maps first, and each key map is where the stage says. |
| RecordFlow.SendMapsKeeps | worker/worker.go:196-230 | A sender's key maps go out first on its peer channels, for exactly the buckets it loses. |
| RecordFlow.TakeBarrierKeeps | internal/supplier/supplier.go:639-673 | Counting barriers ends the transition phase exactly when every upstream's barrier was taken. |
| RecordFlow.FinishKeeps | coordinator/apiServiceUtil.go:937-971 | When every task is done, every channel has only records of the new table and every key map is at its new owner. |
| FlowProperties.SingleWriter | worker/worker.go:112-132 | In every run a record, from upstream or from a peer, is processed only by the worker that holds the key map of its bucket. |
| FlowProperties.CleanExit | worker/worker.go:233-239 | After a sender left the transition phase no record of a bucket it gave away is on its upstream channels. |
| FlowProperties.Conservation | worker/worker.go:98-187 | At every moment of every run each emitted record has exactly one place and occurs there exactly once; others occur nowhere. |
| FlowProperties.ProcessedOnce | worker/worker.go:112-132 | No record is processed twice, by one worker or by two. |
| FlowProperties.NothingLost | worker/worker.go:98-187 | When nothing is in flight, every emitted record was processed by exactly one step. |
| FlowOrder.ChannelFifo | worker/worker.go:112-132 | In every run what a worker has taken from an upstream, followed by what is still on the channel, is exactly what that upstream emitted for it under the tables it had, in order. |
| FlowOrder.PeerFifo | worker/worker.go:98-187 | In every run what a receiver has processed from a sender, followed by what is still on the peer channel, is exactly what the sender took of the buckets it gave to this receiver, in order. |
| KeyOrder.ProcessedInOrder | worker/worker.go:98-187 | Of two records of a bucket that an upstream task emits under one table, the second is processed only after the first, directly or after being forwarded, by one worker or by two. |
| ClusterInvariant.SysStepKeeps | coordinator/apiService.go:163-217 | Every step of the whole system keeps the joint invariant, and a worker fails in it iff it deletes a key that is not live, starts a scan after the migration is over, or hands over with a routine of a leaving key outstanding. |
| ClusterInvariant.AffectedHasMap | state/lazyByKeyUtil.go:369-375 | While its migration is on, a worker has the key maps of all affected buckets. |
| ClusterInvariant.ScanExact | state/lazyByKeyUtil.go:359-408 | A scan that is due fails iff it is late, never because of a nil key map. |
| ClusterInvariant.HandsOverMoved | internal/keyby/keyLookupTableV2.go:276-294 | The buckets a sender's lookup table gives away are exactly those the repartition moves, and it has their key maps. |
| ClusterInvariant.RetiredNow | coordinator/apiServiceUtil.go:853-934 | When the coordinator completes, whatever is still listed at a removed worker is already stored at its new place. |
| ClusterInvariant.RetiredStep | state/lazyByKeyUtil.go:129-187 | A retired worker that owns nothing stays retired under every step of the state. |
| ClusterProperties.AbortsExactly | coordinator/apiService.go:163-217 | In every run a worker fails exactly when it deletes a key that is not live, starts a late scan, or hands over with a routine of a leaving key outstanding: batches find key maps, relocated keys are listed, key maps are there to send and find an empty place, and messages find the previous migration complete. |
| ClusterProperties.NeverAborts | coordinator/apiService.go:163-217 | No worker fails in any run in which only live keys are deleted and senders wait, if migration is not gradual or no message names two cancelling workers. |
| ClusterProperties.MessageFindsNoScan | state/stateService.go:159-220 | Under the same condition on messages, a worker that is not told yet has no scan outstanding. |
| FatalRuns.DeadDeleteRun | internal/keyby/keyLookupTableV2.go:153-174 | A run of the whole system exists that ends in the fatal exit of deleting a key that is not in the global map. |
| LateScan.LateScanRun | state/lazyByKeyUtil.go:318-381 | For every positive batch size a run with two cancelling workers exists that ends in the failure of a late scan. |
| ClusterProperties.ReceiverHasMap | internal/supplier/supplier.go:243-294 | A worker that receives a record has the key map of its bucket, and no other worker or message has entries of it. |
| ClusterProperties.ClusterRefinement | state/stateServiceApi.go:36-113 | In the whole system, with batches started by records and key maps carried by the protocol, a batch is answered for exactly the keys it asked for, with the values of one global map, for each key whose map was never taken over where an old copy of it was. |
| ClusterProperties.OwnerHistory | coordinator/apiServiceUtil.go:171-181 | In every reachable state the location of every key is in the owner history of its bucket. |
| ClusterProperties.HistoryIs | coordinator/apiServiceUtil.go:171-181 | In every run the owner history of a bucket is exactly the set of its owners in the first table and in every table chosen since. |
| ClusterProperties.NamedOwner | internal/keyby/keyLookupTableV2.go:276-294 | In every run each worker's lookup table names for a bucket only a worker that is in its owner history. |
| ClusterProperties.NewTaskTable | internal/keyby/keyLookupTableV2.go:50-75 | A new task starts with the owners of the new partition, with an empty key map for each of its own buckets and no map for the others. |
| ClusterProperties.MessagesReach | coordinator/apiServiceUtil.go:853-934 | Every key located at a removed worker is in the message to the worker that has its key map. |
| ClusterProperties.RemovedNeverRead | coordinator/apiServiceUtil.go:973-1011 | From the completion of the reconfiguration that removes it on, a worker owns no bucket, and in eventual mode its backend is never fetched from and no drained owner lists a key there. |
| Replacement.OnDemandRun | coordinator/apiService.go:203-210 | Without eventual migration a run exists in which a worker is fetched from after the reconfiguration that removed it was completed. |
| Reconfiguration.CanReconfigure | coordinator/apiService.go:163-217 | From every reached state at rest, every repartition can be carried out to the point where the coordinator may finish, with no failure, and with key maps, state and sessions carried over. |
| ClusterProperties.NoDeletesClean | internal/keyby/keyLookupTableV2.go:89-107 | Without deletes no key map is ever taken over where an old copy of one of its keys is. |
| StateService.BucketsForIff | state/stateService.go:167-180 | A bucket is grouped under a cancelling worker iff the message names that worker for it. |
| StateService.BucketsForInOrder | state/stateService.go:167-180 | Buckets of such a message are grouped once each and low to high. |
| StateService.GroupOne | state/stateService.go:170-179 | One entry of the message extends the grouping by exactly its workers. |
| StateService.StateService.SetEventualMigrationMeta | state/stateService.go:159-220 | The message becomes the new migration, grouped by cancelling worker, with the counter at their number. |
| StateService.StateService.ScanBucket | state/lazyByKeyUtil.go:382-398 | The keys found in a bucket are distinct and eligible, all of them unless the limit was reached exactly. |
| StateService.StateService.GetKeysForEventualMigration | state/lazyByKeyUtil.go:345-408 | The scan loop returns distinct keys that make a scan of the distributed model, with its finished buckets and completion flag, and fails iff the migration is over. |
| StateService.ScanRefines | state/lazyByKeyUtil.go:345-408 | What the loop collects is a scan result of the distributed model. |
| StateService.StateService.FetchAdditionalKeysByTcp | state/lazyBykeyTcpUtil.go:251-307 | For any chunking, every key is stored with its own value and then listed as local. |
| StateService.SetManyAt | state/lazyBykeyTcpUtil.go:271-285 | Storing distinct keys chunk by chunk stores each with its value and changes nothing else. |
| StateService.RelocatedAt | state/lazyBykeyTcpUtil.go:287-303 | Exactly the given entries become local. |
| StateService.StateService.FetchAdditionalKeys | state/lazyByKeyUtil.go:281-336 | One call fails iff the migration is over; otherwise it moves exactly the collected keys with the values of the cancelling worker, counts a worker at most once, and signals the end iff it ends the migration. |
| Coordinator.ToRanges | coordinator/apiServiceUtil.go:238-268 | A sorted bucket list becomes ranges that expand to the same list and cannot be merged further. |
| Coordinator.GenerateMigrationPlan | coordinator/apiServiceUtil.go:223-286 | The plan lists for each destination each of its sources once, with ranges for exactly the buckets that move between them. |
| Coordinator.PlanIsExact | coordinator/apiServiceUtil.go:223-286 | Expanding the plan gives back precisely the owner changes. |
| Coordinator.InboundPeers | coordinator/apiServiceUtil.go:663-689 | The number of inbound peers a receiver is told, sources times upstream operators, is the number of connections that senders open to it, and its sources are exactly those that have it as a peer. |
| Coordinator.Coordinator.constructor | coordinator/taskPlacement.go:87-93 | The first history of a bucket is its first owner. |
| Coordinator.Coordinator.UpdateKeyPartition | coordinator/apiServiceUtil.go:130-181 | Every new owner, and nobody else, enters the history of its buckets. |
| Coordinator.Coordinator.EventualMessages | coordinator/apiServiceUtil.go:853-904 | The message to a worker names a cancelling worker for a bucket iff the worker owns the bucket and the other once owned it; each bucket and each worker is named once, buckets low to high. |
| Coordinator.MessageFromHistory | state/stateService.go:159-220 | What a worker groups from its message is exactly the affected buckets of the whole system. |
| Coordinator.MessagesSent | coordinator/apiServiceUtil.go:853-934 | A worker gets a message iff it has an affected bucket, and what it groups from it is a non-empty message of the whole system. |
| EvenPartition.RePartition | internal/keyby/partition/evenPartitionPolicy.go:133-194 | The new table gives every worker its share, moves buckets only from removed or to new workers, and the changes are exactly the difference; no donor gives a worker two buckets more than another donor that still gives to a later one; it is refused iff a worker to keep has less (scale-up) or more (scale-down) than its new share, or the list is not a strict sub- or superset. |
| EvenPartition.EvenWithinOne | internal/keyby/partition/evenPartitionPolicy.go:10-19 | In an even table no worker has two buckets more than another. |
| BucketDealing.Fill | internal/keyby/partition/evenPartitionPolicy.go:290-322 | The round robin over the donors ends and gives the recipient exactly what it needs, each bucket from its owner's list and recorded once, and no donor gives two buckets more than one that still has some. |
| BucketDealing.Distribute | internal/keyby/partition/evenPartitionPolicy.go:402-439 | When donations and needs add up, every offered bucket gets a recipient and every recipient what it needs, spread over the donors. |
| EvenPartition.UpBalanced | internal/keyby/partition/evenPartitionPolicy.go:219-288 | What the existing workers have above their new shares is exactly what the new workers need, so the checks for too few donations never fail. |
| EvenPartition.DownBalanced | internal/keyby/partition/evenPartitionPolicy.go:345-400 | The buckets of the removed workers are exactly what the remaining ones need, so donation and need never differ. |
| EvenPartition.FewestMovements | internal/keyby/partition/evenPartitionPolicy.go:10-19 | No even table for the new workers is reached with fewer moved buckets. |
| EvenPartition.NeverRefused | coordinator/apiServiceUtil.go:62-87 | Over any sequence of scale-ups and scale-downs, with new workers last and the last ones removed, the table stays even and no valid request is refused. |
| EvenPartition.OrderMatters | internal/keyby/partition/evenPartitionPolicy.go:234-242 | With another order of the same workers a scale-up of an even table can be refused. |
| EvenPartition.GenerateBuckets | internal/keyby/partition/evenPartitionPolicy.go:73-106 | The first partition is one block per worker of the size of its share. |
| EvenPartition.BlocksEven | internal/keyby/partition/evenPartitionPolicy.go:73-106 | Blocks of these sizes cover all buckets and make an even table. |
| EvenPartition.UpdatePartition | coordinator/apiServiceUtil.go:130-181 | With this policy the coordinator's table is rebalanced and exactly the new owners enter the history. |
| EvenPartition.CanStartWith | coordinator/apiServiceUtil.go:164-169 | A repartition changes the table and leaves buckets only with updated workers, as a reconfiguration of the protocol needs. |
| ScatterGather.SlotsPartition | state/stateServiceUtil.go:984-1021 | The trackers of the workers partition the index range of a state, each in increasing order. |
| ScatterGather.GroupKeysByWorker | state/stateServiceUtil.go:984-1021 | Each worker gets, per state, the keys it stores in order, with their indices. |
| ScatterGather.MergeResults | state/stateServiceUtil.go:1049-1070 | Every answer is written at its tracked index and not overwritten by another worker's. |
| ScatterGather.ScatterGatherIdentity | state/stateServiceUtil.go:984-1070 | Whatever the workers answer, index i of the result is what the worker that stores key i answered for key i. |
| KeyMapFormat.EncodedIsEncodable | api/stateClient/stateClientUtils.go:78-96 | A key map of encoded keys can be sent: the prefix that the format drops is the one the encoder put in front. |
| KeyMapFormat.EncodeKeyInjective | api/stateClient/stateClientUtils.go:78-96 | Keys that differ in operator, bucket, state or user key are encoded differently. |
| KeyMapFormat.BucketRoundTrip | internal/keyby/keyLookupTableV2.go:354-441 | A bucket written in any order of its keys is read back exactly. |
| KeyMapFormat.RoundTrip | internal/keyby/keyLookupTableV2.go:181-496 | The payload of any encodable buckets is read back as exactly these buckets with exactly these maps. |
| KeyMapFormat.EncodedRoundTrip | internal/keyby/keyLookupTableV2.go:181-496 | The payload of any buckets with keys of the state client is read back exactly, up to the width of the length fields. |
| KeyMapCodec.KeyMapWriter.AddBucket | internal/keyby/keyLookupTableV2.go:354-441 | Filling the buffer by offset, with the length field last, appends exactly the bytes of the bucket. |
| KeyMapCodec.KeyMapWriter.Done | internal/keyby/keyLookupTableV2.go:444-462 | The message is the type, the length of the rest, the number of buckets and their bytes. |
| KeyMapCodec.ReadBucket | internal/keyby/keyLookupTableV2.go:205-254 | Reading by offset returns the bucket the bytes stand for. |
| KeyMapCodec.KeyLookupTable.DeserializeMigratingKeyMaps | internal/keyby/keyLookupTableV2.go:181-257 | The received buckets get exactly their maps and the local owner. |
| KeyMapCodec.InstalledAt | internal/keyby/keyLookupTableV2.go:220-238 | A received bucket has its map and the local owner afterwards, every other bucket keeps its entry. |
| KeyMapCodec.KeyLookupTable.SerializeMigratingKeyMaps | internal/keyby/keyLookupTableV2.go:263-301 | One message per new owner with the maps of the buckets it gets; these buckets lose their map and name the new owner, and the others keep their entry. |
| KeyMapCodec.SentExactly | internal/keyby/keyLookupTableV2.go:276-294 | The messages partition the buckets that change owner: each is sent once, to its new owner, with its own map. |
| KeyMapCodec.GivenAwayAt | internal/keyby/keyLookupTableV2.go:276-294 | A bucket with another owner in the new table has that owner and no map afterwards, every other bucket its old entry. |
| KeyMapCodec.DepartRefines | internal/keyby/keyLookupTableV2.go:263-301 | The table after serializing is the table of the distributed store after the departure. |
| KeyMapCodec.MessageRefines | internal/keyby/keyLookupTableV2.go:276-294 | The message to a worker has exactly the buckets that are then on their way to it, with the maps that are in flight. |
| KeyMapCodec.InstallRefines | internal/keyby/keyLookupTableV2.go:220-238 | The table after installing is the table of the distributed store after the arrival. |
| KeyMapCodec.TransferRefines | internal/keyby/keyLookupTableV2.go:181-301 | After one worker serialized and another installed, both tables are those of the distributed store after the departure and the arrival of exactly the buckets that move between them. |
| KeyMapCodec.TransferRoundTrip | internal/keyby/keyLookupTableV2.go:181-301 | The receiver of a message decodes exactly the maps of the buckets that moved to it, each bucket once. |
| PartitionTable.Serialize | internal/keyby/partitionTable.go:85-112 | The ranges are the maximal runs of one owner, in order and without gaps. |
| PartitionTable.DeserializeIndexed | internal/keyby/partitionTable.go:48-70 | The indexed decoder gives each bucket the owner of its last range. |
| PartitionTable.DeserializeAppending | internal/keyby/keyLookupTable.go:53-78 | The appending decoder gives the ranges one after the other and refuses a wrong number of buckets. |
| PartitionTable.DecodersAgree | internal/keyby/keyLookupTable.go:53-78 | Both decoders recover the table that was serialized. |
| PartitionTable.DigitsOrdered | state/stateServiceApi.go:278-291 | Fixed-width big-endian numbers are ordered lexicographically as numbers. |
| PartitionTable.BucketRangeExact | state/stateServiceApi.go:272-296 | A key is in the bounds of a bucket range iff it belongs to the operator and to one of the buckets. |
| PartitionTable.BucketRangeWraps | state/stateServiceApi.go:286-291 | With the largest 32-bit bucket as upper end no key is in range. |
| WindowSpec.PaneStartExact | api/dataflow/slidingWindow.go:599-605 | A pane contains the time it was computed for iff the time is not negative or is on a pane boundary. |
| WindowSpec.RecordInWindow | api/dataflow/slidingWindow.go:576-596 | A record is in a window iff its pane is one of the window's panes. |
| WindowSpec.PanesAreDirect | api/dataflow/slidingWindow.go:193-212 | For a lawful aggregator, merging the panes of a window is aggregating its records directly. |
| SlidingWindow.GetSlidingWindowStartTimes | api/dataflow/slidingWindow.go:576-596 | The start times are exactly the windows that contain the pane, each once. |
| SlidingWindow.SlidingWindow.ProcessBatch | api/dataflow/slidingWindow.go:110-152 | Any batch is processed, record by record; if the pane of no record has ended, pane states, window lists and earlier results stay exact. |
| SlidingWindow.SlidingWindow.ProcessRecord | api/dataflow/slidingWindow.go:131-148 | A record is added to its pane, a pane without state is created and added to all its windows, and a record whose pane has not ended keeps everything exact. |
| SlidingWindow.OnTimeExact | api/dataflow/slidingWindow.go:576-605 | The pane of a record has not ended iff none of the record's windows is over. |
| SlidingWindow.LateRecordBreaks | api/dataflow/slidingWindow.go:110-152 | With any other record the results are wrong, unless the aggregator ignores it. |
| SlidingWindow.LateRecordFiresTwice | api/dataflow/slidingWindow.go:155-225 | A window that is over before one of its records is processed is due at the next watermark iff the pane of the record was freed or had no records. |
| SlidingWindow.SlidingWindow.ProcessProgressedWatermark | api/dataflow/slidingWindow.go:155-225 | Every window that is over fires once with its direct aggregate, the invariant on pane states holds for the new watermark, and the panes that are freed are among the fetched ones. |
| SlidingWindow.WindowsEqualDirect | api/dataflow/slidingWindow.go:155-225 | A window's direct aggregate is among the results iff it is over and has records, and it fires at most once. |
| SlidingWindow.PaneLifetime | api/dataflow/slidingWindow.go:189-224 | A pane has state iff some active window lists it, so nothing is freed early and nothing leaks. |
| IndexTransfer.ActiveIndex.Construct | api/dataflow/slidingWindow.go:308-370 | Every entry of a key with another owner goes to that owner's message and only those do; the rest stays. |
| IndexTransfer.ActiveIndex.Receive | api/dataflow/tumblingWindow.go:303-321 | An entry that is only received or only there already is there unchanged afterwards, one that is both is joined, and there are no others. |
| IndexTransfer.TransferAll | api/dataflow/customWindowJoin.go:260-333 | Sending by every worker and then receiving by every worker, in any order of entries, makes the transfer that the next two rows speak of. |
| IndexTransfer.TransferComplete | api/dataflow/customWindowJoin.go:260-333 | When every worker sends and receives, each worker has exactly the entries of the keys it owns. |
| IndexTransfer.Conserved | api/dataflow/customWindowJoin.go:260-333 | Every entry is at exactly one worker afterwards, the owner of its key, with what it carried. |
| Timers.Timer.GetExpiredTimers | api/dataflow/customWindowJoin.go:405-431 | Exactly the expired timers, each once, by timestamp from low to high. |
| Timers.Timer.ProcessProgressedWatermark | api/dataflow/customWindowJoin.go:145-187 | Every expired timer fires exactly once in the order of the timestamps, the others stay. |
| RingBuffer.StepKeeps | internal/buffer/ringBuffer.go:61-103 | Every memory access of either thread keeps the slots, the indices and the count consistent. |
| RingBuffer.IsQueue | internal/buffer/ringBuffer.go:61-103 | For every interleaving the consumer gets what the producer has for it, batches and signals, in order and each once; enqueue fails iff it finds the buffer full and dequeue iff it finds it empty. |
| RingBuffer.AllOffered | internal/buffer/ringBuffer.go:61-80 | At every moment each batch and signal the producer had is written to the buffer or still in its hand. |
| RingBuffer.AllDelivered | internal/buffer/ringBuffer.go:61-103 | When both threads are between calls and the buffer is empty, the consumer has got everything the producer had for it. |
| RingBuffer.NoAliasing | internal/buffer/ringBuffer.go:31-46 | A pool of capacity + 2 never hands out a batch that is queued or that the consumer has. |
| RingBuffer.SmallerPoolAliases | internal/buffer/batchPool.go:5-48 | With any smaller pool a run exists in which the producer is handed the batch the consumer is working on. |
| Collector.AddRecord | api/collector/keybyCollector.go:117-139 | A record is appended to what its downstream sees, and no batch exceeds the batch size. |
| Collector.KeybyCollector.Emit | api/collector/keybyCollector.go:100-148 | Exactly the channel of the record's bucket gets the record, at its end. |
| Collector.KeybyCollector.BroadcastWatermark | api/collector/keybyCollector.go:235-253 | Every channel gets the watermark after all records emitted before it. |
| Collector.KeybyCollector.UpdateRouting | api/collector/keybyCollector.go:168-216 | Every old and new channel gets one barrier, the removed ones then end, and the new table routes. |
| Collector.BarriersSeparate | api/collector/keybyCollector.go:168-216 | Over any sequence of operations, on every open or removed channel barriers separate the records routed by consecutive tables, and a removed channel ends with one termination signal. |
| Collector.ChannelContents | api/collector/keybyCollector.go:100-253 | Over any sequence of emits, watermarks and routing updates, a downstream gets exactly the records of its buckets, the watermarks and the barriers since it was added, in this order, and a removed one those up to its removal and then the end. |
| Collector.RecordsArrive | api/collector/keybyCollector.go:100-148 | The records on an open channel are exactly those emitted for its downstream under the table of the moment. |
| FastForward.FastForward | api/dataflow/statefulOperatorBase.go:158-215 | Records of local keys remain, the others go to the peer of their owner, all in order. |
| FastForward.PartsPartition | api/dataflow/statefulOperatorBase.go:172-206 | Every record of a batch is in the part of its owner as often as in the batch, and in no other. |
| FastForward.PartsInOrder | api/dataflow/statefulOperatorBase.go:172-206 | A part has the records of its owner at ascending positions of the batch, all of them. |

## Left out

- Sockets, gRPC and TCP framing, stream errors: channels are sequences.
- The coordinator's own fatal exits (no affected bucket, no key space left for a new task, a failed call) and those of the wire decoder: they are preconditions, or guards of the steps of `RecordFlow`.
- The request and response frames of state/lazyBykeyTcpUtil.go: only the loop that consumes the chunks is modelled, with in-order, non-empty chunks.
- The hash and uniform policies of internal/keyby/partition: in `Coordinator` and `Cluster` the new table is any table, with the owner changes as a parameter that lists exactly the buckets with a new owner (`Coordinator.IsDiff`); `EvenPartition` is the policy that provides them.
- The older lazy versions (basic, optimized, no migration) and the stop-and-restart protocol.
- Watermarks in the record flow, and the minimum over channels in internal/supplier: watermarks appear in the collector, the window operators and the timers only. State access of a fired window or timer is not a batch of `Cluster`; there batches are started by records.
- Order of two records of a key when the upstream task switches its table between them: the source does not promise it. `KeyOrder.ProcessedInOrder` is about two records under one table.
- JSON and gob encodings, hash functions, reflection: the hash is an arbitrary function, messages of `IndexTransfer` are values.
- Metrics, Kafka, configuration, command lines, generated code.
- RecordFlow.FlowStepKeeps: a batch of records is taken from a channel one record at a time, and pending collector batches are part of the channel; batching is in `Collector`.
- ClusterProperties.NeverAborts: the condition on messages is sufficient, and `LateScanRun` shows for each batch size that it cannot be dropped. That a message finds no scan outstanding is a guard, proved under the same condition by `MessageFindsNoScan`. The model does not follow a run beyond the hand-over of a sender that did not wait.
- ClusterInvariant.ScanExact: a scan is modelled as failing if any unfinished affected bucket has no key map, also one behind the point where the source stops; `AffectedHasMap` shows that there is none.
- FlowProperties.Conservation: assumes that every emitted record has its own number.
- GradualMigration.GradualTerminates: bounds the calls that stop early; that a call returns at all is a matter of the network.
- SlidingWindow.SlidingWindow.ProcessBatch: the nested maps of the index are one map by start and key, and fetching, caching and flushing pane state is a map update.
- IndexTransfer.ActiveIndex.Receive: the nested maps are one map by time and key, and how two entries of the same time and key are joined is a parameter.
- IndexTransfer.TransferAll: all messages are constructed before the first is received, and each entry is at one worker before.
- KeyMapCodec.KeyLookupTable.SerializeMigratingKeyMaps: the buffers of the destinations are filled one after the other, not interleaved, and the bytes of the work unit type are a parameter.
- KeyMapFormat.RoundTrip: is about keys whose length without prefix fits 16 bits and messages whose lengths fit 32 bits, as is `EncodedRoundTrip`.
- PartitionTable.BucketRangeExact: is about upper ends below the reserved bucket; `BucketRangeWraps` is about that one.
- StateService.StateService.FetchAdditionalKeys: calls are one at a time, and the location updates of a chunk, which the source runs in the background, follow its flush.
- EvenPartition.RePartition: the number of buckets is the length of the old table, and sorting the lists is a function.
- BucketDealing.Distribute: the loops of scale-up and scale-down over donors and recipients are one method.
