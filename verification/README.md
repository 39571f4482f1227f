# Verified models of the Skydive flow exporter

The Skydive flow exporter moves network flow records from a Skydive analyzer to object stores,
VPC flow logs and Prometheus. This project models its stateful stages in Dafny and proves what
they keep over whole runs. `dafny verify dfyconfig.toml` checks everything.

| part | files | program |
|---|---|---|
| Accept/Reject engine | `VpcFlow`, `ActionSpec`, `ActionRounds`, `ActionAccounting`, `ActionOrder`, `ActionVerdicts`, `ActionLives`, `ActionTotals`, `ActionEngine` | `vpclogs/pkg/action.go`, `vpclogs/pkg/transform.go` |
| buffered object store | `ObjectStoreSpec`, `ObjectStoreRuns`, `FlushTimers`, `ObjectStore` | `core/store_buffered.go` |
| Prometheus store | `PromSpec`, `PromRuns`, `PromStore`, `PromViews` | `prom_sky_con/pkg/store_prom.go` |
| resolver stack | `TtlCache`, `Resolvers` | `secadvisor/pkg/resolve_cache.go`, `resolve_fallback.go`, `resolve_multi.go` |
| update counter and batch pipeline | `UpdateCount`, `Pipeline` | `secadvisor/pkg/transform.go`, `core/pipeline.go` |
| account file | `AccountFile` | `secadvisor/pkg/account_file.go` |

Each stage that updates state is a class (`ActionEngine.Action`, `ObjectStore.StoreBuffered`,
`PromStore.StorePrometheus`, `Resolvers.ResolveCache`, `UpdateCount.Transformer`,
`Pipeline.BatchPipeline`, `AccountFile.AccountStore`) whose methods follow the program branch
by branch and are proved equal to functions on values. The theorems are about those functions,
for every input and every run. Where Go iterates over a map, a method picks the next key
arbitrarily, and a theorem holds for every pick.

## Conventions

- A call reads the clock once; the account file is the exception, where the second reading matters.
- Encoder, compressor, writer, resolvers, classifier, filter and mangler are arbitrary functions or
  arbitrary outcomes.
- Numbers are unbounded. Counters are non-negative 64-bit values in the program, and the differences
  that the engine forms of them do not overflow.
- Proper setup of the Accept/Reject engine (`ActionSpec.ProperSetup`, `ActionSpec.Proper`): the two
  capture points differ, and a tracking ID has one UUID at each. It is an explicit precondition,
  because the program leaves everything else to an error path that it cannot continue from.

## Where the program does less than it means to

Each of these is a lemma with inputs at which it happens, next to the exact condition under which the
program does what it means to.

- A flow that is rejected on one side and then turns up on the other with smaller counters, or with an
  earlier time, is next accepted with negative counts, or for a window that ends before it starts
  (`RejectThenBehind`, `RejectTenConfirmFour`; exactly when: `ForwardIffCaughtUp`).
- Records that come again after a cleanup has removed the entry are accepted again
  (`ResentIsAcceptedTwice`; exactly when: `AlwaysConfirmedIff`; never when later records cover earlier
  ones: `AcceptedOverAllLives`).
- The order in which Go iterates a map shows in the verdicts when the sides disagree on the start of the
  connection (exactly when: `OrderIrrelevantIffSameStart`), and in the cleanup when they disagree on
  termination (`TerminationTellsOrders`; exactly when: `RemovalAgreesIffSameTermination`).
- The compaction in `StoreFlows` copies into a slice of length zero, so that every call that writes an
  object drops what the loop left in that queue (`FourthFlowLost`; exactly when: `CallLosesNothingIff`).
- With streams that last less than a second, objects overwrite each other (`SameKeyTwice`; exactly when:
  `KeysDistinctIff`).
- When the only flush timer fires and the first write of a due queue fails, the queue stays and no timer
  is left (`FailedFireStalls`; exactly when: `CallStrandsIff`). Such a failure keeps a queue from being
  looked at in time exactly when no other timer happens to come in time (`CallInTimeIff`), and the next
  call without one heals it (`LatestEventDecides`).
- A cleanup hides the series of a live connection that shares its labels with an expired one
  (`ExpiryHidesLive`; exactly when: `CleanShowsIffUnshared`).
- The cache alone panics on the second query for an address that is not found (`NotFoundTwicePanics`;
  exactly when: `RepliesAreRecent`); the stack of the program does not (`StackAnswers`).
- The counts that a batch reports depend on the order of its tags when a UUID has flows under two of
  them (`SharedUuidTellsOrders`; exactly when: `OrderIrrelevantIffNoneShared`).
- Two interrupted updates of the account file in a row, or one failed write, lose the whole total
  (`TwiceCutLosesAll`; exactly when: `CrashKeepsTotalIff`, over runs `RunTotalIff`;
  `FailedWriteLosesTotal`), and a clock that ticks during the first update loses that one
  (`FirstAddRecordedIff`).

## Model

| member | source | states |
|---|---|---|
| `VpcFlow.TruncDiv` | vpclogs/pkg/action.go:191 | division truncates toward zero: bounds of the quotient for either sign |
| `ActionEngine.Action.ResetFlowInfoState` | vpclogs/pkg/action.go:102-112 | every entry of the table, visited in any order, moves its records to the previous ones |
| `ActionEngine.Action.CollectFlowInfo` | vpclogs/pkg/action.go:114-142 | the table becomes the one in which the batch is collected record by record, new entries included |
| `ActionEngine.CollectTableIsOwn` | vpclogs/pkg/action.go:114-142 | a tracking ID gets exactly its own matching records, in arrival order, and an entry only if it has some |
| `ActionVerdicts.OwnIsPicked` | vpclogs/pkg/action.go:117-124 | a tracking ID's own records are those of the batch that carry it and come from either capture point, all of them and in order |
| `ActionRounds.CollectKeepsLatest` | vpclogs/pkg/action.go:133-140 | per UUID the record with the latest update time survives the round, the first of equals |
| `ActionVerdicts.LatestIsFirstOfLatest` | vpclogs/pkg/action.go:133-140 | which record that is: none of the UUID in the round has a later update time, and those before it have an earlier one |
| `ActionEngine.Action.ObtainKeys` | vpclogs/pkg/action.go:171-183 | the two keys of a two-element map in either order, empty strings for any other map |
| `ActionEngine.Action.ExceedTimeoutThreshold` | vpclogs/pkg/action.go:185-199 | the gap test, the same whichever key comes first |
| `ActionEngine.Action.PrepareTimeoutResponse` | vpclogs/pkg/action.go:201-215 | a Reject with zero counts that leaves the reported metric as it was |
| `ActionEngine.Action.CombineFlows` | vpclogs/pkg/action.go:217-284 | the outcome and the whole new entry of combining two records, for the key order that was drawn |
| `ActionEngine.Action.OneFlow` | vpclogs/pkg/action.go:301-349 | the outcome of a round with one record: first sight, timeout, or combination with the other side |
| `ActionEngine.Action.ZeroFlows` | vpclogs/pkg/action.go:351-376 | the outcome of a round without records |
| `ActionEngine.Action.Report` | vpclogs/pkg/action.go:404-421 | dispatch on the number of records; three never occur with proper setup |
| `ActionEngine.Action.CleanupOldEntries` | vpclogs/pkg/action.go:378-393 | exactly the entries last reported as rejected or terminated are removed, the others are untouched |
| `ActionEngine.Action.Mangle` | vpclogs/pkg/action.go:395-434 | the table refines independent machines, one per tracking ID: each entry and report depends on that ID's own records and the clock, and the output lists each report once |
| `ActionRounds.RoundSettles` | vpclogs/pkg/action.go:301-376 | a round starts from and leaves an entry in which every record and metric that a branch reads is present, and knows the latest record of every UUID |
| `ActionRounds.DispatchWhenJoined` | vpclogs/pkg/action.go:332-348 | once both sides are known every round with a record combines the latest records of both, whichever branch it takes |
| `ActionRounds.DispatchWhenAlone` | vpclogs/pkg/action.go:304-331 | while one side is known the branches come to a Reject exactly at a timeout, and nothing on first sight |
| `ActionRounds.RoundIsDispatch` | vpclogs/pkg/action.go:404-421 | so the known sides decide a round: the dispatch on the number of records refines that simpler rule |
| `ActionAccounting.RunFollows` | vpclogs/pkg/action.go:217-376 | after any number of rounds the next round reports what the two sides add to the reported metric, or a timeout |
| `ActionVerdicts.RunDecides` | vpclogs/pkg/action.go:185-284 | a round of a life that knows both sides accepts if and only if it brings records and both sides together differ from the metric reported before, or none was; otherwise it rejects if and only if the latest updates of the sides are at least 1000 milliseconds times the timeout plus one apart, and is silent if not; with every field of the report |
| `ActionVerdicts.ConfirmedIsLesser` | vpclogs/pkg/action.go:158-169 | what is confirmed is in every count and in its end the lesser of both sides, and so is the first increment of the latest updates |
| `ActionVerdicts.DerivedExternalizes` | vpclogs/pkg/transform.go:154-180 | the fields written out follow from the two metrics: whole seconds of the three times, cumulative counts and increments by direction, and the protocol number |
| `ActionVerdicts.WrongPointsReject` | vpclogs/pkg/action.go:226-241 | two records that do not come from the two capture points are rejected and leave the entry as it is |
| `ActionLives.EntryRemovedIff` | vpclogs/pkg/action.go:378-393 | a round removes its entry if and only if a cleanup is due and the latest report of its life is a Reject or of a terminated flow |
| `ActionAccounting.AcceptedIsConfirmed` | vpclogs/pkg/action.go:25-35 | at every moment of every life the sum of all Accept reports, plus what was withheld at the join, is the lesser of the two sides' counters |
| `ActionAccounting.AcceptedOnBothSides` | vpclogs/pkg/action.go:33-35 | within a life of the entry the accepted total never exceeds the counters of either capture point |
| `ActionTotals.AcceptedOverAllLives` | vpclogs/pkg/action.go:25-35 | nor does the total over all lives, cleanups in between, exceed the latest counters of either side, when later records cover earlier ones and their own latest update |
| `ActionTotals.AlwaysConfirmedIff` | vpclogs/pkg/action.go:259-271 | in every run, whatever its records, the total over all lives is confirmed by both sides after every round that knows both if and only if every round that brings them together leaves out at least the total so far: the counts of an earlier one-sided Reject or those before the latest updates |
| `ActionTotals.ResentIsAcceptedTwice` | vpclogs/pkg/action.go:378-393 | it can fail: records that come again after the cleanup of their entry are accepted a second time |
| `ActionAccounting.ForwardIffCaughtUp` | vpclogs/pkg/action.go:259-271 | with growing counters no Accept report is negative if and only if, when the second side joined, both counters had reached what an earlier one-sided Reject reported; and no window ends before it starts if and only if the common end was not before the end of that Reject or, without one, before the start in the record drawn first |
| `ActionAccounting.NegativeJoin` | vpclogs/pkg/action.go:259-271 | in every life, growing or not, a second side that joins behind an earlier one-sided Reject in any of the four counters makes a negative Accept |
| `ActionAccounting.BackwardJoin` | vpclogs/pkg/action.go:259-271 | and one that joins behind in time makes a window that ends before it starts |
| `ActionAccounting.RejectThenBehind` | vpclogs/pkg/action.go:322-327 | lives of three rounds in which both happen: first sight, one-sided Reject, the other side |
| `ActionAccounting.RejectTenConfirmFour` | vpclogs/pkg/action.go:322-327 | a concrete run with that outcome |
| `ActionAccounting.WindowsTile` | vpclogs/pkg/action.go:265-271 | each Accept window starts where the one before it ended, across timeout Rejects |
| `ActionAccounting.AloneRejectsAtAlarms` | vpclogs/pkg/action.go:304-331 | while one side is known the reports are Rejects at exactly the rounds that the clock determines, with or without records |
| `ActionAccounting.AlarmsApart` | vpclogs/pkg/action.go:322-327 | those rounds are more than the reject timeout apart and after the first sight |
| `ActionOrder.OrderIrrelevantIffSameStart` | vpclogs/pkg/action.go:158-169 | in a round both key orders give the same verdict, counters and times if and only if the round brings no records or the sides known after it agree on the start |
| `ActionOrder.OrderIrrelevantInRuns` | vpclogs/pkg/action.go:172-183 | over whole runs with cleanups, any iteration orders give the same reports and keep and remove the entry in the same rounds, when the sides agree on start and termination |
| `ActionOrder.RemovalAgreesIffSameTermination` | vpclogs/pkg/action.go:378-393 | after an Accept both key orders agree on the removal of the entry if and only if the sides agree on termination |
| `ActionOrder.TerminationTellsOrders` | vpclogs/pkg/action.go:378-393 | a run in which one order removes the entry and the other keeps it |
| `ActionLives.EntryIsItsLife` | vpclogs/pkg/action.go:378-429 | every entry of every run is the outcome of the rounds since its creation, and its reports are theirs, a round that ends in its removal included; other rounds report nothing |
| `ActionLives.TableRunIsSlotRun` | vpclogs/pkg/action.go:396-429 | after any number of rounds of the whole table the entry of an ID is that of a run on this ID's records alone, so the theorems on single runs hold of every entry |
| `ActionLives.TableReportIsRunReport` | vpclogs/pkg/action.go:396-429 | and so is its report of every round |
| `ActionLives.TableEmitsRunReports` | vpclogs/pkg/action.go:396-429 | the output of every round of the table is made up of the reports of those runs, each tracking ID once, so the theorems on reports hold of what the table emits |
| `ActionLives.TableOutputIsReports` | vpclogs/pkg/action.go:404-434 | said of the output alone: position by position the reports of the IDs with an entry or a record, each once, in the order of the visit |
| `ObjectStore.StoreBuffered.FlushFlowsToObject` | core/store_buffered.go:140-200 | a successful write moves the front of the queue into the next object of its stream; a failed one changes nothing |
| `ObjectStore.StoreBuffered.FlushTag` | core/store_buffered.go:82-97 | the loop ends, and leaves what the specification's loop leaves |
| `ObjectStore.StoreBuffered.TrimTag` | core/store_buffered.go:99-105 | the oldest flows beyond the bound are dropped |
| `ObjectStore.StoreBuffered.CompactTag` | core/store_buffered.go:108-113 | the copy into a slice of length zero empties the queue |
| `ObjectStore.StoreBuffered.ResetTimers` | core/store_buffered.go:115-135 | the timers of the reset tags stop and one new timer runs under one of them |
| `ObjectStore.StoreBuffered.StoreFlows` | core/store_buffered.go:63-138 | a call does to every tag, its trace and the timers what the machine of the theorems does, in any order of the tags |
| `ObjectStore.RecordMore` | core/store_buffered.go:63-138 | such a call extends the run and the trace of every tag by that tag's own part of the call, so the theorems on runs of one tag hold of every tag |
| `ObjectStoreRuns.RunConserves` | core/store_buffered.go:70-113 | in every run the flows received are, in order and each once, the written objects, the dropped segments and the queue |
| `ObjectStoreRuns.RunChains` | core/store_buffered.go:150-163 | in every run the objects of a tag number 0, 1, 2, ... within each stream, failed writes take no number, and their time ranges abut from the call that sighted the tag |
| `ObjectStoreRuns.RunStamps` | core/store_buffered.go:146-157 | the objects that a call adds end at that call, and each holds at least one flow and at most a full object |
| `ObjectStoreRuns.KeysDistinctIff` | core/store_buffered.go:179-185 | all object names of a tag differ in every run if and only if streams last at least a second |
| `ObjectStoreRuns.SameKeyTwice` | core/store_buffered.go:160-185 | with shorter streams a run that writes two objects under one name |
| `ObjectStoreRuns.QueueBounded` | core/store_buffered.go:82-105 | after a call the queue is within its bound and below a full object unless a write failed in it |
| `ObjectStoreRuns.LoopWrites` | core/store_buffered.go:82-97 | how many objects a call writes and how many flows the loop leaves, in closed form |
| `ObjectStoreRuns.CallLoses` | core/store_buffered.go:99-113 | the exact number of flows that a call drops, from queue length, clock and failures |
| `ObjectStoreRuns.CallLosesNothingIff` | core/store_buffered.go:99-113 | with successful writes a call loses nothing if and only if it writes nothing within the bound or the queue splits evenly |
| `ObjectStoreRuns.FourthFlowLost` | core/store_buffered.go:108-113 | four flows in objects of three lose the fourth |
| `FlushTimers.QueuesAreServedInTime` | core/store_buffered.go:77-135 | in every reachable system whose latest event had successful writes, or stalled no tag that no other timer rescues, a tag with a queue has a running timer to come and was flushed less than two object durations ago, though one timer serves all tags |
| `FlushTimers.LatestEventDecides` | core/store_buffered.go:77-135 | in every run, whatever has failed before, the latest event alone decides whether every tag is served, whether every queue is in time, and whether flows are left without a timer, each with its exact condition |
| `FlushTimers.ReachedIsServable` | core/store_buffered.go:77-135 | in every reachable system, whatever writes have failed, a tag that is not yet due has a timer that will look at it in time |
| `FlushTimers.CallInTimeIff` | core/store_buffered.go:91-135 | after a call every queue is in time if and only if, for every tag that the call stalls, a running timer that it does not stop is due less than two object durations after that tag's last flush |
| `FlushTimers.CallStrandsIff` | core/store_buffered.go:91-135 | a call leaves flows and no running timer if and only if it stalls a tag, resets none and finds no running timer |
| `FlushTimers.CallServesIff` | core/store_buffered.go:91-135 | after a call every tag is empty or covered by a timer, although the call stops timers that other tags rely on, if and only if it stalls none: the first write of a queue that is due fails, and the queue may keep flows |
| `FlushTimers.CallServes` | core/store_buffered.go:115-135 | so a call whose writes all succeed does |
| `FlushTimers.FailedFireStalls` | core/store_buffered.go:91-93 | a run from the start in which some flows wait for their only timer, the write fails when it fires, the queue stays and no timer runs any more |
| `FlushTimers.NoDurationNoTimer` | core/store_buffered.go:122-135 | without an object duration no timer is ever started |
| `PromSpec.EarlyStopExactIffSorted` | prom_sky_con/pkg/store_prom.go:445-455 | the scan that stops at the first fresh entry removes exactly the expired ones at every time if and only if the list is sorted |
| `PromSpec.TouchKeeps` | prom_sky_con/pkg/store_prom.go:401-429 | a use keeps one entry per key and the list sorted |
| `PromRuns.RunIsListedAndBacked` | prom_sky_con/pkg/store_prom.go:387-466 | over every run the list stays sorted and without duplicates, and every exported series belongs to a cached entry |
| `PromRuns.CleanShowsIffUnshared` | prom_sky_con/pkg/store_prom.go:457-465 | a cleanup leaves a kept entry that had all its series with all of them if and only if no removed entry shares one |
| `PromRuns.ExpiryHidesLive` | prom_sky_con/pkg/store_prom.go:457-465 | a run of two reports with the same labels and a cleanup that leaves the live entry cached and none of its series |
| `PromRuns.RunShowsLatest` | prom_sky_con/pkg/store_prom.go:401-435 | when labels tell keys apart every cached entry has all its series with the values of its latest report |
| `PromRuns.CachedIffInUse` | prom_sky_con/pkg/store_prom.go:401-455 | over every run exactly the keys are cached whose latest report no cleanup since has found expired, each with the time of that report |
| `PromRuns.NoStaleSeries` | prom_sky_con/pkg/store_prom.go:442-455 | with cleanups at most a period apart no exported series is older than timeout plus period |
| `PromStore.RecencyCache.Touch` | prom_sky_con/pkg/store_prom.go:401-429 | map and list keep holding the same entries, and the list changes as the specification says |
| `PromStore.StorePrometheus.StoreFlows` | prom_sky_con/pkg/store_prom.go:385-439 | cache and gauges are those of the history extended by the flows of all tags, in any order of the tags |
| `PromStore.StorePrometheus.StoreInterfaceMetrics` | prom_sky_con/pkg/store_prom.go:232-360 | the same for the interfaces |
| `PromViews.InterfacesShowLatest` | prom_sky_con/pkg/store_prom.go:232-360 | after any run of calls and cleanups every gauge of every cached interface shows the metric of its own name in the interface's latest report, or zero without one, under the labels of a report of it |
| `PromViews.ConnectionsShowLatest` | prom_sky_con/pkg/store_prom.go:385-439 | the five gauges of every cached connection show its latest flow, each direction its own, when addresses, ports, protocol and node tell connections apart; flows without a transport layer are passed over |
| `PromStore.BatchHolds` | prom_sky_con/pkg/store_prom.go:387-389 | a batch holds the flows of every tag that is visited, in their order, one tag after another |
| `PromStore.StorePrometheus.CleanupExpiredEntries` | prom_sky_con/pkg/store_prom.go:441-497 | both scans, entry by entry, amount to one cleanup of each history |
| `PromStore.SeriesApart` | prom_sky_con/pkg/store_prom.go:205-230 | different labels share no series, and a report sets exactly the series of its labels |
| `TtlCache.LiveIsAskedLast` | secadvisor/pkg/resolve_cache.go:59-72 | what is live in the cache is what a function of the query history says, whatever was purged |
| `TtlCache.AnswersAreRecent` | secadvisor/pkg/resolve_cache.go:59-72 | every answer is the uncached one at a moment within the time to live, a moment that the queries alone determine |
| `Resolvers.ResolveCache.IPToContext` | secadvisor/pkg/resolve_cache.go:53-78 | one query against the cache: hit, miss, the stored nil, and the panic it leads to |
| `Resolvers.ResolveCache.TIDToType` | secadvisor/pkg/resolve_cache.go:80-98 | one query for a node type; errors are returned and not stored |
| `Resolvers.MultiIsFirstSuccess` | secadvisor/pkg/resolve_multi.go:31-41 | the answer is that of the first resolver that succeeds, and not found exactly when none does |
| `Resolvers.MultiIsFirstType` | secadvisor/pkg/resolve_multi.go:43-51 | the same for types |
| `Resolvers.KeysCollideIff` | secadvisor/pkg/resolve_cache.go:59 | exactly which different queries share a cache key |
| `Resolvers.CommaFreeKeysDiffer` | secadvisor/pkg/resolve_cache.go:59 | addresses without a comma never share one |
| `Resolvers.RepliesAreRecent` | secadvisor/pkg/resolve_cache.go:53-78 | with any resolver below, a reply is recent, and a call panics if and only if the history of queries has stored an answer at most five minutes ago that was "not found" |
| `Resolvers.SuccessIsStored` | secadvisor/pkg/resolve_cache.go:59-78 | a query within five minutes of an answer is a hit if and only if that answer was a success or "not found" |
| `Resolvers.TypeIsStored` | secadvisor/pkg/resolve_cache.go:80-98 | a query for a type within five minutes of an answer is a hit if and only if that answer was a type |
| `Resolvers.StackAnswers` | secadvisor/pkg/transform.go:51-53 | the composed stack never panics and answers what the first resolver that succeeds answered at most five minutes ago, and nil when none did |
| `Resolvers.NotFoundTwicePanics` | secadvisor/pkg/resolve_cache.go:60-72 | without the fallback the second query for an unknown address panics |
| `Resolvers.TypeAnswers` | secadvisor/pkg/resolve_fallback.go:44-53 | the type is empty for an empty ID, and otherwise that of the first resolver that succeeded at a moment at most five minutes ago, or empty when none did |
| `UpdateCount.Transformer.SetUpdateCount` | secadvisor/pkg/transform.go:138-155 | the count before the flow, and the counters after it |
| `UpdateCount.Transformer.Transform` | secadvisor/pkg/transform.go:258-266 | the record of a flow, or none |
| `UpdateCount.StreakIsLongest` | secadvisor/pkg/transform.go:144-152 | the streak of a history is its longest suffix without a timeout or a gap of more than ten minutes, or of one minute after a finished flow |
| `UpdateCount.LiveCountIsStreak` | secadvisor/pkg/transform.go:138-155 | in every run, with any purges, the live count of a UUID is its streak |
| `UpdateCount.TransformReportsStreak` | secadvisor/pkg/transform.go:258-266 | exactly the unfinished flows without a streak are dropped when started flows are excluded; the others report their streak, and a status that follows from it |
| `Pipeline.BatchPipeline.Filter` | core/pipeline.go:249-260 | the flows whose tag is not excluded, in order |
| `Pipeline.BatchPipeline.Split` | core/pipeline.go:262-269 | the flows by tag |
| `Pipeline.SplitIsOfTag` | core/pipeline.go:249-269 | every tag that is not excluded has all its flows in arrival order and no other; excluded tags have none |
| `Pipeline.OfTagIsPicked` | core/pipeline.go:262-269 | the flows of a tag are those classified so, all of them and in order |
| `Pipeline.SeqMakesRecords` | core/pipeline.go:271-282 | after every history the records of a sequence of flows are, in order, one for every flow that is not dropped, with its flow, streak and status |
| `Pipeline.StreaksAt` | core/pipeline.go:271-282 | the streak that counts is that of the flow's UUID in the history and the flows before it |
| `Pipeline.BatchPipeline.TransformAll` | core/pipeline.go:271-282 | the tags transformed one after another in some order |
| `Pipeline.BatchPipeline.Mangle` | core/pipeline.go:284-290 | the mangler applied to each tag's records |
| `Pipeline.BatchPipeline.Process` | core/pipeline.go:298-307 | what a batch hands to the store, for some order of the tags |
| `Pipeline.OrderDoesNotMatter` | core/pipeline.go:271-282 | records and counters are the same in every order of the tags when no UUID has two tags |
| `Pipeline.OrderIrrelevantIffNoneShared` | core/pipeline.go:271-282 | a batch has the same records in every order of its tags after every history if and only if no UUID of it has two tags |
| `Pipeline.SharedUuidTellsOrders` | core/pipeline.go:271-282 | for any UUID under two tags, a history and two orders with different records: only the tag that comes first reports the count so far |
| `Pipeline.BatchByTag` | core/pipeline.go:298-307 | after every history the store gets, per tag that is not excluded, the mangler applied to those records of the tag's own flows, whatever the order of the tags |
| `AccountFile.AccountStore.Read` | secadvisor/pkg/account_file.go:76-105 | the record of a file, or a new one and an error for a file that is missing, does not parse, has another version or a time range that is missing or backward |
| `AccountFile.AccountStore.AddBytes` | secadvisor/pkg/account_file.go:129-150 | the disk after any number of the steps of an update |
| `AccountFile.NextVerifiedIff` | secadvisor/pkg/account_file.go:60-74 | exactly when the record that an update writes can be read back |
| `AccountFile.CompleteAddWrites` | secadvisor/pkg/account_file.go:129-150 | a complete update leaves one file, in which the update is the current one and the total includes it, counted since the record it continues was begun |
| `AccountFile.CrashKeepsTotalIff` | secadvisor/pkg/account_file.go:145-149 | an update cut off anywhere leaves the total before or after it, if and only if it is not cut off in the write while the backup is all there is |
| `AccountFile.RunTotal` | secadvisor/pkg/account_file.go:129-150 | over every run in which no write is cut off while the backup is all there is, the total is the initial one plus the complete updates and the late interrupted ones |
| `AccountFile.RunTotalIff` | secadvisor/pkg/account_file.go:129-150 | with bytes and an initial total that are not negative the total is that sum if and only if the run is such, and less otherwise |
| `AccountFile.NotTwiceCutIsSafe` | secadvisor/pkg/account_file.go:129-150 | that needs no more than a main file at the start and no two interrupted updates in a row |
| `AccountFile.TwiceCutLosesAll` | secadvisor/pkg/account_file.go:145-149 | two in a row can lose the whole total |
| `AccountFile.FailedWriteLosesTotal` | secadvisor/pkg/account_file.go:113-116 | a failed write is only logged, and the update then removes the main file: the total becomes that of the earlier backup or zero, and exactly when it is kept |
| `AccountFile.FirstAddRecordedIff` | secadvisor/pkg/account_file.go:76-82 | on a disk without a readable file an update is recorded if and only if the clock does not tick between its reading and that of the read |

## Left out

- ActionEngine.Action.Report: requires proper setup, with which three records never occur; `threeFlows` (vpclogs/pkg/action.go:286-299) is an error path from which a later round without records dereferences a missing flow.
- Aliasing of flow records in the Accept/Reject engine: records are values. The program marks a rejected record in place and otherwise reports copies, so that a marked record is only ever marked again in the same way.
- ActionEngine.Action.Mangle: one clock reading serves the round, whereas the program reads the clock once per report.
- ObjectStore.StoreBuffered.StoreFlows: a call takes no time, so that `time.Since` at the loop guard is taken at the reading of the call; object names are compared as stream second and number, without prefix and tag.
- Calls of the Prometheus store are atomic; the program takes no lock. Its list library is not part of this model, the list being a sequence of entries; gauge values are numbers.
- The resolvers that the first-success search goes through (docker, runc, VM) and the Gremlin queries: arbitrary functions of time and query.
- UpdateCount.Transformer.Transform: a record keeps only the fields that depend on the update count.
- AccountFile.AccountStore.AddBytes: removing and renaming do not fail; an update whose rename fails ends like one cut off before it.
- Pipeline.BatchPipeline.Mangle: the mangler is a function, as in `Process`.
- Pipeline.BatchPipeline.Process: the mangler is a function of one tag's records, so that a stateful mangler such as the Accept/Reject engine is covered by its own model only.
- `TIDtoIP` and `setDirection` (vpclogs/pkg/transform.go:104-145): the miss path returns another list than the cache keeps, so that no agreement is claimed.
- `mangleLogStatus`, `core/classify.go`, `core/filter.go`, `awsflowlogs`, `cluster_ips.go`, the direct store: single-call lookups and field copies.
- Subscriber, S3, standard output, HTTP, configuration, encoding and compression: input, output and library calls.
