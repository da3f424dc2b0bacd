# Transactions and segments of the New Relic C SDK

The SDK hands out transactions and segments, lets several threads use them, and
sends a transaction to the daemon when it ends. This project models that
protocol and proves what it keeps: one segment tree whatever is reparented,
no leaked or twice-freed block, no deadlock, and, for any number of threads in
any interleaving, the same result as running the calls one after the other.

There are two layers over one atomic model.

* **Atomic model.** `Model` says what each API call does to a transaction and
  its open handles as a value (`Apply`, `Run`). `SegmentTree`, `Metrics` and
  `Naming` are its parts. `Effects` says what each call does from its arguments
  alone, field by field; `Invariants`, `Histories`, `Nesting`, `Reports` and
  `Totals` prove what holds after every run.
* **In-place layer.** `Axiom.AxiomTxn`, `Memory.Heap`, `Session.Transaction`,
  `Client.Driver`, `Events`, `Global.Process` and `Config.App` are classes that
  update their fields step by step: the ancestor walk, the parent stack, the
  metric table, a C heap with pointers, locks. Every API method is proved to do
  exactly what `Apply` says. A double free, a read through a freed pointer or a
  second lock of a held lock would be an unprovable precondition.
* **Thread layer.** `ThreadCode` takes every call apart into its checks, the
  instructions under the lock and the tail after it; `Threads` interleaves any
  number of calls one instruction at a time. `Linearization`, `LinearSteps` and
  `Schedules` prove the protocol for any machine that meets `Threads.Sound`;
  `Sdk` shows that the SDK does and draws the conclusions; `Deadlock` proves
  that nobody is stuck; `Race`, `Crossing` and `Moving` show what goes wrong
  through a handle that has no lock pointer, and exactly when; `Released` follows
  the custom events; `Ignoring` is about the one call that writes without a lock.

Outcomes decided elsewhere (axiom starting a segment, accepting an attribute,
metric or event, a naming rule ignoring a transaction, the clock, the daemon) are
fields of the call, and every theorem holds for all of them. A segment handle is named by the number of the
axiom segment it wraps and its transaction; segment 0 is the root. Times are
64-bit and wrap; metric values are whole microseconds, as exact reals. The client discipline of
`include/libnewrelic.h` is `Model.Legal` for one thread and `Threads.MayCall`
for many: no use of an ended handle, both segments of a reparent on one
transaction, segments ended before their transaction.

Where the code does something other than its documentation or evident intent,
the model follows the code:

* `txn_lock` is set only by `newrelic_start_segment` (src/segment.c:116).
  Reparenting or timing a datastore or external segment locks nothing.
  `Sdk.SchedulesAreAtomic` is therefore about schedules in which those three
  calls go through custom segments. `Crossing.CrossingBreaksIff` has the exact
  condition for reparents across one pair of segments, and
  `Moving.MovesBreakIff` for all reparents of a transaction: they can break its
  tree if and only if it has two live handles and one of them has no lock
  pointer. `Crossing.TimingLosesLockOrder` is the case of two timings.
* `newrelic_end_transaction` tests `ignore` after `nr_txn_end`, whose naming
  rules may just have set it; such an end makes no attempt and returns true.
* src/segment.c:116 stores through the result even when creation failed, where
  the header promises NULL; the model returns `Crash` exactly then. As long as
  axiom has memory this happens if and only if the client has ignored the
  transaction (`Histories.StartFailsIff`, with the shortest run in
  `Histories.StartAfterIgnoreCrashes`).
* A handle given a stop time of 0 by `newrelic_set_segment_timing` (which
  includes a sum that wraps to 0) loses it at its end;
  `Histories.ExplicitStopKeptIff` has the exact condition.
* `status = false` at src/segment.c:253 is overwritten at line 258; the branch
  is unreachable (`Invariants.EndRunsOnce`).
* `newrelic_create_app` does not copy `datastore_tracer`
  (`Config.ConfigHonouredIff`), and a failed connect makes
  `newrelic_destroy_app` lock a lock that was never initialised
  (`Config.CreateApp`).
* A transaction that axiom fails to begin leaves its options and its mutex
  behind (`Config.LeaksAreFailedBegins`).
* A missing datastore host is reported as "unknown", not as the "other" of the
  header comment; an unnamed segment is "Unnamed Segment".

## Model

| member | source | states |
|---|---|---|
| `Sdk.SchedulesAreAtomic` | src/segment.c:97-264 | for any number of threads and any schedule stopped anywhere: every unlocked transaction equals the sequential run of its calls in lock order, that run is legal, every settled handle and every returned value are the sequential ones, each place in the order belongs to one call in flight or returned, and no instruction read, wrote or freed a wrapper or event that was gone |
| `Sdk.QuiescentIsSequential` | src/segment.c:97-264 | once all calls have returned every lock is free, all transactions and handles equal the sequential run, and each logged call returned exactly once |
| `Released.EventsAtQuiescence` | src/custom_event.c:30-38 | once all calls have returned, exactly the events of the logged records are gone and every other event is as it was |
| `Sdk.SdkSound` | src/segment.c:121-199 | the instruction sequences of the SDK meet everything the thread protocol asks: uninterrupted they are the atomic call, tails leave the transaction alone, a call changes no handle but the one it creates or consumes |
| `Sdk.TreesUnderThreads` | src/segment.c:142-146 | whatever the interleaving, a transaction nobody holds has one well-formed segment tree |
| `Sdk.MetricsIgnoreInterleaving` | src/custom_metric.c:15-19 | two schedules whose calls record the same multiset of samples, rollups of ended segments included, leave the same metric table |
| `Sdk.ErrorsFollowLockOrder` | src/error.c:30-65 | under threads the retained error is the last of maximum priority in lock order, with the priority, message and class that call gave |
| `Schedules.AfterKeeps` | src/segment.c:97-114 | every schedule of invocations and single steps keeps the linearization invariant, for any sound machine |
| `Schedules.AfterSlots` | src/segment.c:228-264 | the log only grows, and each of its places belongs to exactly one call, in flight or returned |
| `LinearSteps.LockKeeps` | src/segment.c:97-102 | taking the lock is where a call takes effect: it is entered in the order and its remaining code ends where the atomic call ends |
| `LinearSteps.DoKeeps` | src/segment.c:102-110 | one instruction, under the lock or in the tail, disturbs no other call in flight |
| `LinearSteps.ExitKeeps` | src/segment.c:206-226 | a call that leaves at its checks is atomic there, including the one that destroys its handle |
| `LinearSteps.ReturnKeeps` | src/segment.c:256-264 | the returned value and the handle left behind are the atomic ones |
| `ThreadCode.FinishIsApply` | src/segment.c:201-264 | for every call that passes its checks, the code run without interruption gives the transaction, handle and result of the atomic call, without a fault |
| `ThreadCode.ExitIsApply` | src/segment.c:125-140 | for every call that fails its checks, leaving there is the atomic call |
| `Deadlock.NoDeadlock` | src/segment.c:25-27 | from any schedule of the calls that use a lock and leave it (all but ignore, which takes none, and the end of the transaction, which destroys it), through handles with a lock pointer or without, the calls in flight take a bounded number of steps; none can step only if all have returned, and then every lock is free |
| `Deadlock.LockDiscipline` | src/attribute.c:19-40 | a thread about to lock or past its unlock holds nothing; the global mutex is taken only under the transaction lock and never twice, and wrappers are allocated under both; no thread holds another transaction's lock |
| `Deadlock.LocksHeldRightly` | src/error.c:30-65 | every step of every schedule keeps the holding of locks matched to the code, gotos included |
| `Deadlock.SomebodySteps` | src/datastore.c:60-105 | while a call is in flight some thread can step: it, the holder of its lock, or the holder of the mutex |
| `Deadlock.StepsAreBounded` | src/external.c:41-59 | each step lowers the work left, so no schedule of the calls in flight goes on for ever |
| `Moving.MovesBreakIff` | src/segment.c:121-182 | from every idle well-formed state: some schedule of reparents through any live handles of a transaction, to each other and to the root, by any threads, ends with all calls returned and no tree, if and only if the transaction has two live handles and one of them has no lock pointer |
| `Moving.MovesKeepTree` | src/segment.c:142-146 | when that condition fails the tree holds at every moment of every such schedule |
| `Crossing.CrossingBreaksIff` | src/segment.c:121-149 | from every idle state with two live segments of a well-formed transaction: some schedule of reparents of the one to the other and back, by any threads, ends with all calls returned and no tree, if and only if neither segment is below the other and at least one handle has no lock pointer |
| `Crossing.CrossingKeepsTree` | src/segment.c:142-146 | when that condition fails the tree holds at every moment of every such schedule |
| `Race.RaceBreaksTree` | src/datastore.c:63-101 | when it holds, one explicit schedule of two calls makes each segment the parent of the other, with one lock pointer missing or both |
| `Race.RaceIsReachable` | src/external.c:43-55 | such a state is reached by a legal run from a fresh transaction |
| `Crossing.TimingLosesLockOrder` | src/segment.c:194-196 | for any two different timings of a segment without a lock pointer, a schedule ends with the one that passed the lock first, not with the result of the calls in that order |
| `Ignoring.IgnoreDuringCall` | src/transaction.c:153-160 | wherever the two unlocked writes of an ignore fall into any call's locked part, transaction and result are those of ignoring before the call if `recording` is cleared before the instruction that tests it (in the starts, notice_error, custom metric and custom event), and otherwise those of ignoring after the call |
| `Ignoring.OrdersDifferIff` | vendor/newrelic/axiom/nr_txn.c:2453-2466 | the two orders differ if and only if the transaction records and the call is a start, metric or event axiom would admit, or an error that would be retained |
| `Invariants.RunKeepsInv` | include/segment.h:21-42 | after every legal run: one tree, a duplicate-free parent stack above the root, every open handle's union variant the one its axiom type selects, its lock pointer set exactly when it is custom, and no segment ended twice |
| `Invariants.RunsAreTrees` | src/segment.c:121-182 | after every legal run the root has no parent, every other segment one, child lists agree with parent links, and no segment is its own ancestor |
| `Invariants.ReparentRefusedIff` | vendor/newrelic/axiom/nr_segment.c:214-254 | a reparent is refused exactly when the segment is the new parent or above it, which is exactly when linking would destroy the tree; the parent it has already is accepted without moving it |
| `Effects.MoveEffect` | vendor/newrelic/axiom/nr_segment.c:225-253 | an accepted move takes the segment out of its old parent's children, the others in order, and puts it last among the new parent's; a segment that is there already stays where it is; nothing else about any segment, the stack, the reports, the handles or the data changes |
| `Effects.StartOutcome` | src/datastore.c:20-66 | a start succeeds exactly when axiom has memory, the transaction records and the parameters are there and free of slashes where they must be; otherwise nothing changes and a custom start crashes where the others return NULL |
| `Effects.StartEffect` | vendor/newrelic/axiom/nr_segment.c:37-91 | the new segment is the last child of the top of the stack, of the kind asked for, started now, neither stopped nor ended; nothing else changes but the stack |
| `Effects.StartHandle` | src/segment.c:25-33 | the handle wraps the new segment on this transaction, with a lock pointer exactly when it is custom |
| `Effects.StartName` | src/segment.c:87-110 | a custom segment is called category/name, "Custom" and "Unnamed Segment" standing in for what is missing or has a slash, and splits back into the two |
| `Effects.StartPayload` | src/datastore.c:73-101 | the handle holds each parameter in its own place, "other", "Other" and "unknown" standing in as the source says |
| `Effects.TimingEffect` | vendor/newrelic/axiom/nr_segment.c:256-267 | only the two times of the segment change, the stop being the sum modulo 2^64 |
| `Effects.EndEffect` | src/segment.c:228-256 | a missing stop time becomes now, the segment is ended and leaves the stack, whose order stays; a custom segment gets the metric of its name, another one its report; nothing else changes |
| `Effects.WrongEndEffect` | src/segment.c:212-226 | through another transaction or none, the handle goes and nothing else happens |
| `Effects.EndTotals` | vendor/newrelic/axiom/nr_segment_datastore.c:24-27 | ending a datastore segment adds its stop less its start, or 0, under Datastore/all and under its product, an external one under External/all, and nothing under any other name |
| `Effects.ProductMeans` | vendor/newrelic/axiom/nr_datastore.c:20-42 | a product known in any case is reported in axiom's spelling, any other as given |
| `Effects.CountEffect` | src/global.c:120-131 | which counter each call adds one to, by its full name, and that it adds no time |
| `Effects.NoticeEffect` | src/error.c:18-61 | exactly when an error is retained, and that its priority, message and class are the ones given |
| `Effects.AttributeEffect` | src/attribute.c:19-40 | an accepted attribute replaces that key only; otherwise false and nothing changes |
| `Effects.MetricEffect` | vendor/newrelic/axiom/nr_txn.c:2468-2497 | an accepted metric adds 1000 times the milliseconds, rounded down, under its name only; otherwise false and nothing changes |
| `Effects.EventEffect` | vendor/newrelic/axiom/nr_txn.c:1666-1698 | the transaction gets the event with its type and attributes, exactly when it records and axiom keeps it |
| `Effects.TxnTimingEffect` | src/transaction.c:37-43 | the pair given is the transaction's timing |
| `Effects.EndTxnEffect` | src/transaction.c:58-92 | result, status, attempt and version counter of the end, and nothing on an ended transaction |
| `Invariants.RootNeverRefuses` | src/segment.c:151-182 | whatever the history, reparenting to the root succeeds, makes the segment a direct child of the root and moves nothing else |
| `Invariants.EndRunsOnce` | src/segment.c:221-264 | end_segment returns true exactly when the end routine of the handle's own type ran, once, on its own transaction; otherwise the transaction is untouched; the handle is consumed either way |
| `SegmentTree.LinkTreeIff` | vendor/newrelic/axiom/nr_segment.c:229-244 | relinking a segment of a tree leaves a tree if and only if the segment is not above its new parent |
| `SegmentTree.LinkBelowItselfLoops` | GUIDE.md:678-693 | linking a segment below itself makes it its own ancestor |
| `SegmentTree.AppendKeepsTree` | vendor/newrelic/axiom/nr_segment.c:67-88 | starting a segment under the current one keeps the tree |
| `SegmentTree.NoCycle` | GUIDE.md:678-693 | in a tree no number of parent links leads back to the segment |
| `Nesting.NestingTree` | tests/integration/custom/test_traces.c:52-66 | for every well-nested sequence of starts and ends without reparenting, with any other calls between them, the segment tree is the nesting tree of the sequence, children in start order |
| `Nesting.Parse` | tests/integration/custom/test_traces.c:98-114 | every well-nested sequence is the bracketing of a forest |
| `Nesting.RunForest` | src/segment.c:228-240 | running the bracketing of a forest hangs exactly that forest below the current segment and restores the parent stack |
| `Histories.ErrorRetention` | src/error.c:18-61 | with errors enabled the retained error is the last one of maximum priority among calls with non-empty message and class before the first ignore and before the end, with the priority, message and class that call gave, and there is none exactly when there is no such call |
| `Histories.NothingRetained` | src/error.c:34-38 | with errors disabled no run retains an error |
| `Histories.RetainedIsUnique` | tests/integration/error/test_priority_same.c:1-4 | at most one call of a history is the last of maximum priority |
| `Histories.TransmittedOnce` | src/transaction.c:46-93 | no transaction is attempted twice; one that the client ignored before its end, or that a naming rule ignores at its end, never; every other ended one exactly once |
| `Histories.EndReturnsFalseIff` | src/transaction.c:67-92 | on a live handle end_transaction returns false exactly when an attempt was made and failed, that is when neither the client nor a rule ignored the transaction and sending failed |
| `Histories.MetricsOfRun` | vendor/newrelic/axiom/nr_segment_datastore.c:24-27 | after any run the metric table is the fold of everything the calls recorded: counters, accepted custom metrics, and the rollups of ended datastore and external segments with their durations |
| `Histories.MetricsIgnoreOrder` | src/custom_metric.c:15-19 | runs that record the same multiset of samples have the same table |
| `Histories.ApiCounters` | src/global.c:120-131 | each supportability counter equals the number of calls that passed their argument checks, refused reparents included, plus what the client itself recorded under that name |
| `Histories.RollupCounters` | vendor/newrelic/axiom/nr_segment_external.c:76-84 | Datastore/all and External/all count the segments of their type that were ended on their own transaction, plus what the client recorded under that name |
| `Histories.AttributesLastWrite` | src/attribute.c:31-37 | after any run an attribute has the value of its last accepted write, and is there exactly if there was one |
| `Histories.TxnTimingIsLast` | src/transaction.c:28-44 | after any run the transaction has the timing of the last call that timed it, and none if there was none |
| `Totals.TotalOfRun` | vendor/newrelic/axiom/nr_segment_external.c:76-84 | after any legal run the total under any name is how long the ended segments counted under it lasted, all together, plus what the client recorded under it |
| `Histories.StartFailsIff` | src/segment.c:97-118 | on a live transaction a start with usable parameters, for which axiom has memory, fails if and only if the client has ignored the transaction: a custom start then crashes, the others return NULL, and nothing changes; otherwise it returns the next handle |
| `Histories.StartAfterIgnoreCrashes` | vendor/newrelic/axiom/nr_segment.c:19-25 | the shortest legal run to the crash: ignore, then start a custom segment |
| `Histories.TimesSurvive` | src/segment.c:184-199 | explicit times with a non-zero stop survive every later call except another timing of the segment |
| `Histories.ExplicitTimesKept` | tests/test_segment.c:42-50 | with a positive duration and a representable sum the ended segment keeps its start, and its stop is start plus duration |
| `Histories.ExplicitStopKeptIff` | vendor/newrelic/axiom/nr_segment.c:269-286 | ending keeps the explicit stop if and only if that stop is not 0 modulo 2^64 or the clock reads 0 too |
| `Histories.ZeroTimingIsLost` | vendor/newrelic/axiom/nr_segment.c:274-280 | a zero timing at the start of the transaction is replaced by the clock at the end |
| `Reports.ReportIsParameters` | src/datastore.c:118-136 | whatever runs between a start and its end, the one report the end adds holds the parameters of the start, each in its own place |
| `Reports.CustomMetricIsName` | src/segment.c:231-240 | whatever runs in between, the end of a custom segment gives it one metric, category/name as its start was told |
| `Naming.MetricNameRoundTrip` | src/segment.c:87-110 | for every name and category the metric name has exactly one slash, and splitting it gives back the effective category and name |
| `Naming.MetricNameInjective` | src/segment.c:64-75 | two valid pairs with the same metric name are the same pair |
| `Metrics.AggregateMeaning` | tests/integration/README.md:261-265 | a metric's count, total, minimum, maximum and sum of squares are those of the values folded into it |
| `Metrics.AggregateBounds` | tests/integration/README.md:261-265 | count times minimum is at most total is at most count times maximum, and total squared is at most count times the sum of squares |
| `Metrics.TableSplitsByName` | vendor/newrelic/axiom/util_metrics.c:226-256 | each entry of the table is the aggregate of the samples of its own name |
| `Metrics.TableIgnoresOrder` | vendor/newrelic/axiom/util_metrics.c:272-280 | the table depends only on the multiset of samples |
| `Ownership.LiveIsFootprints` | src/segment.c:35-62 | the live heap blocks are exactly the caller's buffers and the footprints of the open wrappers, and no two of these share a block |
| `Ownership.CopyKeeps` | src/datastore.c:73-101 | storing a fresh copy through an empty field keeps ownership exact and changes no other handle and no buffer of the caller |
| `Ownership.FreeKeeps` | src/datastore.c:110-116 | releasing a field frees a live block of that field or nothing, clears the field, and changes no other handle |
| `Ownership.CallerKeeps` | include/libnewrelic.h:898-901 | whatever the caller does to a buffer of its own, no handle reads differently |
| `Axiom.AncestorWalk` | vendor/newrelic/axiom/nr_segment.c:234-244 | the walk along parent links terminates and finds the segment exactly when it is above the start |
| `Axiom.RemoveLast` | vendor/newrelic/axiom/util_stack.c:37-52 | the search from the end removes the last occurrence and keeps the order of the rest |
| `Axiom.AxiomTxn.SegmentStart` | vendor/newrelic/axiom/nr_segment.c:14-91 | nothing on a transaction that does not record or without memory; otherwise the new segment is the last child of the top of the parent stack and becomes its top |
| `Axiom.AxiomTxn.SegmentSetParent` | vendor/newrelic/axiom/nr_segment.c:214-254 | in place, the result and the links are those of the model: refused, already there, or moved to the end of the new parent's children |
| `Axiom.AxiomTxn.SegmentEnd` | vendor/newrelic/axiom/nr_segment.c:269-286 | stamps a segment without a stop time and takes it off the parent stack, wherever it stands |
| `Axiom.AxiomTxn.AddRollups` | vendor/newrelic/axiom/nr_segment_datastore.c:10-30 | adds the duration of the ended segment under the rollup names of its type, the product in axiom's own spelling |
| `Axiom.AxiomTxn.End` | vendor/newrelic/axiom/nr_txn.c:1277-1295 | completes the transaction, stops recording, and a naming rule may ignore it |
| `Axiom.AxiomTxn.AddCustomMetric` | vendor/newrelic/axiom/nr_txn.c:2468-2497 | refused on a transaction that does not record and for values that are not finite, otherwise folded in as whole microseconds |
| `Axiom.AxiomTxn.AddMetric` | vendor/newrelic/axiom/util_metrics.c:226-256 | finds or creates the metric and folds the value into its six numbers |
| `Memory.Heap.Free` | vendor/newrelic/axiom/util_memory.h:154-154 | only a live block or NULL may be freed; the argument comes back NULL |
| `Memory.Heap.CopyTo` | src/datastore.c:73-91 | a field gets a fresh block of its own |
| `Memory.Heap.FreeField` | src/external.c:64-68 | safe on a live and on an already released field |
| `Memory.Heap.FreeWrapper` | src/segment.c:61-62 | the wrapper goes only after its fields, and with it nothing of it stays live |
| `Session.TextsDeterminePayload` | include/segment.h:23-42 | the strings a wrapper owns determine its payload, so the in-memory state determines the modelled one |
| `Session.ArgumentsMean` | src/datastore.c:73-101 | each parameter is the string its own pointer points to, or missing for NULL |
| `Session.Transaction.SegmentCreate` | src/segment.c:16-33 | a zeroed wrapper on a new axiom segment, the global mutex released, exactly when the transaction records and axiom has memory; otherwise nothing at all |
| `Session.Transaction.StartSegment` | src/segment.c:77-119 | in place exactly the atomic start: name, handle, lock pointer, lock released; a crash exactly when the transaction does not record or axiom has no memory |
| `Session.Transaction.StartDatastoreSegment` | src/datastore.c:12-108 | in place exactly the atomic start on every exit, from parameters read through the caller's pointers, which are left unchanged |
| `Session.Transaction.StartExternalSegment` | src/external.c:11-62 | the same for external segments |
| `Session.Transaction.DestroyDatastoreFields` | src/datastore.c:110-116 | clears the seven fields, released before or not |
| `Session.Transaction.DestroyExternalFields` | src/external.c:64-68 | clears the three fields, released before or not |
| `Session.Transaction.SegmentDestroy` | src/segment.c:35-62 | after the typed destroy nothing of the wrapper is live |
| `Session.Transaction.EndTyped` | src/datastore.c:118-141 | reports exactly the payload the wrapper's pointers stand for, with its rollup metrics, then releases the fields |
| `Session.Transaction.EndByType` | src/segment.c:228-256 | the switch on the axiom type runs the matching end routine |
| `Session.Transaction.EndSegment` | src/segment.c:201-264 | in place exactly the atomic end on every path: NULL refused, wrong transaction destroyed, own transaction ended; the handle comes back NULL |
| `Session.Transaction.SetSegmentParent` | src/segment.c:121-149 | in place exactly the atomic reparent; equal pointers are the same handle |
| `Session.Transaction.SetSegmentParentRoot` | src/segment.c:151-182 | in place exactly the atomic move to the root |
| `Session.Transaction.SetSegmentTiming` | src/segment.c:184-199 | in place exactly the atomic timing |
| `Session.Transaction.NoticeError` | src/error.c:9-66 | in place exactly the atomic retention rule, the lock released on every goto |
| `Session.Transaction.AddAttribute` | src/attribute.c:9-43 | in place exactly the atomic attribute write, the lock released on every goto |
| `Session.Transaction.RecordCustomMetric` | src/custom_metric.c:6-22 | in place exactly the atomic metric step |
| `Session.Transaction.SetTransactionTiming` | src/transaction.c:28-44 | in place exactly the atomic timing and its counter |
| `Session.Transaction.IgnoreTransaction` | src/transaction.c:153-160 | sets ignore and clears recording |
| `Session.Transaction.EndTransaction` | src/transaction.c:46-93 | in place exactly the atomic end: counted, completed, attempted unless the client or a naming rule ignored it |
| `Client.Driver.Execute` | src/segment.c:201-264 | any mix of legal API calls on any number of transactions that share one heap, with writes to and frees of the client's own buffers between them: each transaction ends where its own calls alone end it, each call returns its value there, and memory is conserved |
| `Client.Driver.AlwaysConserved` | src/segment.c:35-62 | at every point the live blocks are the client's buffers and the footprints of the open handles of all transactions, and no two of these share a block |
| `Client.Driver.Perform` | src/segment.c:221-226 | a call on one transaction, the destruction of a handle ended on another one included, changes nothing of the others |
| `Events.ReleasedOnce` | src/custom_event.c:24-50 | in any order and repetition of adds, records and discards the event is released once, by the first call that consumes it, and handed over exactly when that call is a record, with the last-write-wins attributes of the adds before it |
| `Events.LiveAttributes` | src/custom_event.c:52-87 | until then it is live, unreleased and holds the last-write-wins map of the adds; a record with a NULL transaction changes nothing |
| `Events.ConsumedOrLive` | src/custom_event.c:41-50 | a run has a first consuming call exactly when some call consumes |
| `Events.EventVar.AddAttribute` | src/custom_event.c:52-87 | in place, the value of the last accepted write |
| `Events.EventVar.Discard` | src/custom_event.c:41-50 | releases a live event once and clears the caller's pointer |
| `Events.EventVar.Record` | src/custom_event.c:24-39 | a NULL transaction leaves the event live; otherwise the event is released, and the transaction's events gain its type and attributes exactly when it was live, the transaction records and axiom keeps it |
| `Events.RecordOnce` | src/custom_event.c:24-87 | over the whole life of an event whose first consuming call is a record, the transaction receives one event of its type with the last-write-wins attributes of the adds before that call |
| `Events.EventVar.Drive` | src/custom_event.c:24-50 | any sequence of adds, records and discards: the transaction receives what the handle has handed over |
| `Events.AddSucceedsIff` | src/custom_event.c:52-87 | an add succeeds exactly on a live event, with a key, when axiom accepts it |
| `Global.RunKeepsOk` | src/global.c:55-118 | after any run, under any environment, an application list implies configured logging |
| `Global.OutcomesMean` | src/global.c:14-118 | exactly when each call succeeds, and what it leaves |
| `Global.ListsConserved` | src/global.c:96-118 | every list created was destroyed by a shutdown or is the one that exists |
| `Global.OncePerShutdown` | src/global.c:46-53 | between shutdowns at most one list is created and init succeeds at most once |
| `Global.EffectFreeOnceInitialised` | src/global.c:104-111 | once initialised, ensure_init returns true and changes nothing, and init fails and changes nothing |
| `Global.Process.ConfigureLog` | src/global.c:14-44 | the flag is set exactly when name, level and environment allow it |
| `Global.Process.DoInitialise` | src/global.c:55-102 | logging is configured before anything else, and the list is created only at the end |
| `Global.Process.Initialise` | src/global.c:46-53 | refuses where a list exists |
| `Global.Process.EnsureInitialised` | src/global.c:104-111 | succeeds without effect where a list exists |
| `Global.Process.ShutDown` | src/global.c:113-118 | back to the initial state |
| `Config.DefaultsAgree` | src/config.c:21-60 | the options without a config are those of every config as newrelic_create_app_config makes it |
| `Config.GetTransactionOptions` | src/config.c:102-140 | filled field by field over the defaults, the options the config stands for; a duration counts only when the threshold is not the apdex, an unknown SQL setting is obfuscated |
| `Config.OptionsMean` | src/config.c:102-140 | every option of a config, one by one |
| `Config.ConfigMeans` | src/config.c:21-60 | a config needs a name and a license key of 40 characters, and starts with the documented defaults |
| `Config.OptionsEqualIff` | src/config.c:102-140 | two configs give the same transaction options exactly when they agree on what the options depend on |
| `Config.AppOptions` | src/app.c:37-42 | options derived from the created application equal those of the caller's config on every field but instance and database-name reporting, which are true |
| `Config.ConfigHonouredIff` | src/app.c:40-42 | they are equal on every field exactly when the caller asked for both reports |
| `Config.CreateApp` | src/app.c:10-101 | an application comes back exactly when the config is accepted, the SDK initialised and the daemon reachable; an uninitialised lock is locked exactly when only the last fails |
| `Config.StartTransaction` | src/transaction.c:113-140 | what each exit leaves allocated |
| `Config.LeaksAreFailedBegins` | src/transaction.c:126-130 | over any run the lost option blocks and mutexes are exactly the failed begins |

## Left out

- Sdk.SchedulesAreAtomic: covers reparenting and timing only through handles that have a lock pointer, that is custom segments; through the others it is false, and Crossing has the exact condition and the runs. It also leaves out newrelic_ignore_transaction (see Ignoring) and newrelic_set_transaction_name, which take no lock, and newrelic_end_transaction, which destroys the lock it took.
- Metrics.AggregateBounds: is about exact reals; 64-bit wrap-around and the limit on the number of metrics are not modelled.
- Histories.MetricsOfRun: leaves out what axiom derives for transmission while the transaction ends (durations, apdex, error counts, copies of the rollups, metrics of the single segments), after which the table is destroyed.
- Ignoring.IgnoreDuringCall: is about one ignore during one call; schedules of many threads that also ignore are not modelled, since there the order of effects is not the order of the locks.
- Axiom's other answers (memory for a segment, finite metric values, high security and custom-event options, limits on attributes) are left to the environment, so the model allows more than axiom does.
- Negative custom metric values: the model rounds down, where C's conversion to an unsigned time is undefined.
- The name and the metrics axiom gives a datastore or external segment itself at its end, and the fixed text that replaces an error's message under high security.
- Axiom segments are entries of a list in the transaction rather than separately allocated objects; the wrappers, their strings and the caller's buffers are blocks of the modelled heap.
- newrelic_set_transaction_timing keeps the pair it is given; the root segment's own times, in which axiom stores it, are not modelled.
- In the thread layer a wrapper's payload is written by one instruction; the single pointer fields are those of the in-place layer.
- Replacing a local host name by the machine's, SQL obfuscation, slow-query selection, exclusive times, span events and harvest limits: axiom's work on what is reported here.
- Distributed tracing, stack traces, JSON, version strings, log text, transaction names.
- The daemon connection, of which only success or failure is kept.
- Fixed-size configuration buffers; names and keys are unbounded strings.
