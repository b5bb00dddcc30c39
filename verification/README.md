# Verified model of the backtester lab

A Dafny model of the event pipeline and the execution side of the backtester: sorted files are merged into one
stream, order books are rebuilt from it by one manager or by several workers, and orders of trading engines are
simulated against the rebuilt books. Wherever the program has a fast or concurrent form next to a simple one, the
model has both, and the theorems say that they agree, for every input and every schedule.

## How the model is built

- **Simple form and object.** Each stateful component has a value form (a datatype and functions on it) and, where
  the program updates fields in place, a class whose methods are proved to compute exactly the value form
  (`Value()` before and after). Invariants over runs are proved on the value form and hold of the class through
  its contracts.
- **Field by field.** The tests and orders that several components share (which event can rest, which event comes first,
  which price crosses, which request is accepted) are also stated in the fields of events, requests and fills, over
  whole runs, so that each shared definition is held by a law that does not use it.
- **Concurrency.** Threads are interleaved atomic steps; a run is any sequence of steps, and a blocked thread's
  step changes nothing. The batched queue (`Channels.BatchQueue`) is proved to behave as `Channel`, the history
  of pushes with two marks (visible, popped); the other components are built on `Channel`.
- **Maps.** Ordered maps of price levels are mathematical maps; iterating one is a *ladder*, the unique list of
  its levels from the best price on. Iterating an unordered map picks any unvisited key.
- **Arithmetic.** Identifiers, sizes and counters are unbounded naturals. `LevelsBoundedByPlaced` bounds every level
  of a book by the total size ever placed in it, so a stream whose sizes sum below 2^64 cannot overflow a level.
  Sequence numbers of the messaging layer wrap at 2^64 as in the program. The portfolio uses unbounded integers
  and floor division, as Python does.

## Main results

1. *Sharded books.* For every cancel-consistent stream, number of workers and schedule, the sharded state refines
   one sequential `BookManager` at every moment; when drained, its books, its merged snapshot with the header, and
   its counters are those of the sequential manager. The
   router is exact after every prefix **if and only if** the stream is cancel-consistent; after an inconsistent
   cancel at most two more cancels make the unresolved counts of the two forms differ.
2. *Merging.* The 4-way merge tree and the flat merge deliver the same events in the same order under every
   schedule; runs are bounded and cannot stop early. `mergeInputQueues` always emits a complete order-preserving
   interleaving, sorted when its inputs are.
3. *Pipeline.* Both together: concurrent merge and concurrent books end in the books of one merge and one manager.
4. *Books.* Levels are the sums of resting orders, the defensive clamp never binds, the manager's index matches the
   books exactly. `HistoricalLobStore` agrees with `BookManager` after every prefix **if and only if** each event
   meets a stated condition.
5. *Execution.* The fill loop, which rebuilds the visible ladder for every fill, equals one walk of the ladder.
   Consumed liquidity is the sum of an engine's fills and stays within the volume of the latest one. Every
   gateway order lives by its protocol, and every request is answered once, in order. The bridge keeps each order
   *linked* (a mapping exists exactly while the gateway order is open, agrees with it, and names a live own order
   that stands for it) after every prefix of a run **if and only if** every step meets a stated condition; for
   a drain, whatever it holds, the condition concerns the last accepted request of each order. The familiar
   hypotheses (a view for every session, one accepted request per order and drain, modifies naming their own
   instrument, fills emitted by the bridge alone) are sufficient, and two runs show orders coming unlinked.
6. *Portfolio.* Mark-to-market profit differs from the true worth exactly by the accumulated rounding, which is
   bounded and never negative for long-only histories; averages stay within the prices that built the position.
7. *Messaging and snapshots.* A late subscriber sees exactly the later publications and a fresh detector reports
   exactly one gap. The asynchronous writer conserves snapshots and ends with the output of the synchronous mode.

## Where the code and its documentation or naming differ

- On a cancel the router of the sharded processor ignores the event's instrument
  (src/processing/ShardedLobMarketDataEventProcessor.cpp:379-393), while `BookManager` uses it
  (src/book/BookManager.cpp:289-301). The model follows both; hence the notion of a cancel-consistent stream.
- The bridge drains every request before it executes any (src/backtest/OrderExecutionBridge.cpp:24-28), and a modify
  neither checks nor stores its instrument (src/gateway/OrderGatewayServer.cpp:296-314). `EveryRunLinked` therefore
  assumes four things: every session has a view (`Everyone`; without one an accepted order never gets a mapping);
  a drain accepts at most one request per order; an accepted modify names its order's own instrument; and clients
  neither emit fills nor drain the gateway themselves, although both are open to them (exposed at
  bindings/python/backtester_module.cpp:750-759). None of the four is assumed by `EveryPrefixLinkedIff`, which says
  exactly when each step keeps the links; `SoleRequestLinksIff`, `SupersededLinksIff`, `AnswerLinksIff` and
  `EmitLinksIff` spell out the cases, and `FillsMean` what filling all or nothing means in visible volume.
- A synchronous snapshot writer ignores `finish`: only the asynchronous mode drops later writes
  (src/processing/AsyncSnapshotWriter.cpp:38-51).

## Model

| member | source | states |
|---|---|---|
| `Ladders.LadderUnique` | src/book/LimitOrderBook.cpp:349-379 | price order leaves no freedom: two listings of the same levels are equal and list each level once |
| `Ladders.TopLevels` | src/book/LimitOrderBook.cpp:349-379 | a depth query returns the first min(depth, levels) entries of the ladder |
| `RestingOrders.LevelCoversOrder` | src/book/LimitOrderBook.cpp:186-220 | the level of a resting order exists and covers its size, so the clamp in the removal never discards volume |
| `RestingOrders.RemovalKeepsAggregates` | src/book/LimitOrderBook.cpp:84-106 | taking volume off an order and its level keeps every level equal to the sum of its orders |
| `RestingOrders.InsertionKeepsAggregates` | src/book/LimitOrderBook.cpp:67-82 | adding an order and its level volume keeps every level equal to the sum of its orders |
| `RestingOrders.AggregatesUnique` | src/book/LimitOrderBook.cpp:247-379 | the levels, hence best prices and depth lists, follow from the order table alone |
| `LimitOrderBooks.BookRunGood` | src/book/LimitOrderBook.cpp:40-160 | after any events every resting order has an active side and positive size and order 0 never rests |
| `LimitOrderBooks.LevelsBoundedByPlaced` | src/book/LimitOrderBook.cpp:174-184 | no level ever exceeds the total size placed: the no-overflow bound for the 64-bit sums |
| `LimitOrderBooks.EventOnOrder` | src/book/LimitOrderBook.cpp:25-148 | field by field: which adds and modifies place an order and with what, what a cancel leaves of it, and that nothing else touches it but a clear |
| `LimitOrderBooks.EventOnCounters` | src/book/LimitOrderBook.cpp:84-160 | field by field: which events raise which counter, by one |
| `LimitOrderBooks.RestsExactly` | src/book/LimitOrderBook.cpp:40-160 | over any events an order rests iff some placing event still stands and is not cancelled in full, with its side and price and its size less the cancels since |
| `LimitOrderBooks.BestPriceMeaning` | src/book/LimitOrderBook.cpp:247-265 | the best bid is the highest resting bid price, the best ask the lowest resting ask price |
| `LimitOrderBooks.TopOfBookMeaning` | src/book/LimitOrderBook.cpp:349-379 | a depth list shows the highest bids downwards or the lowest asks upwards, each with the sum resting there, and omits a price only when full of better ones |
| `LimitOrderBooks.LimitOrderBook.Apply` | src/book/LimitOrderBook.cpp:40-65 | every event takes the whole book, with its counters, to its specified next value and keeps levels equal to sums |
| `LimitOrderBooks.LimitOrderBook.ApplyAdd` | src/book/LimitOrderBook.cpp:67-82 | a valid add replaces the order under its id, an invalid one changes nothing |
| `LimitOrderBooks.LimitOrderBook.ApplyCancel` | src/book/LimitOrderBook.cpp:84-106 | a cancel of size zero or at least the rest removes the order, a smaller one reduces it, an unknown one is counted |
| `LimitOrderBooks.LimitOrderBook.ApplyModify` | src/book/LimitOrderBook.cpp:108-139 | an unknown valid modify is recovered as an add and counted, an unknown invalid one is skipped and counted |
| `LimitOrderBooks.LimitOrderBook.ApplyClear` | src/book/LimitOrderBook.cpp:141-148 | a clear empties orders and levels |
| `LimitOrderBooks.LimitOrderBook.RemoveOrder` | src/book/LimitOrderBook.cpp:162-172 | removing an order takes exactly its volume off its level |
| `LimitOrderBooks.LimitOrderBook.BestBid` | src/book/LimitOrderBook.cpp:247-255 | the best bid computed from the resting orders alone |
| `LimitOrderBooks.LimitOrderBook.BestAsk` | src/book/LimitOrderBook.cpp:257-265 | the best ask computed from the resting orders alone |
| `LimitOrderBooks.LimitOrderBook.VolumeAt` | src/book/LimitOrderBook.cpp:267-282 | the sum of the resting sizes at a side and price, zero without an active side |
| `LimitOrderBooks.LimitOrderBook.DepthLevels` | src/book/LimitOrderBook.cpp:349-379 | the best depth levels as they follow from the resting orders alone |
| `BookSnapshots.SnapshotListUnique` | src/book/BookManager.cpp:211-237 | a list of instrument snapshots ascending by id that covers the books is unique |
| `BookSnapshots.SnapshotMeaning` | src/book/BookManager.cpp:211-237 | best bid and bid levels account for every resting bid, best ask and ask levels for every resting ask, best prices first |
| `BookManagers.ManagerRunGood` | src/book/BookManager.cpp:66-85 | in every reachable state books are sound and no order rests in two books |
| `BookManagers.EventOnPlace` | src/book/BookManager.cpp:66-85 | field by field and across all books: where one event leaves one order and with what size, and when it counts as unresolved |
| `BookManagers.MoveCancelsExactly` | src/book/BookManager.cpp:337-364 | the implicit cancel on a move finds its order, removes exactly it and disturbs no other |
| `BookManagers.IndexFollows` | src/book/BookManager.cpp:278-335 | the index update keeps order -> instrument exactly where the books hold the order, both ways |
| `BookManagers.BookManager.Apply` | src/book/BookManager.cpp:66-85 | every event takes books and counters to the sequential specification and keeps the index exact |
| `BookManagers.BookManager.ResolveInstrumentId` | src/book/BookManager.cpp:257-276 | the event's instrument, or the book that holds its order, or none |
| `BookManagers.BookManager.RemovePreviousInstrumentMapping` | src/book/BookManager.cpp:337-364 | the order leaves the other book and the index before it is placed |
| `BookManagers.BookManager.UpdateOrderMapping` | src/book/BookManager.cpp:278-311 | the index after an event, action by action |
| `BookManagers.BookManager.EraseOrderMappingsForInstrument` | src/book/BookManager.cpp:322-335 | the erase loop drops exactly the orders of one instrument |
| `BookManagers.BookManager.Snapshot` | src/book/BookManager.cpp:211-237 | the snapshot carries event count, timestamp and counters, and lists every book once, ascending by instrument, with its best prices and depth levels |
| `Channels.BatchQueue.Push` | src/concurrency/NonBlockingQueue.hpp:44-53 | a push appends, publishing when the batch is full; no published batch is empty |
| `Channels.BatchQueue.Flush` | src/concurrency/NonBlockingQueue.hpp:55-70 | a flush makes everything pushed visible |
| `Channels.BatchQueue.Pop` | src/concurrency/NonBlockingQueue.hpp:72-81 | a pop returns the oldest unread item and never indexes past its batch |
| `Channels.BatchQueue.TryPop` | src/concurrency/NonBlockingQueue.hpp:83-92 | it fails if and only if nothing published is unread |
| `Channels.BatchQueue.AcquireConsumerBatch` | src/concurrency/NonBlockingQueue.hpp:126-142 | acquiring succeeds exactly when something published is unread and then leaves an unread item |
| `Channels.InterleavingKeepsOrder` | src/concurrency/NonBlockingQueue.hpp:44-142 | under every interleaving of pushes, flushes and pops nothing is lost, duplicated or reordered |
| `Channels.ReceivedIsPrefix` | src/concurrency/NonBlockingQueue.hpp:72-92 | what the consumer received is a prefix of what was sent |
| `Channels.WholeBatchesVisible` | src/concurrency/NonBlockingQueue.hpp:44-53 | without a flush the consumer sees exactly the whole batches sent |
| `ShardedBooks.EveryScheduleRefines` | src/processing/ShardedLobMarketDataEventProcessor.cpp:185-206 | for every cancel-consistent stream, worker count and schedule the sharded state refines the sequential manager |
| `ShardedBooks.DrainedStateIsSequential` | src/processing/ShardedLobMarketDataEventProcessor.cpp:455-489 | once drained the merged books and unresolved count are the sequential ones; workers resolved everything |
| `ShardedBooks.RouterPredictsBooks` | src/processing/ShardedLobMarketDataEventProcessor.cpp:332-434 | the router holds o -> (i, s) exactly when o rests with size s in book i of shard i mod workers |
| `ShardedBooks.RouterExactIff` | src/processing/ShardedLobMarketDataEventProcessor.cpp:360-405 | from an exact router one event keeps it exact if and only if it is cancel-consistent |
| `ShardedBooks.RouterExactIffConsistent` | src/processing/ShardedLobMarketDataEventProcessor.cpp:379-393 | the router is exact after every prefix if and only if the stream is cancel-consistent |
| `ShardedBooks.InconsistentCancelDiverges` | src/processing/ShardedLobMarketDataEventProcessor.cpp:379-393 | after an inconsistent cancel at most two further cancels without instrument make the unresolved counts differ by one |
| `ShardedBooks.FrontIgnoresSchedule` | src/processing/ShardedLobMarketDataEventProcessor.cpp:332-434 | what is routed where depends on the stream alone, not on the schedule |
| `ShardedBooks.MergedSnapshotIsSequential` | src/processing/ShardedLobMarketDataEventProcessor.cpp:463-489 | sorting the lists of the shards together gives the list of all books |
| `ShardedBooks.CountersAddUp` | src/processing/ShardedLobMarketDataEventProcessor.cpp:503-537 | the unknown-order counters of the shards add up to those of the merged books |
| `ShardedBooks.DrainedSnapshotIsSequential` | src/processing/ShardedLobMarketDataEventProcessor.cpp:463-537 | on a drained run of a cancel-consistent stream the merged snapshot, header included, is a snapshot of the sequential manager and the workers' counters add up to its counters |
| `ShardedBooks.StrayCancelMisleadsRouter` | src/processing/ShardedLobMarketDataEventProcessor.cpp:379-393 | a two-event stream, an add and a cancel under another instrument, that is not cancel-consistent and leaves the router inexact |
| `ShardedProcessors.Dispatcher.ProcessMarketDataEvent` | src/processing/ShardedLobMarketDataEventProcessor.cpp:185-206 | the dispatcher's fields and queues follow the specified step |
| `ShardedProcessors.Dispatcher.UpdateRouterAndDispatch` | src/processing/ShardedLobMarketDataEventProcessor.cpp:360-418 | router update, injected full cancel and enqueue, action by action |
| `ShardedProcessors.Dispatcher.EraseRouterOrdersForInstrument` | src/processing/ShardedLobMarketDataEventProcessor.cpp:420-434 | the erase loop drops exactly the router entries of one instrument |
| `ShardedProcessors.WorkerThread.Turn` | src/processing/ShardedLobMarketDataEventProcessor.cpp:130-148 | one pass of the worker loop applies the next message to the worker's books |
| `ShardedProcessors.WorkerThread.Drain` | src/processing/ShardedLobMarketDataEventProcessor.cpp:73-83 | draining leaves everything enqueued applied, in order |
| `Merging.MergeUnique` | src/domain/MarketDataEvent.cpp:85-88 | inputs with distinct keys have exactly one sorted merge |
| `Merging.MergeHead` | src/runners/HardRunnerSupport.cpp:175-187 | the merge starts with the first of the heads and continues as the merge of what is left |
| `Merging.MergedInSourceOrder` | src/domain/MarketDataEvent.cpp:85-88 | the merge comes out by timestamp, then by file, then by line |
| `MergeQueues.MergeInputQueues` | src/runners/HardRunnerSupport.cpp:155-191 | the heap merge emits an order-preserving interleaving and its end marker, sorted when inputs are, by timestamp, file and line when their keys are distinct, never reading past an end marker |
| `MergeQueues.InterleavingIsComplete` | src/runners/HardRunnerSupport.cpp:155-191 | an interleaving loses and duplicates nothing |
| `Dispatching.NoViolationsIffSorted` | src/runners/RunResult.hpp:37-42 | zero chronological violations if and only if no event is earlier by timestamp, file and line than one before it |
| `Dispatching.ProcessingSummary.Observe` | src/runners/RunResult.hpp:37-66 | the summary holds counts, first and last ten events, timestamps and violations of everything seen |
| `Dispatching.DispatchMergedQueue` | src/runners/HardRunnerSupport.cpp:193-209 | the dispatcher hands over exactly the events before the end marker, in order, and the summary counts no violation if and only if they are sorted |
| `MergeTrees.BuildMergeTree` | src/runners/HierarchicalMergeRunner.cpp:20-67 | building terminates and gives a tree of at most 4-way mergers in which each queue has one reader and the last covers all files |
| `MergeTrees.BuildLevel` | src/runners/HierarchicalMergeRunner.cpp:34-63 | one level of n queues leaves ceil(n/4), covering the same files |
| `MergeTrees.NumberedFileSorted` | src/runners/HardRunnerSupport.cpp:133-145 | a file with ordered timestamps and line numbers as sequence is strictly sorted |
| `MergeTrees.TreeIsFlat` | src/runners/HierarchicalMergeRunner.cpp:20-67 | the last queue of the tree carries the flat merge of all files |
| `MergeNetworks.StepKeeps` | src/runners/HierarchicalMergeRunner.cpp:20-67 | every step of every producer and merger keeps the network on its way to the ideal contents |
| `MergeNetworks.EveryScheduleDeliversPrefix` | src/runners/HierarchicalMergeRunner.cpp:20-67 | under every schedule the dispatcher has received a prefix of the flat merge |
| `MergeNetworks.EveryScheduleDeliversInOrder` | src/runners/HierarchicalMergeRunner.cpp:20-67 | what the dispatcher received under any schedule is by timestamp, then file, then line, and nothing follows the end marker |
| `MergeProgress.StuckRunDeliversAll` | src/runners/HierarchicalMergeRunner.cpp:20-67 | a run that can go no further has delivered the whole flat merge and its end marker |
| `MergeProgress.RunsAreBounded` | src/runners/HierarchicalMergeRunner.cpp:20-67 | no schedule takes more than a fixed number of effective steps |
| `MergeProgress.FlatAndTreeAgree` | src/runners/HierarchicalMergeRunner.cpp:71-130 | flat and tree runs deliver the same events in the same order whatever their schedules and batch sizes |
| `Pipelines.ConcurrentPipelineIsSequential` | src/runners/HierarchicalMergeRunner.cpp:71-130 | concurrent merge and sharded books end in the books of one merge and one manager |
| `HistoricalLobs.HistoricalLOB.Apply` | src/lob/HistoricalLOB.cpp:36-62 | every event takes the order table to its specified value and keeps levels equal to sums |
| `HistoricalLobs.HistEventOnOrder` | src/lob/HistoricalLOB.cpp:21-143 | field by field: what one event makes of one order of the historical table |
| `HistoricalLobs.HistoricalLOB.ApplyModify` | src/lob/HistoricalLOB.cpp:82-98 | a valid modify replaces a known order and ignores an unknown one |
| `HistoricalLobs.HistoricalLOB.ApplyCancel` | src/lob/HistoricalLOB.cpp:100-120 | a cancel reduces or removes, an unknown one changes nothing |
| `HistoricalLobs.HistoricalLOB.ApplyClear` | src/lob/HistoricalLOB.cpp:122-143 | the clear loop removes exactly the orders of the named instrument |
| `HistoricalLobStores.ClearEmptiesBook` | src/lob/HistoricalLOB.cpp:122-143 | in a store book the selective clear leaves nothing at all |
| `HistoricalLobStores.HistoricalLobStore.Apply` | src/lob/HistoricalLobStore.cpp:40-54 | events go to the book of their instrument; without one only a clear has an effect |
| `HistoricalLobStores.HistoricalLobStore.Snapshot` | src/lob/HistoricalLobStore.cpp:70-80 | the bid and ask ladders of an instrument down to a depth, as its resting orders give them |
| `StoreAgreement.AgreementIff` | src/lob/HistoricalLobStore.cpp:40-54 | one event keeps store and manager in agreement if and only if it meets the stated condition |
| `StoreAgreement.StoreAgreesIff` | src/lob/HistoricalLOB.cpp:36-203 | store and manager agree after every prefix if and only if every event meets the condition |
| `StoreAgreement.AgreementOnLevels` | src/lob/HistoricalLobStore.cpp:95-105 | agreement covers every level and the resting counts |
| `EngineViews.EngineView.ReserveSyntheticOrderId` | src/lob/EngineView.cpp:258-262 | ids are handed out once, in increasing order |
| `EngineViews.EngineView.AddSyntheticOrderWithId` | src/lob/EngineView.cpp:264-281 | the own order is filed and its volume added; with a reserved unused id and a valid order the levels stay the sums of own orders |
| `EngineViews.EngineView.AddSyntheticOrder` | src/lob/EngineView.cpp:233-256 | an invalid order returns id 0 and changes nothing, a valid one gets the next id |
| `EngineViews.EngineView.CancelSyntheticOrder` | src/lob/EngineView.cpp:283-295 | the own order disappears from orders and levels; an unknown id changes nothing |
| `EngineViews.EngineView.ConsumeHistoricalLiquidity` | src/lob/EngineView.cpp:331-340 | consumption grows at one price of one side of one instrument |
| `FillSimulators.WalkMeaning` | src/lob/FillSimulator.cpp:238-269 | a walk makes one fill per level from the best on, within the limit, all but the last whole; a remainder means the next level is out of reach |
| `FillSimulators.WalkWorsens` | src/lob/FillSimulator.cpp:238-269 | the prices of the fills strictly worsen |
| `FillSimulators.WalkTakes` | src/lob/FillSimulator.cpp:238-269 | a walk fills the volume visible within the limit, up to the size wanted |
| `FillSimulators.LadderRoundTrip` | src/lob/FillSimulator.cpp:92-136 | listing an ordered map and rebuilding it gives the map back |
| `FillSimulators.VisibleHistorical` | src/lob/FillSimulator.cpp:92-136 | adding historical levels and removing consumed ones leaves historical minus consumed, floored at zero |
| `FillSimulators.VisibleLadder` | src/lob/SimulatedLOB.cpp:96-152 | a strategy sees historical minus consumed, floored at zero, plus its own orders, price by price |
| `FillSimulators.SimBounded` | src/lob/FillSimulator.cpp:213-284 | the fills of an order are a walk of the visible ladder and never exceed the request |
| `FillSimulators.TakeBest` | src/lob/FillSimulator.cpp:238-269 | one pass of the re-snapshotting loop is the head of the walk, and the rest of the walk is what the next snapshot shows |
| `FillSimulation.FillSimulator.BestVisible` | src/lob/FillSimulator.cpp:138-164 | the best opposite level the engine still sees, from a fresh snapshot |
| `FillSimulation.FillSimulator.FillAgainst` | src/lob/FillSimulator.cpp:238-269 | the loop terminates and its fills, consumption and remainder equal those of one walk |
| `FillSimulation.FillSimulator.SubmitLimitOrderResult` | src/lob/FillSimulator.cpp:213-284 | result and views equal the specification; an invalid request or unknown engine changes nothing; other views are untouched |
| `ConsumptionRuns.SimConsumes` | src/lob/FillSimulator.cpp:238-269 | an order adds exactly its fills, price by price, to its engine's consumption |
| `ConsumptionRuns.AdvanceKeepsAccount` | src/lob/FillSimulator.cpp:213-284 | every move keeps consumption accounted for, and changes no other engine's view and no historical book |
| `ConsumptionRuns.ConsumptionIsFills` | src/lob/EngineView.cpp:150-177 | over any run consumption at a price is the sum of the engine's fills there, within the volume at its latest fill |
| `ConsumptionRuns.RemainderMeetsNothing` | src/lob/FillSimulator.cpp:271-281 | when part of an order stays unfilled no visible level is within its limit |
| `ConsumptionRuns.LimitIsKept` | src/lob/FillSimulator.cpp:238-281 | in plain prices: a buy takes asks upwards and none above its limit, a sell bids downwards and none below; what is left faces only asks above or bids below the limit |
| `ConsumptionRuns.TakenIff` | src/lob/FillSimulator.cpp:213-235 | field by field: which requests are simulated; any other fills nothing and changes nothing |
| `Gateways.RequestFollows` | src/gateway/OrderGatewayServer.cpp:202-322 | answering a request moves the order along its protocol |
| `Gateways.FillFollows` | src/gateway/OrderGatewayServer.cpp:96-151 | a fill moves the order along its protocol and its reported remainder adds up |
| `Gateways.EveryOrderLivesByProtocol` | src/gateway/OrderGatewayServer.cpp:63-151 | over every run: rejects, one acceptance, modifies and partial fills, at most one terminal event, then only rejects; filled since last acceptance plus remaining is the size; filled iff nothing remains; every fill reports the terms last accepted |
| `Gateways.EveryRequestAnsweredOnce` | src/gateway/OrderGatewayServer.cpp:324-364 | the j-th answer on a channel answers the j-th request taken from it, and there are no others |
| `GatewayLaws.EveryAnswerIsLawful` | src/gateway/OrderGatewayServer.cpp:202-364 | over every run each answer is the acceptance its request deserves, or the reject with the first fault in the order of the checks, given what the channel said of the order before; every event names the channel's engine |
| `Gateways.DrainAllMeaning` | src/gateway/OrderGatewayServer.cpp:63-82 | draining answers the whole visible backlog in engine and request order |
| `Gateways.OrderGatewayServer.RegisterEngine` | src/gateway/OrderGatewayServer.cpp:12-28 | a new engine joins the end of the drain order, a known one only changes its channel |
| `Gateways.OrderGatewayServer.DrainRequests` | src/gateway/OrderGatewayServer.cpp:63-82 | the nested loops compute the drain of the specification |
| `Gateways.OrderGatewayServer.ProcessNewOrder` | src/gateway/OrderGatewayServer.cpp:202-250 | acceptance, or the first applicable reject reason, with its answer and transition |
| `Gateways.OrderGatewayServer.ProcessCancelOrder` | src/gateway/OrderGatewayServer.cpp:252-278 | acceptance, or unknown or terminal, with its answer and transition |
| `Gateways.OrderGatewayServer.ProcessModifyOrder` | src/gateway/OrderGatewayServer.cpp:280-322 | acceptance that keeps the stored instrument, or the first applicable reject reason |
| `Gateways.OrderGatewayServer.EmitFill` | src/gateway/OrderGatewayServer.cpp:96-151 | a fill reaches an open order, clamped to what remains, and is reported; otherwise nothing changes |
| `Gateways.OrderGatewayServer.OpenOrderCount` | src/gateway/OrderGatewayServer.cpp:153-165 | the number of non-terminal orders |
| `Bridges.EmitAllReports` | src/backtest/OrderExecutionBridge.cpp:111-122 | while simulated fills fit, each is reported as it is and the order keeps the difference |
| `Bridges.FillsAreStamped` | src/backtest/OrderExecutionBridge.cpp:111-122 | every event added while executing terms is a fill and carries their time |
| `Bridges.RemainderIsFiled` | src/backtest/OrderExecutionBridge.cpp:98-158 | what is left of executed terms rests under a new id as an own order with exactly those terms and time, and the mapping repeats them |
| `Bridges.SubmitFrames` | src/backtest/OrderExecutionBridge.cpp:98-158 | executing terms, current or outdated, changes no other order and only takes from its own, leaving its remainder alone iff nothing is filled |
| `Bridges.TransitionFrames` | src/backtest/OrderExecutionBridge.cpp:52-96 | executing any accepted request changes no other order and keeps ids unshared and own orders mapped |
| `Bridges.ExecutionLinksIff` | src/backtest/OrderExecutionBridge.cpp:98-158 | executing terms links an unmapped order iff they fill at once; or it is open, they are taken, and it has their full size and instrument; or it is closed and they are not taken |
| `Bridges.TransitionLinksIff` | src/backtest/OrderExecutionBridge.cpp:52-96 | executing the last accepted request of an order links it iff it is a cancel or meets that condition |
| `BridgeRuns.AnyDrainLinksIff` | src/backtest/OrderExecutionBridge.cpp:21-30 | after any drain, whatever else it holds, an order with accepted requests is linked iff the last of them links it in its turn |
| `BridgeRuns.DrainLinksIff` | src/backtest/OrderExecutionBridge.cpp:21-30 | a drain leaves every order linked iff every last accepted request links its order in its turn |
| `BridgeRuns.AnswerLinksIff` | src/gateway/OrderGatewayServer.cpp:50-82 | a request answered past the bridge keeps every order linked iff it is refused or is a modify that changes no term |
| `BridgeRuns.EmitLinksIff` | src/gateway/OrderGatewayServer.cpp:96-151 | a fill emitted past the bridge keeps every order linked iff it reaches no order |
| `BridgeRuns.StepLinksIff` | src/backtest/OrderExecutionBridge.cpp:21-30 | from a linked state any step of clients, market or bridge keeps every order linked iff its condition holds |
| `BridgeRuns.EveryPrefixLinkedIff` | src/backtest/OrderExecutionBridge.cpp:73-184 | over every run all orders are linked after every prefix iff every step meets its condition: mapping iff open, same remainder and terms, live own order, ids unshared, none orphaned |
| `BridgeHypotheses.SoleRequestLinksIff` | src/backtest/OrderExecutionBridge.cpp:73-125 | an order with one accepted request in a drain is linked iff that is a cancel, or fills at once, or its engine has a view and it names the order's instrument |
| `BridgeHypotheses.ModifyLinksIff` | src/gateway/OrderGatewayServer.cpp:296-314 | an order whose one accepted request in a drain is a modify is linked iff the modify names its own instrument or fills at once |
| `BridgeHypotheses.SupersededLinksIff` | src/backtest/OrderExecutionBridge.cpp:24-28 | an order with two accepted requests in a drain, the second a modify naming its own instrument, is linked iff the first fills nothing or the second fills all |
| `BridgeHypotheses.FillsMean` | src/lob/FillSimulator.cpp:213-284 | terms fill at once iff they are taken and the volume visible within the limit covers the size, and fill nothing iff they are not taken or no visible level is within it |
| `BridgeHypotheses.DistinctRequestsGrantOnce` | src/backtest/OrderExecutionBridge.cpp:21-30 | one request per order per drain gives one accepted request per order |
| `BridgeHypotheses.OrderlyDrainLinks` | src/backtest/OrderExecutionBridge.cpp:21-30 | with a view per session, one accepted request per order and modifies naming their own instrument, a drain links every order |
| `BridgeHypotheses.EveryRunLinked` | src/backtest/OrderExecutionBridge.cpp:73-184 | over every orderly run with a view per session every order is linked throughout |
| `BridgeExamples.ForeignModifyUnlinks` | src/gateway/OrderGatewayServer.cpp:296-314 | a run from the opening: new order for instrument 1, drain, modify naming instrument 2, drain; the order is not linked |
| `BridgeExamples.SupersededOrderUnlinks` | src/backtest/OrderExecutionBridge.cpp:24-28 | a run from the opening: an offer of two, a new order for five and a modify repeating it, one drain; the order is not linked |
| `ExecutionBridges.OrderExecutionBridge.DrainAndProcessRequests` | src/backtest/OrderExecutionBridge.cpp:21-30 | the object computes the specified drain; each counter is the number of transitions of its kind, the fills emitted are the fill events added to the channels, and the mapping counters account for the number of mappings |
| `ExecutionBridges.OrderExecutionBridge.SubmitAcceptedOrder` | src/backtest/OrderExecutionBridge.cpp:98-125 | simulate, report every fill, then store or erase the mapping |
| `ExecutionBridges.OrderExecutionBridge.StoreOrEraseMapping` | src/backtest/OrderExecutionBridge.cpp:127-158 | a remainder is mapped, otherwise the mapping goes; the counters say which |
| `ExecutionBridges.OrderExecutionBridge.EraseMapping` | src/backtest/OrderExecutionBridge.cpp:160-184 | mapping and synthetic order disappear together; an absent mapping changes nothing |
| `ExecutionBridges.OrderExecutionBridge.EmitFills` | src/backtest/OrderExecutionBridge.cpp:111-122 | the number of fills emitted is the number of fill events added to the channels |
| `Portfolios.TradeBalances` | python/backtester/portfolio.py:39-73 | a fill moves realized profit, cost and cash by its rounding only; closing and flipping add none |
| `Portfolios.ProfitWithinSlack` | python/backtester/portfolio.py:86-105 | with cash paid by buys and received by all other fills, profit minus true worth is the accumulated rounding, at most the sum of (new position - 1) over extensions, non-negative for long-only histories |
| `Portfolios.AverageWithinOpeners` | python/backtester/portfolio.py:50-73 | an average is stored iff the position is open and lies between the lowest and highest price that opened or extended it |
| `Portfolios.PositionIsBoughtLessSold` | python/backtester/portfolio.py:39-73 | over every history a position is the size bought on the bid side less the size of all other counted fills, and the last price is the last mark |
| `Portfolios.Portfolio.ApplyFill` | python/backtester/portfolio.py:39-73 | the dictionaries after a fill, case by case; non-positive sizes are ignored |
| `Portfolios.Portfolio.SetOpenPosition` | python/backtester/portfolio.py:107-114 | position and average are stored together, the average dropped when flat |
| `Portfolios.Portfolio.MarkToMarketPnl` | python/backtester/portfolio.py:78-87 | realized profit plus the sum of unrealized profits over all instruments |
| `Portfolios.Portfolio.UnrealizedFor` | python/backtester/portfolio.py:92-105 | unrealized profit of one instrument, zero without a last price or an average |
| `Messaging.EverySubscriberFollows` | src/messaging/MarketDataPublisher.cpp:8-95 | a subscriber that joined after n publications was sent exactly the later ones, in order |
| `Messaging.FlushShowsAll` | src/messaging/MarketDataPublisher.cpp:49-59 | after a flush every subscriber can drain exactly what was published since it joined |
| `Messaging.IdsAreOwn` | src/messaging/MarketDataPublisher.cpp:8-23 | no two subscribers of any instruments share an id |
| `Messaging.JoinReportsOneGap` | src/messaging/MarketDataSubscriber.hpp:44-53 | what it received so far makes a fresh detector report one gap (expected 1, observed n + 1) iff n > 0, and order otherwise |
| `Messaging.CheckMeaning` | src/messaging/MarketDataGapDetector.cpp:6-74 | after arbitrary messages, one more is in order iff it is one above the highest number seen of its instrument, a gap iff it is higher still, a repeat otherwise |
| `Messaging.LastSeenIsHighest` | src/messaging/MarketDataGapDetector.cpp:6-74 | the detector's last value is the highest number seen and equals in-order checks plus gap jumps |
| `Messaging.MarketDataPublisher.Subscribe` | src/messaging/MarketDataPublisher.cpp:8-23 | a subscriber joins the end of its instrument's list under a new id |
| `Messaging.MarketDataPublisher.Publish` | src/messaging/MarketDataPublisher.cpp:25-95 | the next number of the instrument is assigned and the message pushed to each of its subscribers |
| `Messaging.MarketDataPublisher.FlushQueues` | src/messaging/MarketDataPublisher.cpp:49-59 | every subscriber's queue is flushed |
| `Messaging.MarketDataGapDetector.Observe` | src/messaging/MarketDataGapDetector.cpp:6-74 | the check and the remembered number, case by case |
| `Messaging.MarketDataSubscriber.DrainAvailable` | src/messaging/MarketDataSubscriber.hpp:44-53 | everything visible is handed over, in order |
| `SnapshotWriters.EveryScheduleConserves` | src/processing/AsyncSnapshotWriter.cpp:36-113 | written, in hand and queued are exactly what was accepted, in order; when the worker has gone all is written |
| `SnapshotWriters.AsyncMatchesSync` | src/processing/AsyncSnapshotWriter.cpp:36-56 | the asynchronous output is the synchronous output up to the request to finish |
| `SnapshotWriters.FinishingEnds` | src/processing/AsyncSnapshotWriter.cpp:58-75 | after the request the worker always has a step until it exits, and only boundedly many |
| `SnapshotWriters.AsyncSnapshotWriter.WriteSnapshot` | src/processing/AsyncSnapshotWriter.cpp:36-56 | synchronous writes print at once, asynchronous ones are queued or dropped |
| `SnapshotWriters.AsyncSnapshotWriter.WorkerTurn` | src/processing/AsyncSnapshotWriter.cpp:87-113 | one pass of the worker loop |
| `SnapshotWriters.AsyncSnapshotWriter.WorkerStepOnce` | src/processing/AsyncSnapshotWriter.cpp:87-113 | wherever the worker stands after a request to finish, it makes its next enabled step |
| `SnapshotWriters.AsyncSnapshotWriter.Finish` | src/processing/AsyncSnapshotWriter.cpp:58-75 | whatever the worker has in hand, when finish returns everything accepted has been printed and the counts agree; in synchronous mode nothing changes |

## Left out

- Memory orders, node reclamation and wake-ups inside the queue: publishing and acquiring a batch are atomic steps.
- The end markers and thread start-up and join of the sharded workers, and the exception thrown by an enqueue after finish: the model covers events and drains.
- `std::priority_queue`: a multiset from which any node with no earlier node is taken; `std::sort` is any sorted permutation.
- Parsing of files and timestamps, file discovery, command lines, printers, benchmarks and language bindings.
- Digest and price strings: states are compared as structured values.
- Samples of unknown-order diagnostics, wall-clock statistics and periodic snapshot triggers: they would only add easy members.
- 64-bit wrap-around of quantities and counters: modelled as unbounded, with the bound of `LevelsBoundedByPlaced` for book levels; sequence numbers do wrap.
- Prices: event prices are unbounded integers; only the undefined price, the largest 64-bit value, is treated specially.
- Python runners, contexts, risk checks and charts around the portfolio, and the choice of a mark price from a snapshot: orchestration around user callbacks.
- Best-price and depth queries of views and simulated books: the same copying as in the book's depth query.
- A simulator over a single historical book: the store form is modelled.
- The gateway's and publisher's channels are held as their proved simple form (`Channel`), not as queue objects; sharing of one channel by two engines is not modelled.
- Channels.BatchQueue.Pop: the blocking pop is taken at a moment when its wait is over.
- SnapshotWriters.AsyncSnapshotWriter.Finish: the waiting caller is shown with the worker running alone; interleaved callers are covered by EveryScheduleConserves.
