# Trading system verification

A Dafny model of the algorithms the trading system relies on for safety, with proofs of what they guarantee
over every input and every run. Prices, scores and times are exact reals or integers; JavaScript's rounding,
truncating remainder, falsy defaults and stable sort are written out.

* **Gate pipeline** (`layer_pipeline.dfy`, `layer_gates.dfy`, `layer_readiness.dfy`, `layer_meaning.dfy`,
  `layer_scores.dfy`). The 20-layer run with arbitrary processors, its metrics when runs interleave at their awaits,
  and the concrete layers. The main theorem is the exact condition on the fields of market data and signal under
  which a run ends ready, with what it then reports.
* **Snapshot request queue** (`snapshot_requests.dfy`, `request_outcomes.dfy`). A step machine over request, timer,
  success and failure, its invariant in every reachable state, and what the events of a run bring about, refined by
  the mutable record and its handlers.
* **Signal merge and catalog rotation** (`signal_merge.dfy`, `stable_sort.dfy`, `catalog_rotation.dfy`). What capped
  newest-wins merging keeps and exactly when it streams correctly, and round-robin batches are fair.
* **Snapshot store** (`snapshot_store.dfy`, `snapshot_writes.dfy`). The bounded versioned cache: what each write
  stores, eviction, version accounting, sticky fields, staleness, commuting partial updates.
* **Backtesting** (`backtester.dfy`, `backtest_properties.dfy`, `trade_meaning.dfy`, `live_validation.dfy`,
  `walk_forward.dfy`, `math_helpers.dfy`, `performance_summary.dfy`, `monte_carlo.dfy`). What each trade earns, no
  look-ahead end to end, bounded payoff, costs, windows, drawdown, accounting, and the random generator.
* **Analyzers** (`indicators.dfy`, `rsi.dfy`, `smoothing.dfy`, `volatility_clusters.dfy`, `regression.dfy`).
  Incremental series against their batch definitions and closed forms, run-length clusters, and both least-squares
  fits.

Each component has a specification on values; a method or class in the program's own imperative form is proved
to compute it, and the properties are proved of the specification.

## Findings

The code is modelled as it is. Where a natural property fails, the exact condition is proved:

* Layer 18 never rejects what the earlier required layers let through (`Layer18Passes`): its composite score
  always clears the adaptive minimum, and `layer18Ready` never turns on its 60% confluence conjunct
  (`ReadyIsAllRequired`).
* The 3% risk gate compares a percentage of the balance: a ready run's risk is within 3% if and only if the balance is
  positive (`ReadyRisk`), and runs do end ready on a negative one (`NegativeBalancePasses`). The snapshot store never sets a balance
  (`createSnapshot`, src/core/engine/unified-snapshot-manager.js:42-86), so its snapshots count as 10000 and stay within the
  limit (`DefaultBalanceRisk`); a negative balance has to come from another caller of `processSignal`.
* The MACD histogram of layer 6 is always zero, so with enough bars the stochastic alone decides the layer
  (`StochasticAlone`).
* Walk-forward splitting never ends with one to nine bars and no explicit size (`HaltsExactly`).
* A seed whose truncated remainder is -2147483646 sticks at state 0 and draws only negative indices
  (`SafeSeedExactly`).
* The MACD series reads ahead of its bar when the fast period exceeds the slow one (`MacdMatchesExactly`), and the
  batch RSI is not a number where the series says 50 exactly when the prices do not move (with a
  period of 1, the last two; `SeriesIsBatch`).
* Signals of different keys with equal timestamps can make streamed and batch merging differ, at every cap
  (`TiesBreakStreaming`). Streaming is exact for a set of items if and only if no two different items of one key are
  such that one, no older than the other, ties with another key's item while more keys than the cap are that new (`StreamingExactly`).
* A snapshot whose age equals the TTL is counted stale by the statistics but not marked by a read
  (`StalenessAgreesExactly`).

## Model

| member | source | states |
|---|---|---|
| `LayerMeaning.ReadyExactlyWhenTradable` | src/core/engine/layer-orchestrator.js:192-320 | a whole run ends ready if and only if: the first nonzero of receivedAt, timestamp and lastQuoteAt is at most 60 s old and bid and ask are positive; the quoted spread, or else ask - bid in points, is at most 25; volatility is 10..200; every news impact is below 70; reward at least 1.6; two thirds of the H1, H4 and D1 trends run with the signal and by weight at most a quarter of all against it; the stochastic agrees, or RSI and MACD do; the price is on the signal's side of two averages of three, or of all three against a crossover; the stop is 10 to 200 pips off and a positive balance b of p pips obeys 10 p <= 3 b and b < 3330 p; nothing was caught |
| `LayerMeaning.SpreadMeaning` | src/core/engine/layer-orchestrator.js:400-435 | the measured spread is within a limit exactly when `spreadPoints` is, without it `spread`, without both ask - bid is at most limit points of pipSize, or of 0.0001 |
| `LayerMeaning.Layer2Meaning` | src/core/engine/layer-orchestrator.js:400-435 | layer 2 passes a quote exactly when that spread is within 30 points |
| `LayerMeaning.ReadySpread` | src/core/engine/layer-orchestrator.js:1430-1440 | in every ready run it is within 25 points |
| `LayerMeaning.ConfluenceMeaning` | src/core/engine/layer-orchestrator.js:1006-1095 | the rounded confluence of 75 percent means that by weights 1 to 4 at most a quarter of the trends there run the other way |
| `LayerMeaning.AverageBallotMeaning` | src/core/engine/layer-orchestrator.js:836-980 | the 65 percent of layer 7 come to a count of the three price sides, and whether the averages are stacked never matters |
| `LayerMeaning.BalanceCorridor` | src/core/engine/layer-orchestrator.js:1190-1245 | the lot clamp, rounding, size limit and risk gate together admit exactly the balances b with 10 p <= 3 b and b < 3330 p for a stop of p pips |
| `LayerScores.ReadyReport` | src/core/engine/layer-orchestrator.js:192-345 | a ready run reports exactly the score sheet of its fields: seventeen positive scores, at layer 18 their mean to a tenth, at layer 19 92 less half the spread with the volatility, confluence and reward corrections, capped at 99; the floor of 55 and the spread malus of 20 never act |
| `LayerScores.SizeScore` | src/core/engine/layer-orchestrator.js:1221-1253 | the score of a sized position by the first limit broken, as a closed condition on balance and stop distance |
| `LayerScores.BlockedScore` | src/core/engine/layer-orchestrator.js:1420-1450 | behind open gates layer 19 fails with 35 for its spread first and with 45 for its reward second |
| `LayerScores.CaughtError` | src/core/engine/layer-orchestrator.js:548-556 | a layer that catches its own exception reports ERROR without a score and the run is not ready |
| `LayerScores.TrendShare` | src/core/engine/layer-orchestrator.js:464-556 | layer 4 scores the rounded share of the higher trends that run with the signal, passed or not |
| `LayerScores.ConfluenceShare` | src/core/engine/layer-orchestrator.js:1006-1095 | layer 11 scores the rounded share by weight of the trends that do not run against it |
| `LayerScores.IndicatorShare` | src/core/engine/layer-orchestrator.js:682-834 | layer 6 scores half votes out of six: RSI and MACD one or two, the stochastic two or none |
| `LayerScores.AverageShare` | src/core/engine/layer-orchestrator.js:836-989 | layer 7 scores half votes: two an average, one when stacked, two for a crossover |
| `LayerReadiness.ReadyExactlyWhenCleared` | src/core/engine/layer-orchestrator.js:192-320 | a whole run over the concrete layers ends with `layer18Ready` if and only if a condition on the quote, the market data and the signal alone holds: quote age at most 60 s with positive prices, spread at most 25, volatility 10..200, two thirds of the higher trends, indicator consensus 60% and average ratio 65%, rounded confluence at least 75, no news at 70 or above, reward at least 1.6, the sizing limits, and no caught exception |
| `LayerReadiness.EarlyPassesExactly` | src/core/engine/layer-orchestrator.js:368-1279 | layers 1 to 17 all pass where required exactly when every gate is open at its own threshold (spread 30, reward 1.5) |
| `LayerReadiness.CompositeIsImplied` | src/core/engine/layer-orchestrator.js:1317-1373 | once those layers have passed, the composite score check of layer 18 cannot fail, whatever spread, volatility and reward do to its adaptive minimum |
| `LayerReadiness.Layer18Passes` | src/core/engine/layer-orchestrator.js:1281-1396 | hence the final validation rejects nothing the earlier required layers let through |
| `LayerReadiness.Layer19PassesExactly` | src/core/engine/layer-orchestrator.js:1398-1483 | the execution clearance then passes exactly when the spread is at most 25 and the reward at least 1.6 |
| `LayerReadiness.LayerPassesExactly` | src/core/engine/layer-orchestrator.js:368-1279 | each early layer alone passes exactly when its gate on the input is open; a caught exception closes the gate of layers 4 to 7, 11 and 17 |
| `LayerReadiness.Layer4Passes` | src/core/engine/layer-orchestrator.js:464-556 | the ratio threshold 0.66 of the trend layer means at least two thirds of the H1, H4 and D1 trends there are, and at least one |
| `LayerReadiness.StochasticDecides` | src/core/engine/layer-orchestrator.js:696-814 | with all three indicators present, layer 6 passes exactly when the stochastic agrees, or RSI and MACD both do |
| `LayerReadiness.StochasticAlone` | src/core/engine/layer-orchestrator.js:696-814 | on inputs that bars give, where the MACD histogram is always zero (src/lib/utils/technical-analysis.js sets the signal line to the MACD line), layer 6 with enough bars passes exactly when the stochastic agrees |
| `LayerReadiness.Layer17Passes` | src/core/engine/layer-orchestrator.js:1175-1279 | the sizing layer passes exactly when entry, stop and pair are given, lots are below 5, the stop is 10 to 200 pips and the risk percentage at most 3; its minimum-lot branch is unreachable |
| `LayerReadiness.LotsAtLeastMinimum` | src/core/engine/layer-orchestrator.js:1206-1215 | the clamped and rounded size is never below 0.01 lots, even for a zero stop distance or a negative balance |
| `LayerReadiness.RiskNearTarget` | src/core/engine/layer-orchestrator.js:1190-1215 | between the lot limits the money at risk is 1.5% of the balance, off by at most half a hundredth of a lot |
| `LayerReadiness.ReadyRisk` | src/core/engine/layer-orchestrator.js:1190-1245 | a ready run is sized in [0.01, 5) lots, and its risk is at most 3% of the balance if and only if the balance is positive |
| `LayerReadiness.NegativeBalancePasses` | src/core/engine/layer-orchestrator.js:192-345 | among the inputs that bars can give, one with a negative balance whose whole run ends ready, and one with a positive balance |
| `LayerReadiness.DefaultBalanceRisk` | src/core/engine/layer-orchestrator.js:1190-1232 | a ready run on a snapshot without a balance of its own, as the snapshot store makes them, risks at most 3% of the default 10000 |
| `LayerReadiness.ReadyDirection` | src/core/engine/layer-orchestrator.js:464-556 | a ready signal is a buy or a sell; layer 11 alone would accept any direction on neutral trends |
| `LayerGates.CountTrends` | src/core/engine/layer-orchestrator.js:477-510 | the counting loop of layer 4: how many timeframes were analysed and how many agree |
| `LayerGates.WeighTimeframes` | src/core/engine/layer-orchestrator.js:1021-1068 | the weighing loop of layer 11: total weight and weight of aligned or neutral timeframes |
| `LayerPipeline.RunShape` | src/core/engine/layer-orchestrator.js:192-289 | with arbitrary processors every run ends with layers 1..k in order, k = 20 unless a required processor threw at k, and only SKIPPED after a required failure |
| `LayerPipeline.RunExplained` | src/core/engine/layer-orchestrator.js:192-289 | every result up to the cut is what its processor returned on the results before it, the rest is SKIPPED, and the run stopped at the cut because the cut layer stops a run |
| `LayerPipeline.SkippedCountsMissing` | src/core/engine/layer-orchestrator.js:305-316 | the skipped figure is SKIP plus SKIPPED plus the layers a required throw left out |
| `LayerPipeline.SummaryMeaning` | src/core/engine/layer-orchestrator.js:289-316 | the summary counts the results by status, and its confluence score is five times the passed ones |
| `LayerPipeline.ReadyIsAllRequired` | src/core/engine/layer-orchestrator.js:294-318 | `layer18Ready` holds exactly when all eighteen required layers passed; the 60% conjunct is implied |
| `LayerPipeline.ReadyExactlyWhenAccepted` | src/core/engine/layer-orchestrator.js:192-318 | with arbitrary processors a run is ready exactly when there are twenty results and every processor but those of layers 9 and 15 returned PASS or no status on the results before it |
| `LayerPipeline.MetricsStayExact` | src/core/engine/layer-orchestrator.js:192-363 | over any interleaving of runs, segment by segment, processed is passed plus failed, every counter counts runs exactly, and passed never exceeds a required layer's pass count |
| `LayerPipeline.SoloRun` | src/core/engine/layer-orchestrator.js:192-345 | the interleaving model contains the uninterrupted run: its segments one after the other give the results and metrics of ProcessSignal |
| `LayerPipeline.Orchestrator.constructor` | src/core/engine/layer-orchestrator.js:27-39 | metrics start at zero |
| `LayerPipeline.Orchestrator.UpdateLayerMetrics` | src/core/engine/layer-orchestrator.js:350-363 | PASS, FAIL and ERROR bump their own counter of that layer; SKIP and SKIPPED bump none |
| `LayerPipeline.Orchestrator.FillSkipped` | src/core/engine/layer-orchestrator.js:250-260 | every layer after a required failure gets one SKIPPED result, in order |
| `LayerPipeline.Orchestrator.FinishLayer` | src/core/engine/layer-orchestrator.js:202-288 | one loop iteration after the await: new results, the layer's counter, and whether the run stops |
| `LayerPipeline.Orchestrator.FinishRun` | src/core/engine/layer-orchestrator.js:289-330 | the summary of a run, and processed with exactly one of passed and failed bumped |
| `LayerPipeline.Orchestrator.ProcessSignal` | src/core/engine/layer-orchestrator.js:192-345 | the loop computes the analysis of the recursive run and leaves exactly its metrics |
| `SnapshotRequests.StepKeeps` | clients/neon-dashboard/src/App.jsx:1667-1772 | request, timer, success and failure each keep the invariant: duplicate-free queue, never a timer and a post together, at most 200 queued in flight and 201 otherwise, no lost wakeup, pacing, backoff as a function of the 429 answers since the last success, throttling, and conservation of symbols |
| `SnapshotRequests.ReachableInv` | clients/neon-dashboard/src/App.jsx:1667-1772 | every reachable state of every run satisfies it |
| `SnapshotRequests.BackoffBounds` | clients/neon-dashboard/src/App.jsx:1717-1721 | the pause after n 429 answers since the last success is min(300 s, 30 s * 2^n): within 30 s and 5 min, doubled by each refusal, at its cap from the fourth |
| `SnapshotRequests.QueueProgress` | clients/neon-dashboard/src/App.jsx:1690-1766 | first in, first out over any run: a queued symbol at place p is among the next p + 1 posts, or was dropped by overflow, or stands exactly as many places further up as were posted or dropped since |
| `SnapshotRequests.PostedOrDropped` | clients/neon-dashboard/src/App.jsx:1690-1766 | so after more than p further posts it has been posted or dropped |
| `SnapshotRequests.PostSpacing` | clients/neon-dashboard/src/App.jsx:1684-1689 | posts i and j of a run start at least 10 s * (j - i) apart |
| `SnapshotRequests.AtMostSixPerMinute` | clients/neon-dashboard/src/App.jsx:1684-1689 | in any reachable history at most six posts start within any 60 s, against the limit of 20 a minute the code cites |
| `SnapshotRequests.Requester.constructor` | clients/neon-dashboard/src/App.jsx:1667-1676 | the initial record |
| `SnapshotRequests.Requester.ScheduleSnapshotFlush` | clients/neon-dashboard/src/App.jsx:1678-1689 | arms the timer for the earliest allowed time unless one is armed or a post is in flight |
| `SnapshotRequests.Requester.EnqueueSymbol` | clients/neon-dashboard/src/App.jsx:1756-1765 | adds an unqueued symbol, dropping the oldest beyond 200, with `queuedSet` kept equal to the queue |
| `SnapshotRequests.Requester.RequestSnapshotForSymbol` | clients/neon-dashboard/src/App.jsx:1737-1772 | refines the Request step |
| `SnapshotRequests.Requester.OnTimerFires` | clients/neon-dashboard/src/App.jsx:1689-1704 | refines the TimerFires step |
| `SnapshotRequests.Requester.OnPostSucceeds` | clients/neon-dashboard/src/App.jsx:1706-1713 | refines the PostSucceeds step |
| `SnapshotRequests.Requester.BackOff` | clients/neon-dashboard/src/App.jsx:1714-1721 | a failure sets the send time, and a 429 answer the doubled pause |
| `SnapshotRequests.Requester.RequeueSymbol` | clients/neon-dashboard/src/App.jsx:1723-1727 | puts the symbol back at the end unless it is queued already, `queuedSet` kept equal to the queue |
| `SnapshotRequests.Requester.OnPostFails` | clients/neon-dashboard/src/App.jsx:1714-1727 | refines the PostFails step: backoff on 429 only, symbol queued again unless already there |
| `SnapshotRequests.Requester.Settle` | clients/neon-dashboard/src/App.jsx:1728-1732 | the finally block: the post is over and a nonempty queue arms the timer |
| `RequestOutcomes.RefusalHoldsBack` | clients/neon-dashboard/src/App.jsx:1684-1732 | after the n-th 429 answer since the last success, counted in the events, no post starts for min(300 s, 30 s * 2^n), whatever requests and other failures follow, unless a success comes first |
| `RequestOutcomes.AnswerPauses` | clients/neon-dashboard/src/App.jsx:1714-1721 | a 429 answer sets the pause, twice the last from 30 s up to 300 s, and its end; any other status leaves both as they were |
| `RequestOutcomes.EndHoldsBack` | clients/neon-dashboard/src/App.jsx:1684-1732 | after any post ends no other starts for ten seconds |
| `RequestOutcomes.SuccessServes` | clients/neon-dashboard/src/App.jsx:1706-1732 | a success leaves the queue alone and arms the timer for exactly ten seconds later when it is not empty |
| `RequestOutcomes.FailureServes` | clients/neon-dashboard/src/App.jsx:1714-1732 | a failure puts the symbol back unless it is queued, and arms the timer for the end of the pause after 429, else for the later of ten seconds and the pause still running |
| `RequestOutcomes.RequestOutcome` | clients/neon-dashboard/src/App.jsx:1737-1772 | a request has an effect exactly when the symbol is not empty and its last effective request, told from the events, is a minute or more ago: then the queue, its overflow and the timer are as stated |
| `RequestOutcomes.FirstRequest` | clients/neon-dashboard/src/App.jsx:1667-1772 | the first request may be posted at once |
| `RequestOutcomes.RefusalsCounted` | clients/neon-dashboard/src/App.jsx:1706-1721 | the state's count of refusals is the count of 429 answers in the events since the last success |
| `SignalMerge.StreamingExactly` | clients/neon-dashboard/src/App.jsx:124-154 | for any cap and finite set of keyed items: every sequence of batches of them streams to what one merge of all gives, if and only if the set holds no two different items of one key, the newer tying with another key's item, while more keys than the cap have an item that new |
| `SignalMerge.StreamingIsBatch` | clients/neon-dashboard/src/App.jsx:124-154 | under that condition on the items, from any initial state; two versions of one key at one timestamp are allowed |
| `SignalMerge.MergeAbsorbs` | clients/neon-dashboard/src/App.jsx:124-154 | merging into an already truncated list equals merging into everything it came from, under the same condition |
| `SignalMerge.TrapBreaks` | clients/neon-dashboard/src/App.jsx:124-154 | items that violate it make a batch sequence on which the two differ, with as many newer items as the cap needs |
| `SignalMerge.HarmlessTies` | clients/neon-dashboard/src/App.jsx:124-154 | the condition holds whenever items of different keys share no timestamp, and whenever the keys fit the cap |
| `SignalMerge.TiesBreakStreaming` | clients/neon-dashboard/src/App.jsx:137-153 | at every cap there is a batch sequence on which streaming and merging at once differ |
| `SignalMerge.MergeIsTop` | clients/neon-dashboard/src/App.jsx:146-154 | the merged list, on any items: exactly the winners of their keys with fewer than the cap of winners leading them, newest first and equally new ones by first appearance of their keys |
| `SignalMerge.MergeAgree` | clients/neon-dashboard/src/App.jsx:146-154 | two item lists merge alike when they break ties between common winners alike and whatever only one ranks is crowded out by cap many others |
| `SignalMerge.ArrivalOrderIrrelevant` | clients/neon-dashboard/src/App.jsx:124-154 | two batchings of the same items with distinct timestamps end in the same list |
| `SignalMerge.MergeSignalLists` | clients/neon-dashboard/src/App.jsx:124-154 | the Map loop computes the newest item per key in first-appearance order, stably sorted newest first and capped, with both statements on mergeKey and id below |
| `SignalMerge.MergedNewest` | clients/neon-dashboard/src/App.jsx:124-154 | of the merged list in terms of mergeKey and id: each item was sent and is filed under its mergeKey, or its id when it has none; it is as new as anything sent under that key; no two share a key; newest first |
| `SignalMerge.MergedFills` | clients/neon-dashboard/src/App.jsx:124-154 | short of the cap every key sent is represented; at the cap what is missing is no newer than all that is listed |
| `SignalMerge.CurrentWinsTies` | clients/neon-dashboard/src/App.jsx:124-147 | of equally new items of one key, one of the current list is kept if there is one |
| `SignalMerge.LastNewestListed` | clients/neon-dashboard/src/App.jsx:128-147 | what is listed is the last of the newest: everything sent after it under its key is older |
| `SignalMerge.TiesInOrder` | clients/neon-dashboard/src/App.jsx:128-154 | of equally new items listed, the key that was sent first comes first |
| `SignalMerge.KeyOrderCorrect` | clients/neon-dashboard/src/App.jsx:129-139 | the Map holds each nonempty key that occurs, once |
| `SignalMerge.WinnerCorrect` | clients/neon-dashboard/src/App.jsx:140-147 | an item is kept for a key exactly when the key occurs, and it is a newest one of it |
| `SignalMerge.WinnerIsLastNewest` | clients/neon-dashboard/src/App.jsx:143-147 | of equally new items the last one is kept |
| `StableSort.SortInOrder` | clients/neon-dashboard/src/App.jsx:150-152 | elements listed in a tie order stay in it among equal ranks |
| `StableSort.SortCorrect` | clients/neon-dashboard/src/App.jsx:150-152 | sorting orders by rank and keeps the order of equal ranks |
| `CatalogRotation.RoundHandsEverySymbol` | clients/neon-dashboard/src/App.jsx:1949-1975 | from any index every symbol is handed over within ceil(length / batch) ticks, across the wrap-around and for batches larger than the catalog |
| `CatalogRotation.BatchIsCyclicRun` | clients/neon-dashboard/src/App.jsx:1961-1966 | a batch is the cyclic run of the catalog from its start, cut short only when longer than the catalog allows |
| `CatalogRotation.StartAfter` | clients/neon-dashboard/src/App.jsx:1961-1970 | after t ticks the start is index + t * batch modulo the length |
| `CatalogRotation.CatalogSync.constructor` | clients/neon-dashboard/src/App.jsx:1949-1955 | the batch size is at least one |
| `CatalogRotation.CatalogSync.Tick` | clients/neon-dashboard/src/App.jsx:1957-1971 | hands over the specified nonempty batch and advances the index |
| `SnapshotStore.ApplyKeeps` | src/core/engine/unified-snapshot-manager.js:36-206 | create, read, update, quote, bars and clear each keep the store invariant: bounded size, exact version accounting, entries equal to their replayed writes, honest staleness marks |
| `SnapshotStore.ReachableInv` | src/core/engine/unified-snapshot-manager.js:36-206 | the invariant over every operation sequence with a nondecreasing clock; in particular the global version is the live versions plus those lost to eviction since the last clear |
| `SnapshotStore.WriteSurvives` | src/core/engine/unified-snapshot-manager.js:36-206 | after a create, update, quote or bars write the key is present, fresh and one version on; other entries are untouched but for one evicted entry, lost exactly when a new key meets a full store, which no survivor is older than |
| `SnapshotStore.CreateEvicts` | src/core/engine/unified-snapshot-manager.js:88-99 | a write evicts exactly when a new key arrives at a full store, then the oldest entry and never the new one |
| `SnapshotStore.CleanupIsEvict` | src/core/engine/unified-snapshot-manager.js:299-319 | one entry over the limit, sort-and-delete removes exactly the oldest entry |
| `SnapshotStore.SortedFrontIsOldest` | src/core/engine/unified-snapshot-manager.js:301-303 | the stable sort by update time brings the earliest-inserted of the least recently updated entries to the front |
| `SnapshotStore.ReadMarksExactlyStale` | src/core/engine/unified-snapshot-manager.js:112-129 | a read marks an entry stale exactly when its age exceeds the TTL and changes nothing else |
| `SnapshotStore.StalenessAgreesExactly` | src/core/engine/unified-snapshot-manager.js:112-129 | reads and the statistics agree on an entry's staleness at every age but the TTL itself |
| `SnapshotStore.StickyFields` | src/core/engine/unified-snapshot-manager.js:50-86 | in every reachable store each sticky field holds its last present write since the entry was created, and the version counts those writes |
| `SnapshotStore.ReplayIsLastWrite` | src/core/engine/unified-snapshot-manager.js:50-86 | replaying a write log leaves every field at its last written value or default |
| `SnapshotStore.SpreadSameEffect` | src/core/engine/unified-snapshot-manager.js:134-156 | spreading the existing snapshot under the updates writes what the updates alone write |
| `SnapshotStore.QuoteAndBarsCommute` | src/core/engine/unified-snapshot-manager.js:161-206 | at one clock value a quote and a bars update of one key commute completely: entries, order, versions, metadata and eviction, for old and new keys |
| `SnapshotStore.StatisticsPartition` | src/core/engine/unified-snapshot-manager.js:348-365 | ready and pending, and the two freshness counts, each partition the entries |
| `SnapshotStore.SnapshotManager.constructor` | src/core/engine/unified-snapshot-manager.js:10-31 | an empty store at version 0 |
| `SnapshotStore.SnapshotManager.SetSnapshot` | src/core/engine/unified-snapshot-manager.js:38-94 | the entry, insertion order and global version before cleanup |
| `SnapshotStore.SnapshotManager.CreateSnapshot` | src/core/engine/unified-snapshot-manager.js:36-107 | the whole new state and the returned snapshot |
| `SnapshotStore.SnapshotManager.DeleteSnapshot` | src/core/engine/unified-snapshot-manager.js:310 | removing one entry from the Map |
| `SnapshotStore.SnapshotManager.CleanupOldSnapshots` | src/core/engine/unified-snapshot-manager.js:299-319 | the loop deletes exactly the first entries of the sorted list down to the limit |
| `SnapshotStore.SnapshotManager.GetSnapshot` | src/core/engine/unified-snapshot-manager.js:112-129 | refines the read |
| `SnapshotStore.SnapshotManager.UpdateSnapshot` | src/core/engine/unified-snapshot-manager.js:134-156 | refines the update; the result is fresh |
| `SnapshotStore.SnapshotManager.UpdateQuoteData` | src/core/engine/unified-snapshot-manager.js:161-182 | refines the quote update |
| `SnapshotStore.SnapshotManager.UpdateBarsData` | src/core/engine/unified-snapshot-manager.js:187-206 | refines the bars update, including the mark its read may set |
| `SnapshotStore.SnapshotManager.Clear` | src/core/engine/unified-snapshot-manager.js:370-375 | an empty store at version 0 |
| `SnapshotWrites.QuoteStored` | src/core/engine/unified-snapshot-manager.js:161-182 | after a quote update the entry's quote has the body, timestamp and source sent, and as receivedAt the one sent, else the timestamp, else now; lastQuoteAt and lastQuoteSource say the same; bars and every other field are as before |
| `SnapshotWrites.NoQuoteStored` | src/core/engine/unified-snapshot-manager.js:161-182 | without a quote the one before stays |
| `SnapshotWrites.BarsStored` | src/core/engine/unified-snapshot-manager.js:187-206 | after a bars update the timeframe holds the bars sent, every other timeframe and field is as before, and the metadata tells when and which |
| `SnapshotWrites.DataStored` | src/core/engine/unified-snapshot-manager.js:36-86 | a create or update takes each field sent and keeps every other |
| `SnapshotWrites.VersionCounts` | src/core/engine/unified-snapshot-manager.js:36-107 | every write raises its entry's version by one and stamps it |
| `SnapshotWrites.CreationKept` | src/core/engine/unified-snapshot-manager.js:50-58 | an entry keeps its creation time through its writes |
| `SnapshotWrites.LogIsWhatWasSent` | src/core/engine/unified-snapshot-manager.js:36-206 | in every run the log the sticky fields are read from is the last operations that wrote the key, as many as its version, each carrying what it was sent |
| `SnapshotWrites.ClearAndRead` | src/core/engine/unified-snapshot-manager.js:112-129 | a read changes nothing but the stale mark of an entry older than the TTL; clearing empties the store and restarts the version |
| `SnapshotWrites.StatisticsCount` | src/core/engine/unified-snapshot-manager.js:348-365 | the statistics count the entries with a valid signal and a passed final validation, and those younger than the TTL |
| `Backtester.FindEntryIndex` | src/core/backtesting/vectorized-backtester.js:5-28 | the binary search loop computes the recursive search with its offset |
| `Backtester.SearchIsScan` | src/core/backtesting/vectorized-backtester.js:9-21 | on ordered timestamps the search equals the linear scan for the first bar at or after the target |
| `Backtester.EntryIsFirstAtOrAfter` | src/core/backtesting/vectorized-backtester.js:5-28 | so the entry is that bar plus the offset, or none |
| `Backtester.EvaluateTrade` | src/core/backtesting/vectorized-backtester.js:84-154 | the exit loop with its early break computes the specified trade, `exitIndex` being the horizon bar |
| `Backtester.Run` | src/core/backtesting/vectorized-backtester.js:168-259 | trades, equity curve and metrics of a run, signal by signal |
| `BacktestProperties.NoLookAhead` | src/core/backtesting/vectorized-backtester.js:84-236 | two histories in time order that agree up to a signal's horizon give that signal the same trade, entry search included |
| `BacktestProperties.TradeIgnoresTheFuture` | src/core/backtesting/vectorized-backtester.js:84-154 | a trade is unchanged by any edit after the bar that decides its exit, as long as the horizon bar is the same |
| `BacktestProperties.ExitSeesPrefix` | src/core/backtesting/vectorized-backtester.js:106-122 | the exit scan reads no bar after the one that decides it |
| `BacktestProperties.PayoffBounded` | src/core/backtesting/vectorized-backtester.js:46-126 | over well-formed bars and nonnegative limits unrounded gross pips stay in [-stopLoss, takeProfit], both sides |
| `BacktestProperties.TradePayoff` | src/core/backtesting/vectorized-backtester.js:84-154 | so a trade's reported gross pips stay within its order's limits, rounded as the report is |
| `BacktestProperties.RunPayoff` | src/core/backtesting/vectorized-backtester.js:168-259 | every trade of a run stays within the limits of its own signal or the engine's defaults |
| `BacktestProperties.MirrorTrade` | src/core/backtesting/vectorized-backtester.js:84-154 | the mirrored order on mirrored bars trades alike: same bars, reason and reported gross pips |
| `BacktestProperties.MirrorRun` | src/core/backtesting/vectorized-backtester.js:168-259 | a whole run on mirrored prices and swapped signals makes the same trades, pip for pip before costs |
| `BacktestProperties.TradeNet` | src/core/backtesting/vectorized-backtester.js:124-137 | a trade's reported net pips are unrounded gross pips less the unit-free cost, within half a thousandth plus 0.5e-8 over the pip value |
| `BacktestProperties.MirrorPreservesPips` | src/core/backtesting/vectorized-backtester.js:46-126 | reflecting all prices about a constant and swapping sides reflects the exit and keeps its reason and gross pips |
| `BacktestProperties.EquityIsCumulativeSum` | src/core/backtesting/vectorized-backtester.js:233-235 | rounding each point of the curve loses nothing: it is the plain cumulative sum of the trades' returns |
| `BacktestProperties.ExactCostPips` | src/core/backtesting/transaction-cost-model.js:33-57 | before rounding the total cost is (spread + slippage + commission * entry / (lotSize * pip)) pips, free of the units |
| `BacktestProperties.CostPipsWithinRounding` | src/core/backtesting/transaction-cost-model.js:33-57 | the cost in pips the backtester subtracts differs from that by at most 0.5e-8 over the pip value |
| `TradeMeaning.TradeEnters` | src/core/backtesting/vectorized-backtester.js:30-44 | an order trades exactly when its entry bar is there and has an open, close or price, in that order its entry; the trade reports side, entry, horizon, units and hold |
| `TradeMeaning.BarMeaning` | src/core/backtesting/vectorized-backtester.js:46-82 | a bar exits at the take-profit it touches, else at the stop it touches, else at its own price |
| `TradeMeaning.TimeoutTrade` | src/core/backtesting/vectorized-backtester.js:84-126 | untouched to its horizon a trade times out there at the bar's rounded open, else close, else price, else at the entry, with the gross pips of that price |
| `TradeMeaning.TouchedTrade` | src/core/backtesting/vectorized-backtester.js:84-126 | the first bar that touches a limit decides, take-profit first: the trade reports the rounded take-profit or the rounded negative stop, and the price that many pips off |
| `TradeMeaning.TradeAccounts` | src/core/backtesting/vectorized-backtester.js:124-137 | net pips are gross pips less spread, slippage and commission in pips, within the roundings stated |
| `TradeMeaning.TradeReturn` | src/core/backtesting/vectorized-backtester.js:137-150 | the return is the net pips in price over the entry, within the roundings stated |
| `TradeMeaning.TradeWithoutCosts` | src/core/backtesting/vectorized-backtester.js:124-150 | without units there are no costs, net pips and return |
| `TradeMeaning.SignalMeaning` | src/core/backtesting/vectorized-backtester.js:194-231 | a signal places an order of its own hold, limits and units, or the engine's, at the first bar at or after its time plus the offset |
| `TradeMeaning.SignalWithoutBar` | src/core/backtesting/vectorized-backtester.js:194-215 | a signal without a time or a bar for it makes no trade |
| `TradeMeaning.RunMakesAll` | src/core/backtesting/vectorized-backtester.js:194-236 | the trades of a run are those of its signals in order, none left out |
| `TradeMeaning.RunReports` | src/core/backtesting/vectorized-backtester.js:233-245 | the curve sums the returns of the trades so far, and the metrics are of the trades' own figures |
| `LiveValidation.BuildSyntheticSignals` | src/core/backtesting/live-backtest-validator.js:78-104 | the stride loop emits a signal for every stride-th bar with a timestamp |
| `LiveValidation.EntersNextBar` | src/core/backtesting/vectorized-backtester.js:5-28 | with increasing timestamps a bar's own timestamp enters at the next bar, or nowhere from the last |
| `LiveValidation.SyntheticSignalsEnterNextBar` | src/core/backtesting/live-backtest-validator.js:88-101 | the signal made from bar i trades at bar i + 1 |
| `LiveValidation.SyntheticRunEntries` | src/core/backtesting/live-backtest-validator.js:141-151 | every trade of a whole synthetic run was entered one bar after a stride bar |
| `LiveValidation.SignalsExactly` | src/core/backtesting/live-backtest-validator.js:78-104 | the signals are exactly those of the stride bars with a nonzero timestamp, one a bar in order, with the plan's direction, hold and limits |
| `WalkForward.HaltsExactly` | src/core/backtesting/walk-forward-validator.js:9-17 | the splitting loop ends if and only if there are no bars, at least ten bars, or an explicit size; with one to nine bars and no options it never ends |
| `WalkForward.SplitIntoWalkForwardWindows` | src/core/backtesting/walk-forward-validator.js:4-33 | the loop yields floor((n - w) / s) + 1 windows, each the specified slice |
| `WalkForward.ContinuesExactly` | src/core/backtesting/walk-forward-validator.js:17 | the guard holds for exactly that many iterations |
| `WalkForward.WindowShape` | src/core/backtesting/walk-forward-validator.js:17-30 | windows have exactly w bars, start a step apart, and leave fewer than a step of bars uncovered |
| `WalkForward.NoGaps` | src/core/backtesting/walk-forward-validator.js:9-30 | when the step does not exceed the window every bar before the last window's end is covered |
| `WalkForward.GapsExactly` | src/core/backtesting/walk-forward-validator.js:9-30 | with two windows or more that coverage holds if and only if the step does not exceed the window |
| `WalkForward.RunWalkForwardValidation` | src/core/backtesting/walk-forward-validator.js:35-97 | each window runs through the backtester on its own bars and signals, and the aggregate is over the in-order concatenation |
| `WalkForward.TradesStayInside` | src/core/backtesting/walk-forward-validator.js:50-73 | every trade of a window enters inside it, no earlier than its signal, which lies inside too |
| `WalkForward.WindowsExactly` | src/core/backtesting/walk-forward-validator.js:4-33 | window k is there exactly when k steps and a window fit, and is the bars from there on, stamped with its first and last bar; the sizes are a fifth of the bars and half a window, or as given and at least 10 and 5 |
| `WalkForward.WindowSignalsExactly` | src/core/backtesting/walk-forward-validator.js:50-73 | a window is given exactly the signals stamped from its first to its last bar, both included |
| `WalkForward.ConcatenatedInOrder` | src/core/backtesting/walk-forward-validator.js:75-97 | the aggregate lists the trades of all windows in the windows' order |
| `MathHelpers.DrawdownCorrect` | src/core/backtesting/math-helpers.js:35-63 | the one pass is the least of 0 and every fall below a positive running peak, on any curve, though it evaluates only new troughs |
| `MathHelpers.DrawdownIsWorstPair` | src/core/backtesting/math-helpers.js:35-63 | on positive curves it is the worst relative change from any value to a later one, and above -1 |
| `MathHelpers.MaxDrawdown` | src/core/backtesting/math-helpers.js:35-63 | the loop computes that drawdown with its peak and trough |
| `MathHelpers.CumulativeSum` | src/core/backtesting/math-helpers.js:25-33 | entry k is the sum of the first k + 1 values |
| `MathHelpers.PercentileMonotone` | src/core/backtesting/math-helpers.js:85-95 | a percentile is one of the values and a higher rank never gives a smaller one |
| `MathHelpers.PercentileSplits` | src/core/backtesting/math-helpers.js:85-95 | at most the given share of the values lies below the percentile and more than that share at or below it |
| `JsNumbers.ToFixedError` | src/core/backtesting/utils.js:1-7 | rounding moves a value by at most half a unit of the last place and lands on the grid |
| `JsNumbers.ToFixedMonotone` | src/core/backtesting/utils.js:1-7 | rounding keeps order |
| `JsNumbers.ToFixedIdempotent` | src/core/backtesting/utils.js:1-7 | rounding fixes exactly the grid values |
| `JsNumbers.ToFixedExactly` | src/core/backtesting/utils.js:1-7 | a value is rounded to a grid point exactly from half a unit below it to less than half a unit above it |
| `JsNumbers.GridClosed` | src/core/backtesting/utils.js:1-7 | sums of grid values stay on the grid |
| `PerformanceSummary.FilterPartition` | src/core/backtesting/performance-metrics.js:31-32 | winners and losers partition the trades as multisets |
| `PerformanceSummary.NetIsWinsMinusLosses` | src/core/backtesting/performance-metrics.js:26-42 | total net pips are total wins minus total losses |
| `PerformanceSummary.ProfitFactorSign` | src/core/backtesting/performance-metrics.js:39-41 | with losses present the profit factor exceeds 1 exactly when the net is positive; without, it is the net |
| `PerformanceSummary.ExpectancyForm` | src/core/backtesting/performance-metrics.js:37 | a losing average is its own expectancy; a winning one is scaled by 2 * winRate - 1 |
| `PerformanceSummary.WinRateRange` | src/core/backtesting/performance-metrics.js:34 | the win rate is a proportion |
| `PerformanceSummary.ReportedNet` | src/core/backtesting/performance-metrics.js:49 | the reported net pips are within half a hundredth of wins minus losses |
| `PerformanceSummary.ReportedPips` | src/core/backtesting/performance-metrics.js:26-49 | trade count, share of winners, gross and net pips of the summary are those of the trades, within half the last digit |
| `PerformanceSummary.ReportedFactor` | src/core/backtesting/performance-metrics.js:39-53 | the profit factor is what was won over what was lost, or what was won when nothing was lost |
| `PerformanceSummary.ReportedReturn` | src/core/backtesting/performance-metrics.js:28-55 | mean return and expectancy in percent, by the share of trades with positive net |
| `PerformanceSummary.ReportedDrawdown` | src/core/backtesting/performance-metrics.js:29-54 | the drawdown in percent of the running total of the returns |
| `MonteCarlo.SafeSeedExactly` | src/core/backtesting/monte-carlo-simulator.js:4-13 | a seed draws valid indices forever if and only if its truncated remainder is not -2147483646 |
| `MonteCarlo.StepInRange` | src/core/backtesting/monte-carlo-simulator.js:9-12 | a step keeps 1..2147483646, is undone by multiplying with 1407677000, and its product stays below 2^53 |
| `MonteCarlo.StepIsOnto` | src/core/backtesting/monte-carlo-simulator.js:9-12 | every state of the range has a predecessor in it |
| `MonteCarlo.StatesInRange` | src/core/backtesting/monte-carlo-simulator.js:4-13 | a safe seed keeps the state in range for every number of draws |
| `MonteCarlo.UnsafeSeedSticks` | src/core/backtesting/monte-carlo-simulator.js:4-13 | any other seed leaves the state at 0 forever |
| `MonteCarlo.IndexInRange` | src/core/backtesting/monte-carlo-simulator.js:40 | the sampled index is a valid one |
| `MonteCarlo.Random.constructor` | src/core/backtesting/monte-carlo-simulator.js:4-8 | the initial state of the closure |
| `MonteCarlo.Random.Next` | src/core/backtesting/monte-carlo-simulator.js:9-12 | one draw advances the state and returns the scaled value |
| `MonteCarlo.SimulateRun` | src/core/backtesting/monte-carlo-simulator.js:38-42 | the inner loop sums the drawn returns |
| `MonteCarlo.RunMonteCarloSimulations` | src/core/backtesting/monte-carlo-simulator.js:15-55 | the report over all runs, the generator continuing from run to run, and the empty report without trades |
| `MonteCarlo.ReportOrdered` | src/core/backtesting/monte-carlo-simulator.js:46-54 | after rounding, worst <= 5th percentile <= 95th percentile <= best, with the mean between the ends |
| `MonteCarlo.RunsBounded` | src/core/backtesting/monte-carlo-simulator.js:37-44 | each run lies between the sample size times the least and the greatest return |
| `MonteCarlo.ReportBounded` | src/core/backtesting/monte-carlo-simulator.js:37-54 | so do the reported extremes |
| `MonteCarlo.StateClosed` | src/core/backtesting/monte-carlo-simulator.js:4-12 | the state after n draws is the initial state times 16807^n modulo 2147483647 |
| `MonteCarlo.StartsAt` | src/core/backtesting/monte-carlo-simulator.js:5-8 | which initial state each seed gives |
| `MonteCarlo.SampleAt` | src/core/backtesting/monte-carlo-simulator.js:38-42 | the j-th pick of a sample is the return at the floor of the scaled draw first + j + 1 |
| `MonteCarlo.RunsContinue` | src/core/backtesting/monte-carlo-simulator.js:37-44 | run i sums the picks of draws i * size + 1 to (i + 1) * size |
| `MonteCarlo.ReportMeaning` | src/core/backtesting/monte-carlo-simulator.js:46-54 | the report gives, in percent to half the last digit, the mean, a worst and a best run, and runs that split off 5 and 95 percent |
| `Indicators.CalculateEMAValue` | src/core/analyzers/technical-analyzer.js:2164-2177 | the loop computes the recursive average seeded with the first period's mean, 0 when there are too few closes |
| `Indicators.EmaBounded` | src/core/analyzers/technical-analyzer.js:2164-2177 | an average never leaves the range of its prices |
| `Indicators.EmaClosed` | src/core/analyzers/technical-analyzer.js:2164-2177 | the average in closed form: the first period's mean faded by (1 - a)^m plus each later price weighted a * (1 - a)^age, a = 2 / (period + 1) |
| `Indicators.WarmUpFast` | src/core/analyzers/technical-analyzer.js:1801-1805 | the fast average brought up to the slow period's length |
| `Indicators.CalculateMACDSeries` | src/core/analyzers/technical-analyzer.js:1790-1834 | each point of the series, its signal and histogram |
| `Indicators.MacdIsBatch` | src/core/analyzers/technical-analyzer.js:1790-1834 | for fast <= slow each series value is the fast minus the slow batch average of the prefix ending at its bar |
| `Indicators.MacdMatchesExactly` | src/core/analyzers/technical-analyzer.js:1790-1834 | that agreement holds on every price history if and only if fast <= slow |
| `Indicators.LongFastPeriodDiffers` | src/core/analyzers/technical-analyzer.js:1801-1805 | for any longer fast period a price history on which the first value differs |
| `Indicators.PointMeaning` | src/core/analyzers/technical-analyzer.js:1806-1834 | from its period on a point has the closed-form average of the MACD values as its signal and the distance to it as its histogram |
| `Rsi.Seed` | src/core/analyzers/technical-analyzer.js:595-608 | the first loop averages the gains and losses of the first period changes |
| `Rsi.CalculateRSI` | src/core/analyzers/technical-analyzer.js:590-627 | the batch index, with the not-a-number result of a flat history |
| `Rsi.CalculateRSISeries` | src/core/analyzers/technical-analyzer.js:1739-1788 | each value of the series |
| `Rsi.SeriesIsBatch` | src/core/analyzers/technical-analyzer.js:1739-1788 | the series value at bar i is the batch index of the prefix if and only if the prices are not flat: some close up to i differs from the one before, or with period 1 the last two differ; on flat prices the batch is not a number and the series says 50 |
| `Rsi.WilderFlat` | src/core/analyzers/technical-analyzer.js:1739-1788 | the averages at bar i are both zero exactly on flat prices |
| `Rsi.SeriesInRange` | src/core/analyzers/technical-analyzer.js:1760-1772 | every value lies in 0..100 |
| `Rsi.MirrorAddsTo100` | src/core/analyzers/technical-analyzer.js:1739-1788 | an upside-down price history has the complementary index |
| `Rsi.WilderClosed` | src/core/analyzers/technical-analyzer.js:1739-1788 | both averages in closed form: the mean of the first moves faded by (1 - 1/period)^m plus each later move weighted 1/period |
| `Rsi.IndexIsShare` | src/core/analyzers/technical-analyzer.js:1760-1772 | the index is the average gain as a percentage of average gain plus loss |
| `VolatilityClusters.BuildClusters` | src/core/analyzers/technical-analyzer.js:1502-1531 | the loop yields a segmentation of the tagged returns into adjoining runs with exact running means |
| `VolatilityClusters.AnalyzeVolatility` | src/core/analyzers/technical-analyzer.js:1473-1536 | unknown below 15 candles; otherwise the segmentation of the last 60 with thresholds 1.8 and 0.7 of the mean, the state being the last cluster's |
| `VolatilityClusters.ClustersAdjoin` | src/core/analyzers/technical-analyzer.js:1511-1527 | each cluster ends where the next starts and differs from it in state |
| `VolatilityClusters.WeightedMeanIsMeanAbs` | src/core/analyzers/technical-analyzer.js:1492-1527 | the count-weighted mean of the running averages is the mean absolute return |
| `VolatilityClusters.SegmentsUnique` | src/core/analyzers/technical-analyzer.js:1502-1531 | the tagged returns have exactly one such segmentation, the maximal runs |
| `VolatilityClusters.ClusterMoves` | src/core/analyzers/technical-analyzer.js:1482-1531 | each relative move of a cluster is above the high threshold when it is volatile, below the low one when it is calm, and from low to high otherwise |
| `VolatilityClusters.ClusterFigures` | src/core/analyzers/technical-analyzer.js:1511-1531 | each cluster starts at the time of the candle before its first move and ends at that of its last; its count times its average is the sum of its relative moves |
| `VolatilityClusters.MeanAbsIsMeanMove` | src/core/analyzers/technical-analyzer.js:1482-1500 | the mean the thresholds are taken from is the mean relative move |
| `Regression.LinearRegression` | src/core/analyzers/technical-analyzer.js:1872-1910 | the two loops compute the centred fit, all zero for mismatched or empty input |
| `Regression.LeastSquares` | src/core/analyzers/technical-analyzer.js:1872-1910 | no line has a smaller residual sum, even when all x coincide |
| `Regression.RSquaredInRange` | src/core/analyzers/technical-analyzer.js:1907 | R squared is in 0..1 |
| `Regression.RSquaredIsShare` | src/core/analyzers/technical-analyzer.js:1895-1907 | R squared times the variation of y is the variation of the fitted line about the mean |
| `Regression.PerfectFitExactly` | src/core/analyzers/technical-analyzer.js:1895-1907 | it is 1 exactly when the points lie on one line and are not all level |
| `Regression.DegenerateFit` | src/core/analyzers/technical-analyzer.js:1885-1907 | points above one another are fitted by the level line through their mean, and level points have R squared 0 |
| `Regression.RawSums` | src/core/analyzers/candle-analysis-lite.js:102-111 | the first loop: the sums of the points |
| `Regression.RawSquares` | src/core/analyzers/candle-analysis-lite.js:122-129 | the second loop: squares about the mean and about the line |
| `Regression.ComputeRegression` | src/core/analyzers/candle-analysis-lite.js:92-133 | the raw-sums fit over 0..m-1 is the centred fit of the last maxPoints values, slope and R squared; none below eight values or two points |
| `Regression.RawSlopeIsCentred` | src/core/analyzers/candle-analysis-lite.js:102-118 | the raw-sums slope equals the centred slope |
| `Regression.DenominatorSign` | src/core/analyzers/candle-analysis-lite.js:113-116 | the denominator is positive exactly from two points on, and zero below |
| `Regression.ClampChangesNothing` | src/core/analyzers/candle-analysis-lite.js:131 | clamping R squared to 0..1 never changes it |

## Left out

- WalkForward.SplitIntoWalkForwardWindows: requires `Halts`, because the program's loop does not end otherwise; `HaltsExactly` shows that nothing terminating is excluded. The same holds for RunWalkForwardValidation.
- MonteCarlo.RunMonteCarloSimulations: requires a safe seed when there are trades, because the program reads an undefined array element otherwise; `SafeSeedExactly` gives both directions. Seeds, iteration counts and sample sizes are integers.
- SignalMerge.MergeSignalLists: the sort timestamp is an input already resolved to a number, `maxItems` is an integer, and the cap constant is its default 200; the streaming results hold for every cap.
- CatalogRotation.CatalogSync.Tick: the connection check and the interval that calls the tick are not modelled.
- SnapshotRequests.Requester.RequestSnapshotForSymbol: one connected period with symbols already normalised; closure recapture on reconnect and the active-symbol hint are not modelled.
- SnapshotStore.SnapshotManager.CreateSnapshot: keys are already normalised; broker, symbol and `source` fields, listeners and logging are left out, and fields the store only passes along are opaque tokens.
- SnapshotStore.SnapshotManager.GetSnapshot: snapshots are values, so a caller that keeps a returned reference and later sees its stale mark change is not captured.
- SnapshotStore.SnapshotManager.constructor: the limit and the TTL are given after their defaults are applied; the limit is a positive integer and the TTL not negative.
- SnapshotStore.StatisticsPartition: listener count and the filtered listings of snapshots are left out.
- Backtester.EvaluateTrade: the itemised costs of a trade, pair strings (a yen flag stands for them) and bars that are not objects are left out.
- Backtester.Run: date parsing, bars without a timestamp and the `meta` block are left out.
- LiveValidation.BuildSyntheticSignals: price fetching and the thresholds that judge the run's metrics are left out.
- PerformanceSummary.ReportedNet: standard deviation and Sharpe ratio of the summary are left out, as irrational.
- Indicators.CalculateMACDSeries: values are before display rounding to six places; bar times are left out. The signal line of the batch MACD is fed a constant series and is not claimed to match.
- Rsi.CalculateRSI: the overbought and trend labels are left out, and series values are before rounding to two places.
- VolatilityClusters.AnalyzeVolatility: standard deviation, ATR, price range and the volatility score are left out, and figures are before display rounding.
- Regression.ComputeRegression: closes that are not finite numbers are taken as already filtered out.
- LayerGates.WeighTimeframes: the trend of each timeframe is an input; how moving averages of its bars determine it is not modelled. The pivot levels, indicators and averages of layers 5 to 7 are inputs too.
- LayerMeaning.ReadyExactlyWhenTradable: requires that when there are indicators or averages there are all of them, as five H1 bars give; `LayerReadiness.ReadyExactlyWhenCleared` is without it.
- LayerScores.ReadyReport: under the same condition.
- RequestOutcomes.SuccessServes: requires a clock that counts from the epoch, so not negative; the backoff end is reset to 0.
- LayerReadiness.ReadyExactlyWhenCleared: confidences, reasons, timings and the metrics of layers 18 to 20, which no gate reads back, are left out; a JavaScript null among the spread fields is taken as missing; layers 8, 9, 10, 13, 14 and 15 are the constants the program has; layer 20 always passes with an arbitrary score.
- LayerPipeline.Orchestrator.ProcessSignal: an uninterrupted run; interleaving is covered by the step machine of `MetricsStayExact`.
- Floating point: IEEE rounding is left out throughout, except that the generator's integers are shown to be exact.
- The server, routes, middleware, database, brokers, React rendering, WebSocket handling, news and economic analysis, layered presentation, pair catalogue and market-hours rules are outside this model.
