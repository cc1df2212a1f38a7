# Verified model of botnet-council

This project models, in Dafny, the parts of the repository that keep state or do arithmetic across
several functions, and proves what they promise over every input, every run and every reachable state.
Check it with `dafny verify dfyconfig.toml`.

## What is modelled

* **The telemetry stream.** The event bus numbers, remembers and hands out events (`EventBus`); a bounded
  queue stands between it and each socket (`EventSocket`); the browser buffers, bootstraps and applies
  (`LiveState`), guarded by a request gate (`RequestGate`). `StreamProtocol` puts them together as one
  state machine whose network loses, repeats and reorders, whose sockets lag and drop, and whose server
  restarts. `DashboardViews` holds the server's batch views and the browser's incremental ones, and
  `ViewAgreement` relates them.
* **The backtest.** Records and tolerances (`Trading`), the council (`Council`), the risk governor
  (`Governor`), the paper broker (`Paper`), round-trip profit and loss (`Outcomes`), and the replay engine
  (`Engine`). Across them: from approval to fill to reconciliation (`OrderFlow`), openings away from the
  reference price (`OpeningGaps`), liquidation (`Liquidation`), inputs at which these theorems' exceptions
  occur (`OrderLimits`), no look-ahead (`EngineCausality`), scheduling and unreachable errors
  (`EngineSchedule`), the measures after the loop (`EngineSummary`), replays that fail (`EngineFailures`),
  replays without shorting (`EngineLongOnly`), the fate of every order and the books (`EngineLedger`), and
  the market mark (`EngineMarks`).
* **Market data.** Candle quality and coverage (`Quality`), the immutable cache and the complement of what
  it holds (`Cache`), and the caching provider against the provider it speeds up (`CachedProvider`).
* **Learning.** Drawdown (`Drawdown`), scoped weights and their changes (`Profiles`), generations with
  crashes between writes (`WeightStore`), independent trials (`Experience`), bounded moves (`Librarian`),
  and held-out evaluation (`Teacher`).
* **Experiments.** The lifecycle table, the repository and the service (`Experiments`), and everything that
  can happen to an experiment over all runs and crashes (`ExperimentRuns`), with what is told of its outcome
  (`ExperimentOracle`).

`Sequences` holds shared vocabulary: bounded suffixes, filters, stable sorting, and the uniqueness of
strictly sorted sequences.

## How it is modelled

* Code that changes state is a class or a method with loops, proved against a function of its old state;
  the theorems are about that function. Code made of expressions is functions.
* Prices, quantities, cash and weights are `real`; the tolerances 1e-12 and 1e-9 are constants, because the
  branches depend on them. The source's test for a positive product of two reals is `SameSign`, and
  `SameSignIsPositiveProduct` shows they are the same.
* Times are integer ticks. Texts that are only compared are integers in the order of the texts; in
  `Profiles` zero is the empty text. Hashed identities are the hashed values themselves.
* Errors the source raises are values: `None`, `Raised`, `Refused`, `Bad`. Their wording is not modelled.
* Agents are arbitrary functions of a snapshot, realized volatility and the standard deviation are
  arbitrary functions, a provider's clock is an arbitrary function of the number of the call, and the
  answers an experiment gets from outside are arbitrary.

## Where a promise needs a condition

* A history never holds an event id twice exactly when its limit is at most the dedup limit plus one
  (`HistoryHoldsIdsOnce`, `LongerHistoryCanRepeat`).
* The incremental view equals the batch view at all later points exactly when no later event completes a
  run that has failed, or brings a run's first symbol or timeframe as an empty text
  (`IncrementalViewIsBatchView`; `FailedRunsDiffer` and `UnnamedRunsDiffer` show such logs). The risk panel
  agrees exactly when every veto since the bootstrap repeats the risk decision before it, because the browser
  also takes the panel from veto events and the server does not (`RiskPanelAgrees`, `RiskPanelCanDiffer`).
* An approved order filled at its reference price is compliant unless it is an order of at most 1e-12 out of
  a flat account that spends the last of the cash (`ApprovedFillReconciles`, `LastCashOnDust`), if its account
  was marked at the snapshot's last price. Whatever it was marked at, `OpeningDecides` gives the exact outcome
  at every opening: a fill is compliant exactly when the order fits there, and `FitsAtTheOpening` is computed
  from the account, the order and the opening. Marked at the last price, a buy out of a flat or long account
  fits at every cheaper opening; marked elsewhere, it does below any opening it fits at, but need not fit at
  or just below its reference price (`CheaperBuyReconciles`, `CheaperFits`, `LowMarkCanFail`). A short sale
  can fail at a better price in either case (`BetterShortCanFail`).
* A backtest over complete, aligned history finishes exactly when it reaches no event at which the queued order
  passes the broker's gates without fitting, some bar is available by the end, and no measured equity is
  negative (`BacktestFinishes`). Each of the three fails somewhere (`BetterFillStopsRun`, `UnpublishedHistoryStops`, `SqueezeBreaksMeasures`); the last only with
  shorting (`LongOnlyFinishes`).
* Liquidation never closes a nonzero position within the notional tolerance (`LiquidationTerminates`,
  `DustIsNeverClosed`).
* Account and round trips part exactly at a fill out of a flat position of at most 1e-12 (`QuantitiesAgree`,
  `DustOpeningParts`), and the profit identity drifts exactly by snapped remainders (`ProfitIsConserved`).
* A queued order need not be executed: a newer one replaces it when two decisions fall between two openings
  (`EveryOrderHasAFate`).
* The caching provider answers exactly what its provider answers completely, unless the request, or a part it
  would have to fetch, was stored under an older version: the cache ignores that artifact when it loads and
  refuses to overwrite it when it stores (`CachedHistoricalProvider.FetchHistorical`).
* The ranges the cache reports available are apart exactly when no two cached candles overlap; requests off the
  grid can cache such candles (`MarketDataCache.InspectAvailability`).
* Coverage counts one interval too many when the last bar closes after the end of an unaligned request
  (`CoverageAddsUp`, `UnalignedWindowMiscounts`). Complete coverage alone does not fix the grid; with one bar on it, it does
  (`CompleteTiles`).
* Resolution of weights is independent of the order of the entries exactly when at most one of a context's
  asset class, symbol and regime is the empty text (`OrderMattersExactly`).
* A finished experiment is never left, and no history rewritten, exactly as long as no run starts beside
  another run of the same experiment and no creation saves over a record that has moved on since it looked
  (`LawfulExactly`). The repository itself prevents neither (`TwoRunsReopen`, `LateCreationReopens`).

## Model

| member | source | states |
|---|---|---|
| `EventBus.InMemoryEventBus.Publish` | src/botnet_council/telemetry/publisher.py:87-108 | A new id is numbered next, appended to a history cut to its last entries, remembered in an id window cut to its last entries, and handed once, in order, to every matching subscriber; a remembered id changes nothing. |
| `EventBus.InMemoryEventBus.EvictIds` | src/botnet_council/telemetry/publisher.py:99-101 | Oldest ids are dropped one by one until exactly the last ones that fit remain. |
| `EventBus.InMemoryEventBus.Number` | src/botnet_council/telemetry/publisher.py:92-102 | Under the state lock: the next number, the event stamped with it and with the stream, history and id window brought up to date; nobody is called. |
| `EventBus.InMemoryEventBus.Dispatch` | src/botnet_council/telemetry/publisher.py:102-108 | Each subscriber captured at publication gets the event if and only if its filter matches; nobody else changes. |
| `EventBus.InMemoryEventBus.Subscribe` | src/botnet_council/telemetry/publisher.py:110-116 | Adds one subscriber that has received nothing, joined at the current number. |
| `EventBus.InMemoryEventBus.Unsubscribe` | src/botnet_council/telemetry/publisher.py:118-120 | Removes exactly that subscriber; unknown ids change nothing. |
| `EventBus.InMemoryEventBus.Snapshot` | src/botnet_council/telemetry/publisher.py:129-135 | Watermark and history are read from one state. |
| `EventBus.PublishKeepsInvariant` | src/botnet_council/telemetry/publisher.py:87-108 | Publishing keeps numbering gapless, equal ids further apart than the dedup window, and every subscriber at exactly the matching events since it joined. |
| `EventBus.EveryRunKeepsInvariant` | src/botnet_council/telemetry/publisher.py:87-135 | The same after every sequence of publish, subscribe and unsubscribe. |
| `EventBus.HistoryHoldsIdsOnce` | src/botnet_council/telemetry/publisher.py:72-80 | When the history is at most one longer than the dedup window, no run ever stores an id twice. |
| `EventBus.LongerHistoryCanRepeat` | src/botnet_council/telemetry/publisher.py:72-80 | Beyond that bound some run does store an id twice: the bound is exact. |
| `EventSocket.BoundedQueue.EnqueueOrLag` | src/botnet_council/api/app.py:1010-1016 | A full queue is emptied and holds only the lag marker; otherwise the event is appended. |
| `EventSocket.ConsumerStepKeepsInvariant` | src/botnet_council/api/app.py:759-787 | Any hand-over, put, send or disconnect keeps: sent plus waiting plus scheduled is what was handed in, unless the queue overflowed, and then the lag marker is next. |
| `EventSocket.SocketSendsAPrefix` | src/botnet_council/api/app.py:762-783 | For every interleaving, what the socket sends is a prefix of what its handler was called with, and nothing is lost without a lag marker. |
| `EventSocket.ClosedSocketIsSilent` | src/botnet_council/api/app.py:772-782 | After the lag marker or a disconnect nothing more is sent. |
| `RequestGate.RequestGate.Begin` | web/src/requestGate.ts:5-11 | A new request makes exactly itself current: every earlier generation stops being so. |
| `DashboardViews.ActiveRunIds` | src/botnet_council/api/app.py:908-919 | The loop yields, sorted, the runs started and not ended since. |
| `DashboardViews.GroupItems` | src/botnet_council/api/app.py:922-925 | Runs in order of first appearance, each with exactly its own events in order. |
| `DashboardViews.LatestSignals` | src/botnet_council/api/app.py:961-967 | The dictionary holds, for each agent that ever signalled, its last signal. |
| `DashboardViews.AgentValues` | src/botnet_council/api/app.py:961-975 | The agent table in agent order, one row for each agent with a signal. |
| `ViewAgreement.SummarySnoc` | web/src/liveState.ts:95-105 | One event updates a run summary to the server's summary of the longer list if and only if it is not a completion after a failure and brings no first empty symbol or timeframe. |
| `ViewAgreement.RunsStep` | web/src/liveState.ts:95-108 | The browser's re-sorted run list, ties included, is the server's sorted list after one more event, exactly when the event does not diverge. |
| `ViewAgreement.AgentsStep` | web/src/liveState.ts:110-116 | The browser's agent list after one event is the server's over the longer log. |
| `ViewAgreement.StateStep` | web/src/liveState.ts:81-93 | The same for active runs, counts, latest portfolio and latest decision. |
| `ViewAgreement.ViewStep` | web/src/liveState.ts:81-116 | All three views stay equal after one event if and only if it does not diverge. |
| `ViewAgreement.IncrementalViewIsBatchView` | src/botnet_council/api/app.py:892-984 | From a bootstrap at any point, the incremental view equals the server's batch view at every later point exactly when no later event diverges. |
| `ViewAgreement.RiskPanelAgrees` | web/src/liveState.ts:90 | From a bootstrap at any point, the browser's risk panel shows the server's latest risk decision at every later point if and only if every later veto repeats the risk decision before it. |
| `ViewAgreement.WholeViewAgrees` | web/src/liveState.ts:81-116 | The whole view, nothing left out, equals the server's at every later point if and only if no later event diverges and every later veto repeats. |
| `ViewAgreement.FailedRunsDiffer` | web/src/liveState.ts:98 | A log with a completion after a failure, on which the two views differ. |
| `ViewAgreement.UnnamedRunsDiffer` | web/src/liveState.ts:95-105 | A log whose first symbol is the empty text, on which the two views differ. |
| `ViewAgreement.RiskPanelCanDiffer` | web/src/liveState.ts:90 | A log with a veto of another payload, on which the risk panels differ. |
| `LiveState.DedupeLoop` | web/src/liveState.ts:118-125 | The loop keeps, in sequence order, the first event of each stream, number and id. |
| `LiveState.ApplyBootstrapLoop` | web/src/liveState.ts:45-59 | The loop applies newer buffered events in order and stops at the first that leaves live status. |
| `LiveState.ReplayStopsAtFirstGap` | web/src/liveState.ts:54-57 | After a bootstrap the watermark has advanced exactly over the gapless run of buffered events, and status is live only if that was all of them. |
| `LiveState.BootstrapCatchesUp` | web/src/liveState.ts:45-59 | When the newer buffered events are exactly the next ones, a bootstrap ends live at the last of them with the buffer empty. |
| `LiveState.BootstrapIsCoherent` | web/src/liveState.ts:45-59 | A bootstrap leaves the browser with exactly the log of the reply's stream on an interval that ends at its watermark. |
| `LiveState.ApplyKeepsCoherence` | web/src/liveState.ts:61-75 | An event from the log, stale, next, ahead or foreign, keeps that. |
| `StreamProtocol.StepKeepsInvariant` | web/src/App.tsx:44-80 | Every step of bus, socket, network, gate and browser keeps the system invariant. |
| `StreamProtocol.BrowserHoldsAGapFreeInterval` | web/src/liveState.ts:39-75 | In every reachable state, whatever is lost, repeated, reordered, restarted or answered late, the browser's events are the log of its stream on a gap-free interval ending at its watermark. |
| `StreamProtocol.BrowserNeverGoesBack` | web/src/App.tsx:44-80 | Between any two moments of any run the browser's stream is not older, and on one stream its watermark does not decrease. |
| `StreamProtocol.SocketsFollowTheLog` | src/botnet_council/api/app.py:737-787 | In every run each socket has sent a prefix of the matching events published after its subscription. |
| `StreamProtocol.BrowserShowsServerView` | web/src/liveState.ts:45-93 | In every reachable state over undivided logs the browser shows the server's own view of the log up to its watermark. |
| `Council.OrderOfSignalsIsIrrelevant` | src/botnet_council/council/aggregator.py:44-50 | The decision, or the error, is the same for every permutation of the signals. |
| `Council.ConvictionIsAMean` | src/botnet_council/council/aggregator.py:59-76 | With positive alpha weight conviction lies between the least and greatest alpha target; with none it is zero. |
| `Council.ConfidenceIsAFraction` | src/botnet_council/council/aggregator.py:84 | Confidence lies in [0, 1]. |
| `Council.DecisionsMeetTheirContract` | src/botnet_council/schemas.py:421-436 | A decision is made exactly when the round is non-empty, agents are unique and every signal is about the snapshot; it then meets the decision contract and keeps all signals. |
| `Council.ContributionsSumToConviction` | web/src/researchModel.ts:61-73 | In whatever order the browser holds the signals, its per-agent contributions add up to conviction whenever some confidence counts. |
| `Governor.CollectCausalReasons` | src/botnet_council/risk/governor.py:308-368 | The reasons, in order: market, source, times, mark ages, decision age, signal faults. |
| `Governor.CollectPositionAges` | src/botnet_council/risk/governor.py:332-337 | One reason for each future or stale mark, in position order. |
| `Governor.CollectSignalFaults` | src/botnet_council/risk/governor.py:345-367 | Every fault of every signal, in signal order. |
| `Governor.CollectPositionFaults` | src/botnet_council/risk/governor.py:287-299 | One reason for each oversized or forbidden short position, in position order. |
| `Governor.Reconcile` | src/botnet_council/risk/governor.py:202-306 | All post-fill reasons in the source's order; compliant exactly when there are none. |
| `Paper.PaperExecutionAdapter.constructor` | src/botnet_council/execution/paper.py:44-53 | A new account holds only its starting cash and is valid. |
| `Paper.PaperExecutionAdapter.Execute` | src/botnet_council/execution/paper.py:92-168 | Every gate in order; a fill commits cash, position, time and authorization together, and a rejection or error commits nothing. |
| `Paper.PaperExecutionAdapter.Candidate` | src/botnet_council/execution/paper.py:124-144 | The copy holds the filled position at its new quantity and average entry, marked at the opening, or no longer holds it; nothing else changes. |
| `Paper.PaperExecutionAdapter.MarkToMarket` | src/botnet_council/execution/paper.py:62-90 | Succeeds exactly when every position has one observation that is not in the future; then every mark and the time move, and nothing else; otherwise nothing moves. |
| `Paper.PaperExecutionAdapter.MarkLoop` | src/botnet_council/execution/paper.py:76-86 | The copy has every position at its observation, or some observation lies in the future. |
| `Paper.AverageEntryPositive` | src/botnet_council/execution/paper.py:199-213 | Opening, adding, reducing or flipping leaves a positive average entry price. |
| `Paper.ExecutionKeepsAccount` | src/botnet_council/execution/paper.py:92-168 | No position within the flat tolerance is ever kept, prices stay positive, and an unfilled order changes nothing. |
| `OrderFlow.FlatteningCloses` | src/botnet_council/risk/governor.py:107-112 | A flattening order closes the position exactly, long or short, and counts as reducing. |
| `OrderFlow.AdverseIsBound` | src/botnet_council/execution/paper.py:106-112 | At the reference price the adverse slippage is exactly the configured bound. |
| `OrderFlow.ApprovedIsFilled` | src/botnet_council/risk/governor.py:88-200 | An approved order with an unused authorization is filled at every opening at its reference price in its window, whatever its account was marked at, for exactly the cash the governor foresaw. |
| `OrderFlow.BalanceReconciles` | src/botnet_council/risk/governor.py:257-273 | Quantity and cash reconcile after every fill. |
| `OrderFlow.ExposureVerdict` | src/botnet_council/risk/governor.py:274-301 | The exposure checks pass after an approved fill unless it spends the last cash on dust. |
| `OrderFlow.ApprovedFillReconciles` | src/botnet_council/risk/governor.py:202-306 | Of an account marked at the snapshot's last price: approved implies filled implies compliant, reducing or not, with the exact exception: dust out of a flat account that leaves no cash. |
| `OrderFlow.ApprovalSanctions` | src/botnet_council/risk/governor.py:99-195 | Whatever the account was marked at, approval fixes that the order has a size, reduces exactly when it says so, and otherwise is within the largest order, the allowed symbols and the ban on shorting. |
| `OpeningGaps.CheaperBuyReconciles` | src/botnet_council/execution/paper.py:106-168 | An approved buy out of a flat or long account is filled at every opening below the reference price, and compliant exactly when it fits there; it does when the account was marked at the snapshot's last price, and at any mark when it fits at the reference price. |
| `OpeningGaps.CheaperFits` | src/botnet_council/risk/governor.py:276-301 | A buy out of a flat or long account that fits at one opening fits at every cheaper one. |
| `OpeningGaps.OpeningDecides` | src/botnet_council/risk/governor.py:202-306 | Any approved order at any opening in its window, whatever its account was marked at: rejected for slippage, then for cash, exactly as the price says, otherwise filled; and compliant exactly when it reduces, is dust that leaves cash, or meets the governor's limits at the opening price. |
| `OpeningGaps.ReferenceDecides` | src/botnet_council/risk/governor.py:202-306 | At its reference price an approved order is always filled, at any mark, and compliant exactly when it fits there. |
| `OpeningGaps.WorseOpeningIsRejected` | src/botnet_council/execution/paper.py:107-114 | An approved order is rejected for slippage exactly when a buy would pay more than the reference price with bound and tolerance on top, a sale fetch less than it with both taken off. |
| `OpeningGaps.SlippageGateInPrices` | src/botnet_council/execution/paper.py:107-114 | The measured slippage exceeds bound and tolerance exactly at those prices. |
| `OpeningGaps.BetterShortCanFail` | src/botnet_council/risk/governor.py:276-301 | A concrete approved short sale whose opening moves in its favour is filled and fails the reconciliation. |
| `OrderLimits.LastCashOnDust` | src/botnet_council/risk/governor.py:274-301 | Whenever all the cash buys no more than 1e-12, the order that spends it is approved, filled at its reference price, and not compliant. |
| `OrderLimits.LowMarkCanFail` | src/botnet_council/risk/governor.py:281-282 | An account marked below the last price: a buy is approved and filled at its reference price of 100 and at every cheaper opening, and compliant exactly up to five sixths of the reference price. |
| `OrderLimits.DustIsNeverClosed` | src/botnet_council/risk/governor.py:101-104 | A position kept by the account but worth at most 1e-9 stays open after a fresh round asking to close it. |
| `Liquidation.RoundLiquidates` | src/botnet_council/risk/governor.py:98-168 | Above the notional tolerance a fresh zero-exposure round is always approved and filled, whatever confidence, volatility, symbol or limits say, and takes a full order off the position or closes it. |
| `Liquidation.DustRound` | src/botnet_council/risk/governor.py:101-104 | At or below the tolerance the round is always vetoed as already at target. |
| `Liquidation.LiquidationTerminates` | src/botnet_council/risk/governor.py:98-168 | With at least |notional| / maximum rounds the position is closed exactly if and only if it did not start as nonzero dust. |
| `Outcomes.RoundTripOutcomes.Apply` | src/botnet_council/backtest/engine.py:711-757 | The new state is the specified opening, adding, part-closing, closing or flipping of the old one. |
| `Outcomes.RoundTripOutcomes.Open` | src/botnet_council/backtest/engine.py:721-729 | An opening or adding fill averages the entry and carries all its costs. |
| `Outcomes.RoundTripOutcomes.Close` | src/botnet_council/backtest/engine.py:731-757 | A closing fill books its part with both cost shares and keeps, clears or flips the rest. |
| `Outcomes.CashPaysMarketAndCosts` | src/botnet_council/backtest/engine.py:242-252 | What a fill does to cash is its market value plus exactly fee and slippage. |
| `Outcomes.ProfitIsConserved` | src/botnet_council/backtest/engine.py:701-757 | After every sequence of fills, cash plus position at market cost plus open costs less starting cash and net profit is exactly the drift of snapped remainders; likewise for the costs. |
| `Outcomes.ConservedExactly` | src/botnet_council/backtest/engine.py:745-757 | Both identities are exact when no fill snaps a nonzero remainder. |
| `Outcomes.KeptDriftIsSmall` | src/botnet_council/backtest/engine.py:745-749 | A snapped fill that leaves part of a position moves the profit identity by at most the flat tolerance times its entry price and unit cost, and the cost identity by at most the tolerance times the unit cost. |
| `Outcomes.PastDriftIsSmall` | src/botnet_council/backtest/engine.py:745-749 | The same for a snapped fill past zero, with the fill's own price and unit cost. |
| `Outcomes.QuantitiesAgree` | src/botnet_council/backtest/engine.py:719-728 | Account and round trips hold the same quantity after every fill exactly when no fill opens a position too small to keep. |
| `Outcomes.DustOpeningParts` | src/botnet_council/backtest/engine.py:721-729 | A first buy of at most 1e-12 leaves the account flat and the round trips open. |
| `Outcomes.FlatBooksBalance` | src/botnet_council/backtest/engine.py:701-757 | Flat books have turned starting cash plus net profit into cash and charged every cost to a round trip. |
| `Engine.ExecutePending` | src/botnet_council/backtest/engine.py:185-253 | The queued order meets an opening: executed, reconciled, booked and dequeued, or the error the source raises. |
| `Engine.CollectSignals` | src/botnet_council/backtest/engine.py:302-328 | Every agent is asked once, in order. |
| `Engine.MakeDecision` | src/botnet_council/backtest/engine.py:290-431 | Cadence, future signals, council, governor and lifecycle records, as specified. |
| `Engine.MarkNow` | src/botnet_council/backtest/engine.py:613-631 | The account is marked at the selected mark, or the error the source raises. |
| `Engine.Advance` | src/botnet_council/backtest/engine.py:178-459 | One event of the replay changes every piece of run state as the step function says. |
| `Engine.Run` | src/botnet_council/backtest/engine.py:99-552 | The checks on the history, the loop, the check on the queue, the snapshot at the end, and the measures with their contract: one result or the error the source raises. |
| `Engine.Summarize` | src/botnet_council/backtest/engine.py:492-509 | The collected curve, exposures and totals pass exactly when the measures meet their contract. |
| `Engine.QueuedOrderIsValid` | src/botnet_council/backtest/engine.py:389-418 | Only an order that meets its contract is queued. |
| `EngineCausality.NoLookAhead` | src/botnet_council/backtest/engine.py:153-459 | Two histories that agree on the bars available by t and on the opening times and prices up to t give the same ledger up to t, or the same error there. |
| `EngineCausality.LedgerIsCut` | src/botnet_council/backtest/engine.py:438-459 | Cutting a finished ledger at t gives what had been written by t, and an error by t is the run's error. |
| `EngineCausality.FinishedRunsAgree` | src/botnet_council/backtest/engine.py:178-459 | Two finished backtests over such histories have the same ledger events up to t. |
| `EngineCausality.LedgerFollowsTicks` | src/botnet_council/backtest/engine.py:438-459 | One event for each moment, numbered and timed by it; a shorter run's ledger is a prefix. |
| `EngineCausality.SameVisible` | src/botnet_council/market_data/in_memory.py:28-37 | Snapshots up to t depend only on the bars available by then. |
| `EngineSchedule.ExecutionNeverRaises` | src/botnet_council/execution/paper.py:170-196 | A queued order meeting a later opening is filled or rejected for expiry, gap or cash only; the commit gate never raises. |
| `EngineSchedule.StepIsSafe` | src/botnet_council/backtest/engine.py:178-459 | Before every event the run state is ready for it; the only errors left are a failed reconciliation and what agents say. |
| `EngineSchedule.OnlyTolerableErrors` | src/botnet_council/backtest/engine.py:153-509 | Over every aligned complete history the loop's other errors are unreachable and no order is left; after the loop the run fails exactly when no bar is available by the end or some measured equity is negative. |
| `EngineSchedule.ReplayStops` | src/botnet_council/backtest/engine.py:238-241 | With such agents a replay raises exactly when at some event it reaches, the queued order passes the gates without fitting. |
| `EngineSchedule.BacktestFinishes` | src/botnet_council/backtest/engine.py:238-509 | With agents that answer every snapshot of the replay, a backtest finishes if and only if it reaches no event at which the queued order passes the gates without fitting, some bar is available by the end, and no measured equity is negative. |
| `EngineSchedule.AssessedHistoryRuns` | src/botnet_council/backtest/engine.py:124-132 | History that passes the quality assessment and the start check is valid, has a bar at the end, meets tolerable errors only in the loop, and then fails exactly in the two ways of the summary. |
| `EngineSummary.RunKeepsCosts` | src/botnet_council/backtest/engine.py:242-253 | Fees, slippage and turnover are never negative, whatever happens in a replay. |
| `EngineSummary.MetricsAreValid` | src/botnet_council/backtest/models.py:188-203 | The measures meet their contract if and only if no measured equity is negative. |
| `EngineSchedule.FailureIsExposure` | src/botnet_council/risk/governor.py:257-301 | Told before the execution: a run stops at an opening exactly when the queued order is in its window, passes the slippage and cash gates, and does not fit there: it adds, and the limits fail of the position at that price. |
| `EngineFailures.UnpublishedHistoryStops` | src/botnet_council/backtest/engine.py:485 | Complete, aligned history none of whose bars is available by the end never finishes, whatever the agents. |
| `EngineFailures.LateHistoryIsComplete` | src/botnet_council/backtest/engine.py:485 | Such a history exists: two bars that tile the range, published an interval after its end. |
| `EngineFailures.SqueezeBreaksMeasures` | src/botnet_council/backtest/engine.py:492-509 | A short sale at its reference price and a spike at the last opening: every fill reconciles and the measures fail. |
| `EngineFailures.BetterFillStopsRun` | src/botnet_council/backtest/engine.py:238-241 | The same sale at a better price stops the run at its reconciliation. |
| `EngineLongOnly.LongOnlyFinishes` | src/botnet_council/backtest/engine.py:238-509 | With shorting disabled no measured equity is ever negative, so a backtest finishes if and only if it reaches no event at which the queued order passes the gates without fitting, and some bar is available by the end. |
| `EngineLedger.EveryOrderHasAFate` | src/botnet_council/backtest/engine.py:289-296 | After any number of events of any replay, also one that stops later: every reported execution runs the order of exactly one earlier event, the latest queued, at a strictly later time; every order queued so far is executed, or replaced by a newer one before an opening, never both, at exactly one later event, or is the one queued now. |
| `EngineLedger.FinishedOrdersEnd` | src/botnet_council/backtest/engine.py:481-482 | In a finished backtest every queued order was executed or replaced. |
| `EngineLedger.FinishedReaches` | src/botnet_council/backtest/engine.py:438-457 | A finished backtest got through each of its events, and the ledger of each moment is a prefix of its own, so the laws of every prefix are laws of its ledger. |
| `EngineLedger.RunIsBooked` | src/botnet_council/backtest/engine.py:242-252 | The running totals and the account are exactly the booking of the ledger's fills, one after another. |
| `EngineLedger.LedgerConservesProfit` | src/botnet_council/backtest/engine.py:438-457 | At every event of every replay, also one that stops later, both conservation laws hold, up to exactly the drift of snapped remainders. |
| `EngineLedger.FlatEventsBalance` | src/botnet_council/backtest/engine.py:438-457 | Wherever the ledger of a replay shows no position and no fill so far snapped a remainder or opened dust, cash is starting cash plus net profit and gross less net profit is fees plus slippage. |
| `EngineMarks.MarkIsNewest` | src/botnet_council/backtest/engine.py:643-674 | The mark chosen step by step is the newest market observation: the latest opening or latest available close, the opening on a tie. |
| `Quality.CollectLoop` | src/botnet_council/market_data/quality.py:28-43 | The candles by opening and the number of exact repeats, or the first conflict or wrong duration. |
| `Quality.GapLoop` | src/botnet_council/market_data/quality.py:45-57 | Every gap with its missing intervals, or the error for overlapping or misaligned candles. |
| `Quality.NormalizeAndAssess` | src/botnet_council/market_data/quality.py:16-92 | Ordered candles with their full report, or the first error. |
| `Quality.CollectMeans` | src/botnet_council/market_data/quality.py:28-43 | Collecting succeeds exactly when candles agree and have the timeframe's duration; it holds exactly the supplied candles and counts every repeat. |
| `Quality.OrderOfCandlesIsIrrelevant` | src/botnet_council/market_data/quality.py:24-44 | The same candles in any order give the same bars and coverage, or fail together. |
| `Quality.CoverageAddsUp` | src/botnet_council/market_data/quality.py:58-81 | On the grid, expected intervals equal rows plus leading, gap and trailing ones if and only if the last bar closes inside the window; otherwise they are one short. |
| `Quality.UnalignedWindowMiscounts` | src/botnet_council/market_data/quality.py:58-81 | A window that ends inside its second interval, on which the sum is one too many. |
| `Quality.CompleteTiles` | src/botnet_council/market_data/quality.py:74-81 | Complete coverage with one bar on the grid forces the bars to tile the window exactly. |
| `Quality.TilesAreComplete` | src/botnet_council/market_data/quality.py:74-81 | Bars that tile the window are reported complete. |
| `Quality.ReplayHistoryTiles` | src/botnet_council/backtest/engine.py:110-132 | The engine's first two checks hold exactly when the bars tile the requested range, and then its third check cannot fail. |
| `Quality.AssessedAreSupplied` | src/botnet_council/market_data/quality.py:44-44 | Normalizing neither invents nor loses a candle. |
| `Cache.MarketDataCache.constructor` | src/botnet_council/market_data/cache.py:36-37 | A new cache is empty and valid. |
| `Cache.MarketDataCache.Store` | src/botnet_council/market_data/cache.py:116-146 | Stored exactly when verified, complete and not in conflict with what is there; an artifact once stored never changes. |
| `Cache.MarketDataCache.LoadRange` | src/botnet_council/market_data/cache.py:196-234 | The matching artifacts' candles in the range, composed, if they cover it completely. |
| `Cache.MarketDataCache.MissingRanges` | src/botnet_council/market_data/cache.py:236-268 | The walk over the openings yields the specified missing runs, or the conflict. |
| `Cache.MergeLoop` | src/botnet_council/market_data/cache.py:278-289 | All cached candles by opening, or the conflict. |
| `Cache.CheckQuality` | src/botnet_council/market_data/cache.py:331-355 | An artifact's recorded coverage is the coverage of its candles. |
| `Cache.MarketDataCache.InspectAvailability` | src/botnet_council/market_data/cache.py:147-194 | Refused exactly when two artifacts disagree on a candle; otherwise ranges that hold exactly the moments the cached candles hold, with a real gap between any two exactly when no two of those candles overlap. |
| `Cache.BoundsLoop` | src/botnet_council/market_data/cache.py:171-180 | The same of the loop over candles by distinct openings. |
| `Cache.MissingIsTheComplement` | src/botnet_council/market_data/cache.py:256-268 | Ordered, disjoint, maximal ranges inside the request that cover precisely the openings not cached; none exactly when all are. |
| `Cache.NothingMissingIffLoadable` | src/botnet_council/market_data/cached.py:52-66 | For aligned requests over consistent grid-aligned artifacts nothing is missing exactly when the range loads, so the fallback to the whole request is never taken. |
| `CachedProvider.HistoricalProvider.FetchHistorical` | src/botnet_council/market_data/in_memory.py:70-92 | One call, answered with the normalized candles of the range known by the cutoff. |
| `CachedProvider.CompleteIsEverything` | src/botnet_council/market_data/cached.py:70-87 | Supplied candles assessed as complete are all the provider has in the range. |
| `CachedProvider.LoadedAgrees` | src/botnet_council/market_data/cache.py:212-234 | What the cache composes has the bars the provider would have answered. |
| `CachedProvider.StoredAgrees` | src/botnet_council/market_data/cache.py:116-120 | Every stored artifact has the bars the provider would answer to its own request. |
| `CachedProvider.StaysLoadable` | src/botnet_council/market_data/cache.py:204-225 | A range that composes keeps composing, whatever else of the provider's is cached. |
| `CachedProvider.PartsAreAnswered` | src/botnet_council/market_data/cache.py:256-268 | Of a request the provider answers completely, on or off its grid, every missing part is answered completely too. |
| `CachedProvider.FetchedLoads` | src/botnet_council/market_data/cached.py:78-85 | With those parts cached, the whole request composes, whatever was cached before. |
| `CachedProvider.CachedHistoricalProvider.FetchHistorical` | src/botnet_council/market_data/cached.py:39-87 | No stored artifact ever changes, and a request whose artifact was stored under another version is refused for good; there is a result exactly when the provider itself would answer completely and neither the request nor, unless the cache composes it, a part to be fetched is taken by another version; it has exactly the provider's bars and leaves the request warm; a warm request is answered without calling the provider. |
| `CachedProvider.CachedHistoricalProvider.FetchParts` | src/botnet_council/market_data/cached.py:67-77 | Fetching and storing the parts only adds artifacts; it succeeds whenever the provider answers every part completely and none is taken, and then holds the provider's candles for each. |
| `CachedProvider.CachedHistoricalProvider.Refill` | src/botnet_council/market_data/cached.py:61-87 | Fetching what is missing and composing gives the provider's own bars exactly when the provider would answer completely and nothing in between is taken. |
| `Drawdown.MaximumDrawdown` | src/botnet_council/backtest/metrics.py:6-18 | The one-pass loop, failing exactly on an empty or non-positive start. |
| `Drawdown.DrawdownOfReturns` | src/botnet_council/learning/teacher.py:218-226 | The Teacher's loop gives the backtest's number on the compounded curve, whatever the returns. |
| `Drawdown.DrawdownIsLargestFall` | src/botnet_council/backtest/metrics.py:13-18 | On a non-negative curve the result is the largest fall between any two points in order, and is attained. |
| `Drawdown.DrawdownIsAFraction` | src/botnet_council/backtest/metrics.py:6-18 | The drawdown lies in [0, 1] if and only if the curve never goes below zero. |
| `Profiles.ResolveLoop` | src/botnet_council/learning/models.py:99-108 | The loop resolves every agent with a matching entry. |
| `Profiles.MatchedIsBest` | src/botnet_council/learning/models.py:99-105 | An agent resolves exactly when some entry matches, to one that no matching entry outranks. |
| `Profiles.OrderOfEntriesIsIrrelevant` | src/botnet_council/learning/models.py:91-108 | With at most one empty text in the context, the order of the entries does not matter. |
| `Profiles.EmptyTextsTie` | src/botnet_council/learning/models.py:306-313 | With two empty texts, two scopes tie and the order decides: a concrete profile for every such context. |
| `Profiles.OrderMattersExactly` | src/botnet_council/learning/models.py:91-108 | Every permutation of every profile resolves alike in a context if and only if at most one of its asset class, symbol and regime is the empty text. |
| `Profiles.ApplyChangesLoop` | src/botnet_council/learning/profiles.py:189-208 | The new entries, or an error for a stale or undeclared change. |
| `Profiles.ReplacedFollows` | src/botnet_council/learning/profiles.py:191-205 | Entry by entry: same identities in order, each change made from the weight it names, everything else untouched. |
| `WeightStore.WeightProfileStore.Initialize` | src/botnet_council/learning/profiles.py:35-46 | Writes generation zero and makes it active, or refuses, or dies between the two writes. |
| `WeightStore.WeightProfileStore.Promote` | src/botnet_council/learning/profiles.py:76-108 | Checks, writes the next generation, makes it active; refuses or dies with what was written so far. |
| `WeightStore.WeightProfileStore.Rollback` | src/botnet_council/learning/profiles.py:140-152 | The walk up the parents terminates; the active generation moves to a strict ancestor or not at all. |
| `WeightStore.StepKeepsStore` | src/botnet_council/learning/profiles.py:35-175 | Whatever is attempted and wherever the process dies, parents exist with smaller numbers and the active generation resolves. |
| `WeightStore.PromotionIsFresh` | src/botnet_council/learning/profiles.py:95-108 | A promotion takes a number above all ever written, also after a rollback, with the previous active generation as parent. |
| `WeightStore.RollbackGoesBack` | src/botnet_council/learning/profiles.py:140-152 | A rollback reaches only strict ancestors and never writes a profile. |
| `WeightStore.GenerationsAreImmutable` | src/botnet_council/learning/profiles.py:154-165 | Over every run with crashes, a generation once written stays what it was. |
| `WeightStore.CrashedPromotionCanBeRepeated` | src/botnet_council/learning/profiles.py:106-107 | After a crash between the writes the same promotion completes under the next number. |
| `Experience.TrialLoop` | src/botnet_council/learning/trials.py:6-25 | The loop keeps one representative a class and sorts them. |
| `Experience.TrialsMean` | src/botnet_council/learning/trials.py:6-25 | Exactly the earliest episode of each class, in order. |
| `Experience.OrderOfEpisodesIsIrrelevant` | src/botnet_council/learning/trials.py:6-25 | Order and repetition of the episodes make no difference. |
| `Experience.TrialsOfTrials` | src/botnet_council/learning/trials.py:6-25 | Selecting trials among trials changes nothing. |
| `Librarian.Propose` | src/botnet_council/learning/librarian.py:28-113 | Changes from trials whose truth was available before the cutoff only. |
| `Librarian.CorrectnessLoop` | src/botnet_council/learning/librarian.py:51-71 | One outcome for each trial in which the agent can be judged. |
| `Librarian.MoveIsBounded` | src/botnet_council/learning/librarian.py:121-122 | A bounded move never exceeds its maximum and never leaves the range of start and target. |
| `Librarian.ProposalsAreSmall` | src/botnet_council/learning/librarian.py:48-104 | Every proposed change is to an entry of the scope, keeps the mix, stays in range and within the maximum. |
| `Librarian.ProposalsApply` | src/botnet_council/learning/profiles.py:186-208 | Full or halved, a proposal applies to the profile it was made for. |
| `Librarian.DriftIsBounded` | src/botnet_council/learning/librarian.py:78-86 | After n lessons, full or halved, weights are in range with their mix, untaught entries untouched, and no effective weight has moved more than n maximum moves. |
| `Librarian.LessonsAlwaysApply` | src/botnet_council/learning/profiles.py:186-232 | A chain of lessons never fails. |
| `Teacher.ChosenDoNotOverlap` | src/botnet_council/learning/teacher.py:127-136 | Selected episodes never overlap. |
| `Teacher.SkippedOverlaps` | src/botnet_council/learning/teacher.py:134-135 | A skipped episode starts before some selected earlier one has ended. |
| `Teacher.EvaluateProfile` | src/botnet_council/learning/teacher.py:116-199 | The loop and the metrics, or the error. |
| `Teacher.MetricsMeetTheirContract` | src/botnet_council/learning/models.py:162-173 | Whatever valid episodes and profile it is given, hit rate and calibration error are fractions and drawdown and turnover not negative, so the metrics are never refused; turnover and risk-adjusted return have known bounds. |
| `Teacher.SliceLoop` | src/botnet_council/learning/teacher.py:229-240 | The slices' compound returns. |
| `Teacher.SlicesCompoundToTotal` | src/botnet_council/learning/teacher.py:229-240 | The slice returns compound to the total return. |
| `Teacher.GrowthEndsTheCurve` | src/botnet_council/learning/teacher.py:169 | The total return is where the compounded curve ends. |
| `Teacher.SelectionSuffices` | src/botnet_council/learning/teacher.py:116-199 | Evaluating the selection alone gives the same metrics. |
| `Teacher.OrderOfHeldOutIsIrrelevant` | src/botnet_council/learning/teacher.py:127-129 | Permuting episodes with distinct order keys changes nothing. |
| `Teacher.OrderOfWeightsIsIrrelevant` | src/botnet_council/learning/teacher.py:137-147 | Permuting profile entries changes nothing, with at most one empty text in each context. |
| `Teacher.AcceptedWasValidated` | src/botnet_council/learning/teacher.py:64-101 | What is accepted gives, applied to the base, the reported metrics, and they pass against the baseline. |
| `Teacher.PromotedWasValidated` | src/botnet_council/learning/profiles.py:76-108 | A completed promotion of what was accepted activates exactly the profile that was validated. |
| `Teacher.NothingLeaks` | src/botnet_council/learning/teacher.py:44-63 | Every truth learned from was available strictly before every held-out decision. |
| `Experiments.ExperimentRepository.Save` | src/botnet_council/experiments/persistence.py:24-51 | A record replaces the stored one unless it would change a locked forecast or the request. |
| `Experiments.ExperimentService.Create` | src/botnet_council/experiments/service.py:36-58 | Creating is idempotent, refuses a colliding identity, and returns the record exactly when the storage took it. |
| `Experiments.ExperimentService.Run` | src/botnet_council/experiments/service.py:60-122 | Runs only a created experiment, and leaves what going on to the end leaves. |
| `Experiments.ExperimentService.Attempt` | src/botnet_council/experiments/service.py:67-78 | Context and forecasting states, each saved before the next, or the failure record. |
| `Experiments.ExperimentService.Predict` | src/botnet_council/experiments/service.py:76-85 | The forecast is made and its lock saved, or the failure record. |
| `Experiments.ExperimentService.Judge` | src/botnet_council/experiments/service.py:86-121 | The stored lock is read back before the oracle is asked, or the failure record. |
| `Experiments.ExperimentService.OracleOutcome` | src/botnet_council/experiments/service.py:136-146 | The stored outcome, behind the gate: hidden before the lock, unavailable until there is one. |
| `ExperimentRuns.TransitionStaysOnPath` | src/botnet_council/experiments/lifecycle.py:26-45 | An allowed transition extends the path, and brings a forecast exactly when it locks. |
| `ExperimentRuns.ConsultingStep` | src/botnet_council/experiments/service.py:89-109 | The oracle is called only while the repository holds an evaluating record with the run's own forecast. |
| `ExperimentRuns.StepKeepsInvariant` | src/botnet_council/experiments/service.py:36-122 | Every lawful step of every run and creation, failing or crashing, keeps the invariant and lets no record leave its path. |
| `ExperimentRuns.BlindUntilLocked` | src/botnet_council/experiments/models.py:310-333 | Over every lawful run: stored lifecycles are paths of the table, a forecast is present exactly after the lock and never changes, finished records are never left, and every oracle call was lawful. Lawful: no run starts beside another of its experiment, no creation saves over a record that has moved on. |
| `ExperimentRuns.LawfulExactly` | src/botnet_council/experiments/service.py:36-122 | The condition is exact: a run is harmless, whatever lawful steps follow any part of it, if and only if it is lawful. |
| `ExperimentRuns.UnlawfulStartBreaks` | src/botnet_council/experiments/service.py:60-78 | From any state of a lawful run, a run started beside another of its experiment has a lawful continuation that leaves a failed record. |
| `ExperimentRuns.UnlawfulSaveBreaks` | src/botnet_council/experiments/service.py:36-58 | A creation that saves over a record that has moved on rewrites its history at once. |
| `ExperimentRuns.FinishIsARun` | src/botnet_council/experiments/service.py:60-122 | What the service's run leaves is reached by the state machine. |
| `ExperimentRuns.CreateIsARun` | src/botnet_council/experiments/service.py:36-58 | What the service's create leaves is reached by its look and its save, one after the other. |
| `ExperimentRuns.LateCreationReopens` | src/botnet_council/experiments/service.py:36-58 | A creation that looked before another one saved leaves a failed experiment as new, with no two runs overlapping. |
| `ExperimentRuns.TwoRunsReopen` | src/botnet_council/experiments/persistence.py:24-32 | Two overlapping runs of one experiment can store a lock over a completed record, for every request and every smooth answer. |
| `ExperimentOracle.RevealedAfterTheLock` | src/botnet_council/experiments/service.py:136-146 | Over every run, also overlapping ones: an outcome is revealed exactly when the record has one; by then the experiment is finished and the oracle was asked about that request while the repository held the very forecast the record still holds. |
| `ExperimentOracle.RevealedForGood` | src/botnet_council/experiments/service.py:136-146 | Over every lawful run the same outcome is revealed for good. |
| `ExperimentOracle.ForecastsStandForever` | src/botnet_council/experiments/persistence.py:24-32 | Over every run, lawful or not, a stored forecast is never changed or taken out. |

## Left out

- HTTP routes, authentication, payload validation and the React views: plumbing and shape checks; the WebSocket origin and filter-parsing branches with them.
- Kraken and Freqtrade adapters, Parquet, SQLite and JSON encoding, digests and corrupted files, file locks: stores are maps with atomic replacement, and only contents written by the modelled code are considered.
- Real threads: the stream protocol and experiments interleave atomic steps instead; handlers that publish from inside a handler (re-entrant locks) are not modelled.
- Hashing: identities are structural, so collisions do not exist.
- Floating-point rounding, NaN and infinity checks: arithmetic is over reals.
- The specialist agents' statistics, `log`, `exp`, `sqrt` and `pstdev`: arbitrary functions of the snapshot or of the returns; an agent's own exceptions are not modelled.
- Telemetry emitted by the engine, cancellation and progress callbacks: they do not change the replay's result.
- Backtest metrics without a range in their contract: total return, the benchmark, win and loss counts as reported; one-line expressions over what is modelled. The run identity and the provenance record with them.
- The `paper_only` and fill-policy gates of the broker: their fields have a single value.
- Order lifecycle reasons and every other message text.
- Learning reviews: an immutable side record written before a promotion; it does not affect generations. Malformed generation identities are rejected before anything is read.
- The snapshot method of the caching provider, the offline and batch services, configuration loading, sanitizing and serializers.
- Liveness of the browser: a gap found while replaying buffered events waits for a later trigger, so only safety is stated.
- Governor.Reconcile: the reconciliation's own timestamp and its success message are not part of the result.
- Cache.MarketDataCache.LoadRange: the fetch time is the latest over the matching artifacts, and no artifact at all counts as not covered, which is where the source's test for completeness already ends.
- Quality.NormalizeAndAssess: a window is present or absent as a whole, so the error for giving only one bound does not exist; the `input_rows` override is not modelled.
- OrderFlow.ApprovedFillReconciles: stated for an account that holds at most the order's symbol, marked at the snapshot's last price. The replay marks at the newest observation, which can be a later opening; `OrderLimits.LowMarkCanFail` shows why the premise is needed, and `OpeningGaps.ReferenceDecides` says what holds at any mark.
- OpeningGaps.OpeningDecides: stated for an account that holds at most the order's symbol, as a replay's does.
- Cache.MarketDataCache.InspectAvailability: asked with both expected versions, like every other query; the source also lets either be left open.
- EngineCausality.NoLookAhead: agents do not see the run identity here, which in the source is derived from the whole history.
