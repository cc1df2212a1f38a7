/** The replay engine: one pass over the moments at which something becomes observable, with at
    most one order queued for a later opening. */
module Engine {
  import opened Sequences
  import opened Trading
  import opened Paper
  import opened Governor
  import opened Council
  import opened Outcomes
  import Drawdown

  datatype BacktestConfig = BacktestConfig(
    symbol: int, timeframe: int, start: int, end: int, startingCash: real, feeBps: real, slippageBps: real,
    council: CouncilConfig, risk: RiskPolicy, cadence: nat)

  predicate ValidConfig(c: BacktestConfig)
  {
    && c.start < c.end && c.startingCash > 0.0 && c.cadence >= 1
    && 0.0 <= c.feeBps <= BPS && 0.0 <= c.slippageBps <= BPS
    && ValidCouncilConfig(c.council) && ValidPolicy(c.risk)
  }

  /** The specialists and the volatility estimate are arbitrary functions of a snapshot. */
  datatype Setup = Setup(config: BacktestConfig, agents: seq<Snapshot -> Signal>, volatility: Snapshot -> Option<real>)

  // ---- what is observable, and when ----

  /** `{bar.opened_at: bar.open}`: the last bar with a given opening wins. */
  function OpenAt(bars: seq<Bar>, t: int): Option<real>
  {
    if bars == [] then None
    else if bars[|bars| - 1].openedAt == t then Some(bars[|bars| - 1].open)
    else OpenAt(bars[..|bars| - 1], t)
  }

  function AvailableBy(t: int): Bar -> bool { (b: Bar) => b.availableAt <= t }

  function Visible(bars: seq<Bar>, t: int): seq<Bar> { Filter(bars, AvailableBy(t)) }

  function SnapshotAt(c: BacktestConfig, bars: seq<Bar>, t: int): Option<Snapshot>
  {
    var visible := Visible(bars, t);
    if visible == [] then None else Some(Snapshot(c.symbol, c.timeframe, t, t, visible))
  }

  function EventTimes(c: BacktestConfig, bars: seq<Bar>): seq<int>
  {
    SortedInts((set b | b in bars && b.openedAt <= c.end :: b.openedAt)
               + (set b | b in bars && b.availableAt <= c.end :: b.availableAt)
               + {c.end})
  }

  datatype Tick = Tick(time: int, snapshot: Option<Snapshot>, open: Option<real>)

  predicate ValidTick(k: Tick)
  {
    && (k.open.Some? ==> k.open.value > 0.0)
    && (k.snapshot.Some? ==> k.snapshot.value.bars != [] && ValidBar(k.snapshot.value.Last()))
  }

  function TickAt(c: BacktestConfig, bars: seq<Bar>, t: int): Tick
  {
    Tick(t, SnapshotAt(c, bars, t), OpenAt(bars, t))
  }

  function TicksAt(c: BacktestConfig, bars: seq<Bar>, times: seq<int>): (r: seq<Tick>)
    ensures |r| == |times|
    ensures forall i :: 0 <= i < |r| ==> r[i] == TickAt(c, bars, times[i])
  {
    seq(|times|, i requires 0 <= i < |times| => TickAt(c, bars, times[i]))
  }

  // ---- the run's own records ----

  datatype MarketMark = MarketMark(symbol: int, price: real, marketTime: int, availableAt: int)

  datatype OrderStatus = Proposed | Authorized | Queued | FilledStatus | RejectedStatus

  datatype OrderRecord = OrderRecord(
    status: OrderStatus, occurredAt: int, decision: DecisionId, source: SnapshotId, authorization: Option<AuthorizationId>)

  datatype LedgerEvent = LedgerEvent(
    sequence: nat, time: int, snapshot: Option<Snapshot>, signals: seq<Signal>, decision: Option<Decision>,
    risk: Option<RiskDecision>, queued: Option<ApprovedOrder>, report: Option<ExecutionReport>,
    reconciliation: Option<seq<Reason>>, lifecycle: seq<OrderRecord>, portfolio: Portfolio, marketValue: real,
    gross: real, net: real, unrealized: real, fees: real, slippage: real, measured: bool)

  datatype Totals = Totals(trips: RoundTrips, fees: real, slippage: real)

  datatype RunState = RunState(
    account: Account, totals: Totals, pending: Option<ApprovedOrder>, mark: Option<MarketMark>,
    decisions: nat, events: seq<LedgerEvent>)

  datatype EngineError =
    | IncompleteCoverage | StartUnaligned | EndUnaligned | NonMonotonic
    | NonFutureOpening | CommitRaised | NonCompliant(reasons: seq<Reason>) | InvalidState
    | FutureObservation | CannotMark | MarkRaised | FutureSignal | CouncilRaised(error: CouncilError) | InvalidOrder
    | Unprocessed | NoEndSnapshot | InvalidMetrics

  datatype Outcome<+T> = Fine(value: T) | Raised(error: EngineError)

  function PublicOf(a: Account): Option<Portfolio> { BuildState(a.cash, a.positions, a.valuedAt) }

  // ---- executing the queued order ----

  function OpeningFor(c: BacktestConfig, t: int, price: real): OpeningPrice
  {
    OpeningPrice(c.symbol, c.timeframe, price, t, t)
  }

  function RecordOf(status: OrderStatus, t: int, order: ApprovedOrder): OrderRecord
  {
    OrderRecord(status, t, order.decision, order.source, Some(order.authorization))
  }

  datatype Opening = Opening(
    account: Account, totals: Totals, pending: Option<ApprovedOrder>, report: Option<ExecutionReport>,
    reconciliation: Option<seq<Reason>>, lifecycle: seq<OrderRecord>)

  function WithFill(totals: Totals, order: ApprovedOrder, report: ExecutionReport, price: real): Totals
    requires report.outcome.Filled? && order.quantity > 0.0
  {
    var slippage := report.quantity * Abs(report.outcome.fillPrice - price);
    Totals(Applied(totals.trips, order.side, order.quantity, price, report.fee + slippage),
           totals.fees + report.fee, totals.slippage + slippage)
  }

  function AfterExecution(c: BacktestConfig, totals: Totals, before: Account, order: ApprovedOrder, e: Execution, t: int, price: real): Outcome<Opening>
    requires ValidOrder(order)
  {
    if PublicOf(before).None? || PublicOf(e.account).None? then Raised(InvalidState)
    else if e.report.None? then Raised(CommitRaised)
    else if e.report.value.outcome.Rejected? then
      Fine(Opening(e.account, totals, None, e.report, None, [RecordOf(RejectedStatus, t, order)]))
    else
      var reasons := ReconcileReasons(c.risk, order, e.report.value, PublicOf(before).value, PublicOf(e.account).value);
      if reasons != [] then Raised(NonCompliant(reasons))
      else Fine(Opening(e.account, WithFill(totals, order, e.report.value, price), None, e.report, Some(reasons),
                        [RecordOf(FilledStatus, t, order)]))
  }

  function AtOpening(c: BacktestConfig, s: RunState, k: Tick): Outcome<Opening>
    requires s.pending.Some? ==> ValidOrder(s.pending.value)
  {
    if s.pending.None? || k.open.None? then Fine(Opening(s.account, s.totals, s.pending, None, None, []))
    else if k.time <= s.pending.value.authorizedAt then Raised(NonFutureOpening)
    else
      var order := s.pending.value;
      AfterExecution(c, s.totals, s.account, order,
                     Executed(s.account, order, OpeningFor(c, k.time, k.open.value), order.authorizedAt), k.time, k.open.value)
  }

  // ---- marking ----

  function CompletedMark(snapshot: Snapshot): MarketMark
    requires snapshot.bars != []
  {
    MarketMark(snapshot.symbol, snapshot.LastPrice(), snapshot.Last().closedAt, snapshot.Last().availableAt)
  }

  function LaterClose(current: Option<MarketMark>, k: Tick): Option<MarketMark>
    requires ValidTick(k)
  {
    if k.snapshot.Some? && (current.None? || CompletedMark(k.snapshot.value).marketTime > current.value.marketTime)
    then Some(CompletedMark(k.snapshot.value)) else current
  }

  /** The newest market observation: an opening beats a close of the same nominal time. */
  function SelectMark(c: BacktestConfig, current: Option<MarketMark>, k: Tick): Option<MarketMark>
    requires ValidTick(k)
  {
    var selected := LaterClose(current, k);
    if k.open.Some? && (selected.None? || k.time >= selected.value.marketTime)
    then Some(MarketMark(c.symbol, k.open.value, k.time, k.time)) else selected
  }

  function ObservationsFor(a: Account, mark: Option<MarketMark>): seq<PriceObservation>
  {
    if a.positions != map[] && mark.Some?
    then [PriceObservation(mark.value.symbol, mark.value.price, mark.value.availableAt)] else []
  }

  function MarkAccount(a: Account, mark: Option<MarketMark>, t: int): Outcome<Account>
  {
    if a.positions != map[] && mark.None? then Raised(CannotMark)
    else if !CanMark(a, ObservationsFor(a, mark), t) then Raised(MarkRaised)
    else Fine(Marked(a, ObservationsFor(a, mark), t))
  }

  // ---- deciding ----

  datatype Deciding = Deciding(
    signals: seq<Signal>, decision: Option<Decision>, risk: Option<RiskDecision>, queued: Option<ApprovedOrder>,
    lifecycle: seq<OrderRecord>)

  const NO_DECISION := Deciding([], None, None, None, [])

  function SignalsOf(agents: seq<Snapshot -> Signal>, snapshot: Snapshot): (r: seq<Signal>)
    ensures |r| == |agents|
    ensures forall i :: 0 <= i < |r| ==> r[i] == agents[i](snapshot)
  {
    if agents == [] then [] else SignalsOf(agents[..|agents| - 1], snapshot) + [agents[|agents| - 1](snapshot)]
  }

  function ProposalOf(d: Decision, t: int): seq<OrderRecord>
  {
    if Actionable(d.action) then [OrderRecord(Proposed, t, d.id, d.source, None)] else []
  }

  function VerdictRecords(d: Decision, risk: RiskDecision, t: int): seq<OrderRecord>
  {
    if risk.Approved? then [RecordOf(Authorized, t, risk.order), RecordOf(Queued, t, risk.order)]
    else if Actionable(d.action) then [OrderRecord(RejectedStatus, t, d.id, d.source, None)]
    else []
  }

  function Judged(setup: Setup, snapshot: Snapshot, signals: seq<Signal>, d: Decision, portfolio: Portfolio, costs: CostBounds, t: int): Outcome<Deciding>
    requires snapshot.bars != [] && snapshot.LastPrice() > 0.0
  {
    var risk := Evaluate(setup.config.risk, d, snapshot, setup.volatility(snapshot), portfolio, costs, t);
    if risk.Approved? && !ValidOrder(risk.order) then Raised(InvalidOrder)
    else Fine(Deciding(signals, Some(d), Some(risk), if risk.Approved? then Some(risk.order) else None,
                       ProposalOf(d, t) + VerdictRecords(d, risk, t)))
  }

  function Decide(setup: Setup, snapshot: Snapshot, portfolio: Portfolio, costs: CostBounds, t: int): Outcome<Deciding>
    requires snapshot.bars != [] && snapshot.LastPrice() > 0.0
  {
    var signals := SignalsOf(setup.agents, snapshot);
    if exists s :: s in signals && s.generatedAt > t then Raised(FutureSignal)
    else
      var aggregation := Aggregate(setup.config.council, snapshot, signals);
      if aggregation.Refused? then Raised(CouncilRaised(aggregation.error))
      else Judged(setup, snapshot, signals, aggregation.decision, portfolio, costs, t)
  }

  predicate Eligible(c: BacktestConfig, k: Tick) { c.start <= k.time < c.end && k.snapshot.Some? }

  predicate ShouldDecide(c: BacktestConfig, k: Tick, decisions: nat)
    requires c.cadence >= 1
  {
    Eligible(c, k) && decisions % c.cadence == 0
  }

  function DecideAt(setup: Setup, k: Tick, decisions: nat, portfolio: Portfolio, costs: CostBounds): Outcome<Deciding>
    requires ValidTick(k) && setup.config.cadence >= 1
  {
    if ShouldDecide(setup.config, k, decisions) then Decide(setup, k.snapshot.value, portfolio, costs, k.time)
    else Fine(NO_DECISION)
  }

  // ---- one event ----

  function EventOf(c: BacktestConfig, k: Tick, sequence: nat, o: Opening, portfolio: Portfolio, d: Deciding): LedgerEvent
  {
    LedgerEvent(
      sequence, k.time, k.snapshot, d.signals, d.decision, d.risk, d.queued, o.report, o.reconciliation,
      o.lifecycle + d.lifecycle, portfolio, portfolio.equity - portfolio.cash,
      o.totals.trips.gross, o.totals.trips.net, SumUnrealized(portfolio.positions),
      o.totals.fees, o.totals.slippage, c.start <= k.time <= c.end)
  }

  function CostsFor(a: Account): CostBounds { CostBounds(a.feeBps, a.slippageBps) }

  predicate Future(k: Tick)
  {
    k.snapshot.Some? && exists b :: b in k.snapshot.value.bars && b.availableAt > k.time
  }

  function Concluded(setup: Setup, s: RunState, k: Tick, o: Opening, mark: Option<MarketMark>, account: Account): Outcome<RunState>
    requires ValidTick(k) && setup.config.cadence >= 1
  {
    if PublicOf(account).None? then Raised(InvalidState)
    else
      var decided := DecideAt(setup, k, s.decisions, PublicOf(account).value, CostsFor(account));
      if decided.Raised? then Raised(decided.error)
      else Fine(RunState(
        account, o.totals, if decided.value.queued.Some? then decided.value.queued else o.pending, mark,
        if Eligible(setup.config, k) then s.decisions + 1 else s.decisions,
        s.events + [EventOf(setup.config, k, |s.events|, o, PublicOf(account).value, decided.value)]))
  }

  ghost predicate WellFormed(s: RunState)
  {
    s.pending.Some? ==> ValidOrder(s.pending.value)
  }

  function StepAt(setup: Setup, s: RunState, k: Tick): (r: Outcome<RunState>)
    requires s.pending.Some? ==> ValidOrder(s.pending.value)
    requires ValidTick(k) && setup.config.cadence >= 1
  {
    var phase := AtOpening(setup.config, s, k);
    if phase.Raised? then Raised(phase.error)
    else if Future(k) then Raised(FutureObservation)
    else
      var mark := SelectMark(setup.config, s.mark, k);
      var marked := MarkAccount(phase.value.account, mark, k.time);
      if marked.Raised? then Raised(marked.error)
      else Concluded(setup, s, k, phase.value, mark, marked.value)
  }

  lemma QueuedOrderIsValid(setup: Setup, k: Tick, decisions: nat, portfolio: Portfolio, costs: CostBounds)
    requires ValidTick(k) && setup.config.cadence >= 1
    ensures var d := DecideAt(setup, k, decisions, portfolio, costs);
      d.Fine? && d.value.queued.Some? ==> ValidOrder(d.value.queued.value)
  {
    hide Evaluate, Aggregate, ValidOrder;
  }

  lemma StepKeepsWellFormed(setup: Setup, s: RunState, k: Tick)
    requires WellFormed(s) && ValidTick(k) && setup.config.cadence >= 1
    ensures StepAt(setup, s, k).Fine? ==> WellFormed(StepAt(setup, s, k).value)
  {
    hide DecideAt, ValidOrder, Executed, AfterExecution, MarkAccount, SelectMark, PublicOf, EventOf, ValidTick;
    var phase := AtOpening(setup.config, s, k);
    if phase.Fine? {
      PendingAfterOpening(setup.config, s, k);
      var mark := SelectMark(setup.config, s.mark, k);
      var marked := MarkAccount(phase.value.account, mark, k.time);
      if marked.Fine? && PublicOf(marked.value).Some? {
        QueuedOrderIsValid(setup, k, s.decisions, PublicOf(marked.value).value, CostsFor(marked.value));
      }
    }
  }

  lemma PendingAfterOpening(c: BacktestConfig, s: RunState, k: Tick)
    requires WellFormed(s)
    ensures AtOpening(c, s, k).Fine? ==>
      AtOpening(c, s, k).value.pending == if k.open.Some? then None else s.pending
  {
    hide Executed, ReconcileReasons, WithFill, ValidOrder;
  }

  // ---- the whole run ----

  predicate AllValid(ticks: seq<Tick>)
  {
    forall i :: 0 <= i < |ticks| ==> ValidTick(ticks[i])
  }

  function RunTicks(setup: Setup, s: RunState, ticks: seq<Tick>): (r: Outcome<RunState>)
    requires s.pending.Some? ==> ValidOrder(s.pending.value)
    requires AllValid(ticks) && setup.config.cadence >= 1
    ensures r.Fine? && r.value.pending.Some? ==> ValidOrder(r.value.pending.value)
  {
    if ticks == [] then Fine(s)
    else
      var n := |ticks| - 1;
      var before := RunTicks(setup, s, ticks[..n]);
      if before.Raised? then before
      else
        StepKeepsWellFormed(setup, before.value, ticks[n]);
        StepAt(setup, before.value, ticks[n])
  }

  function NewRun(c: BacktestConfig, openedAt: int): RunState
  {
    RunState(Account(c.startingCash, map[], openedAt, {}, c.feeBps, c.slippageBps), Totals(NO_TRIPS, 0.0, 0.0), None, None, 0, [])
  }

  /** What the source's snapshot of the whole history demands of its bars, one by one and among
      themselves. It also demands that each was available by the cutoff the history was requested with;
      the replay never reads that cutoff, so its theorems are about any history in this form. */
  ghost predicate ValidHistory(bars: seq<Bar>)
  {
    && bars != []
    && (forall i :: 0 <= i < |bars| ==> ValidBar(bars[i]))
    && (forall i, j :: 0 <= i < j < |bars| ==> bars[i].closedAt <= bars[j].openedAt)
  }

  function Replay(setup: Setup, bars: seq<Bar>): Outcome<RunState>
    requires ValidHistory(bars) && setup.config.cadence >= 1
  {
    var times := EventTimes(setup.config, bars);
    TicksAreValid(setup.config, bars, times);
    RunTicks(setup, NewRun(setup.config, bars[0].openedAt), TicksAt(setup.config, bars, times))
  }

  /** The replay before its event `n`: what its first `n` events make of a new run. */
  function ReplayTo(setup: Setup, bars: seq<Bar>, n: nat): Outcome<RunState>
    requires ValidHistory(bars) && setup.config.cadence >= 1 && n <= |EventTimes(setup.config, bars)|
  {
    var times := EventTimes(setup.config, bars);
    TicksAreValid(setup.config, bars, times);
    RunTicks(setup, NewRun(setup.config, bars[0].openedAt), TicksAt(setup.config, bars, times)[..n])
  }

  predicate Increasing(times: seq<int>)
  {
    forall i :: 0 <= i < |times| - 1 ==> times[i] < times[i + 1]
  }

  // ---- the summary after the loop ----

  /** The starting cash, then the equity of every measured event. */
  function EquityCurve(startingCash: real, events: seq<LedgerEvent>): (curve: seq<real>)
    ensures |curve| > 0 && curve[0] == startingCash
  {
    if events == [] then [startingCash]
    else
      var e := events[|events| - 1];
      EquityCurve(startingCash, events[..|events| - 1]) + if e.measured then [e.portfolio.equity] else []
  }

  function ExposureOf(p: Portfolio): real
  {
    if p.equity == 0.0 then 0.0 else p.GrossExposure() / p.equity
  }

  /** The gross exposure of every measured event, as a fraction of its equity. */
  function ExposureSamples(events: seq<LedgerEvent>): seq<real>
  {
    if events == [] then []
    else
      var e := events[|events| - 1];
      ExposureSamples(events[..|events| - 1]) + if e.measured then [ExposureOf(e.portfolio)] else []
  }

  function SumOf(values: seq<real>): real
  {
    if values == [] then 0.0 else SumOf(values[..|values| - 1]) + values[|values| - 1]
  }

  function AverageOf(values: seq<real>): real
  {
    if values == [] then 0.0 else SumOf(values) / (|values| as real)
  }

  /** What an event's fill adds to the traded notional. */
  function TradedBy(e: LedgerEvent): real
  {
    if e.report.Some? && e.report.value.outcome.Filled? then e.report.value.quantity * e.report.value.outcome.fillPrice else 0.0
  }

  function Traded(events: seq<LedgerEvent>): real
  {
    if events == [] then 0.0 else Traded(events[..|events| - 1]) + TradedBy(events[|events| - 1])
  }

  /** The measures whose contract is a range. */
  datatype Metrics = Metrics(drawdown: real, averageExposure: real, fees: real, slippage: real, turnover: real)

  predicate ValidMetrics(m: Metrics)
  {
    0.0 <= m.drawdown <= 1.0 && m.averageExposure >= 0.0 && m.fees >= 0.0 && m.slippage >= 0.0 && m.turnover >= 0.0
  }

  function MetricsOf(startingCash: real, s: RunState): Metrics
    requires startingCash > 0.0
  {
    Metrics(Drawdown.After(EquityCurve(startingCash, s.events)).drawdown, AverageOf(ExposureSamples(s.events)),
            s.totals.fees, s.totals.slippage, Traded(s.events) / startingCash)
  }

  /** What follows the loop: no order may be left, some bar must be available at the end for the
      benchmark, and the measures must meet their contract. */
  function Summarized(c: BacktestConfig, bars: seq<Bar>, s: RunState): Outcome<RunState>
  {
    if s.pending.Some? then Raised(Unprocessed)
    else if Visible(bars, c.end) == [] then Raised(NoEndSnapshot)
    else if c.startingCash <= 0.0 || !ValidMetrics(MetricsOf(c.startingCash, s)) then Raised(InvalidMetrics)
    else Fine(s)
  }

  /** The source's `run`: the checks on the history, the replay, the summary. */
  function Backtest(setup: Setup, bars: seq<Bar>, coverageComplete: bool): Outcome<RunState>
    requires ValidHistory(bars) && setup.config.cadence >= 1
  {
    if !coverageComplete then Raised(IncompleteCoverage)
    else if !OpensAt(bars, setup.config.start) then Raised(StartUnaligned)
    else if !OpensAt(bars, setup.config.end) then Raised(EndUnaligned)
    else if !Increasing(EventTimes(setup.config, bars)) then Raised(NonMonotonic)
    else
      var r := Replay(setup, bars);
      if r.Raised? then r else Summarized(setup.config, bars, r.value)
  }

  /** A backtest that finishes is its replay, with nothing left queued. */
  lemma FinishedIsReplay(setup: Setup, bars: seq<Bar>)
    requires ValidHistory(bars) && setup.config.cadence >= 1 && Backtest(setup, bars, true).Fine?
    ensures Replay(setup, bars) == Backtest(setup, bars, true) && Backtest(setup, bars, true).value.pending.None?
    ensures OpensAt(bars, setup.config.start) && OpensAt(bars, setup.config.end)
  {
    hide Replay, ValidHistory, EventTimes, ValidMetrics, MetricsOf, Visible;
  }

  lemma {:induction false} OpenIsPositive(bars: seq<Bar>, t: int)
    requires forall b :: b in bars ==> ValidBar(b)
    ensures OpenAt(bars, t).Some? ==> OpenAt(bars, t).value > 0.0
  {
    if bars != [] {
      assert bars[|bars| - 1] in bars;
      OpenIsPositive(bars[..|bars| - 1], t);
    }
  }

  lemma TickIsValid(c: BacktestConfig, bars: seq<Bar>, t: int)
    requires ValidHistory(bars)
    ensures ValidTick(TickAt(c, bars, t))
  {
    hide ValidBar;
    forall b | b in bars
      ensures ValidBar(b)
    {
      var i :| 0 <= i < |bars| && bars[i] == b;
      assert ValidBar(bars[i]);
    }
    OpenIsPositive(bars, t);
    var visible := Visible(bars, t);
    assert visible != [] ==> visible[|visible| - 1] in visible;
  }

  lemma TicksAreValid(c: BacktestConfig, bars: seq<Bar>, times: seq<int>)
    requires ValidHistory(bars)
    ensures AllValid(TicksAt(c, bars, times))
  {
    forall i | 0 <= i < |times|
      ensures ValidTick(TicksAt(c, bars, times)[i])
    {
      TickIsValid(c, bars, times[i]);
    }
  }

  // ---- the source's loop ----

  /** The first part of the loop body: an open order meets an opening. */
  method ExecutePending(c: BacktestConfig, execution: PaperExecutionAdapter, outcomes: RoundTripOutcomes, pending: Option<ApprovedOrder>, k: Tick, fees: real, slippage: real, ghost s: RunState)
    returns (failed: Option<EngineError>, left: Option<ApprovedOrder>, report: Option<ExecutionReport>,
             reconciliation: Option<seq<Reason>>, lifecycle: seq<OrderRecord>, newFees: real, newSlippage: real)
    requires WellFormed(s) && s.pending == pending
    requires s.account == execution.State() && s.totals == Totals(outcomes.State(), fees, slippage)
    modifies execution, outcomes
    ensures failed.Some? == AtOpening(c, s, k).Raised? && (failed.Some? ==> AtOpening(c, s, k) == Raised(failed.value))
    ensures failed.None? ==> AtOpening(c, s, k) == Fine(Opening(
      execution.State(), Totals(outcomes.State(), newFees, newSlippage), left, report, reconciliation, lifecycle))
  {
    hide Executed, ReconcileReasons, ValidOrder, Applied, BuildState;
    failed, left, report, reconciliation, lifecycle, newFees, newSlippage := None, pending, None, None, [], fees, slippage;
    if pending.Some? && k.open.Some? {
      if k.time <= pending.value.authorizedAt {
        failed := Some(NonFutureOpening);
        return;
      }
      OrderIsPositive(pending.value);
      var before := PublicOf(execution.State());
      report := execution.Execute(pending.value, OpeningFor(c, k.time, k.open.value), pending.value.authorizedAt);
      var after := PublicOf(execution.State());
      if before.None? || after.None? {
        failed := Some(InvalidState);
        return;
      }
      if report.None? {
        failed := Some(CommitRaised);
        return;
      }
      if report.value.outcome.Rejected? {
        lifecycle := [RecordOf(RejectedStatus, k.time, pending.value)];
      } else {
        var compliant, reasons := Reconcile(c.risk, pending.value, report.value, before.value, after.value);
        if reasons != [] {
          failed := Some(NonCompliant(reasons));
          return;
        }
        var cost := report.value.quantity * Abs(report.value.outcome.fillPrice - k.open.value);
        outcomes.Apply(pending.value, k.open.value, report.value.fee, cost);
        newFees, newSlippage := fees + report.value.fee, slippage + cost;
        reconciliation := Some(reasons);
        lifecycle := [RecordOf(FilledStatus, k.time, pending.value)];
      }
      left := None;
    }
  }

  lemma OrderIsPositive(o: ApprovedOrder)
    requires ValidOrder(o)
    ensures o.quantity > 0.0 && o.referencePrice > 0.0
  {
  }

  /** The source's loop over the agents. */
  method CollectSignals(agents: seq<Snapshot -> Signal>, snapshot: Snapshot)
    returns (signals: seq<Signal>)
    ensures signals == SignalsOf(agents, snapshot)
  {
    signals := [];
    for i := 0 to |agents|
      invariant signals == SignalsOf(agents[..i], snapshot)
    {
      assert agents[..i + 1][..i] == agents[..i];
      signals := signals + [agents[i](snapshot)];
    }
    assert agents[..|agents|] == agents;
  }

  /** The decision part of the loop body. */
  method MakeDecision(setup: Setup, k: Tick, decisions: nat, portfolio: Portfolio, costs: CostBounds)
    returns (r: Outcome<Deciding>)
    requires ValidTick(k) && setup.config.cadence >= 1
    ensures r == DecideAt(setup, k, decisions, portfolio, costs)
  {
    hide Evaluate, Aggregate, ValidOrder;
    if !ShouldDecide(setup.config, k, decisions) {
      return Fine(NO_DECISION);
    }
    var snapshot := k.snapshot.value;
    var signals := CollectSignals(setup.agents, snapshot);
    if exists s :: s in signals && s.generatedAt > k.time {
      return Raised(FutureSignal);
    }
    var aggregation := Aggregate(setup.config.council, snapshot, signals);
    if aggregation.Refused? {
      return Raised(CouncilRaised(aggregation.error));
    }
    var d := aggregation.decision;
    var lifecycle := if Actionable(d.action) then [OrderRecord(Proposed, k.time, d.id, d.source, None)] else [];
    var risk := Evaluate(setup.config.risk, d, snapshot, setup.volatility(snapshot), portfolio, costs, k.time);
    var queued := None;
    if risk.Approved? {
      if !ValidOrder(risk.order) {
        return Raised(InvalidOrder);
      }
      queued := Some(risk.order);
      lifecycle := lifecycle + [RecordOf(Authorized, k.time, risk.order), RecordOf(Queued, k.time, risk.order)];
    } else if Actionable(d.action) {
      lifecycle := lifecycle + [OrderRecord(RejectedStatus, k.time, d.id, d.source, None)];
    }
    assert lifecycle == ProposalOf(d, k.time) + VerdictRecords(d, risk, k.time);
    return Fine(Deciding(signals, Some(d), Some(risk), queued, lifecycle));
  }

  /** What marking and executing rely on. */
  ghost predicate Sound(s: RunState)
  {
    && WellFormed(s) && ValidAccount(s.account)
    && (s.mark.Some? ==> s.mark.value.price > 0.0)
  }

  lemma SelectedIsPositive(c: BacktestConfig, current: Option<MarketMark>, k: Tick)
    requires ValidTick(k) && (current.Some? ==> current.value.price > 0.0)
    ensures SelectMark(c, current, k).Some? ==> SelectMark(c, current, k).value.price > 0.0
  {
  }

  lemma OpeningKeepsAccount(c: BacktestConfig, s: RunState, k: Tick)
    requires Sound(s)
    ensures AtOpening(c, s, k).Fine? ==> ValidAccount(AtOpening(c, s, k).value.account)
  {
    hide Executed, ReconcileReasons, WithFill, ValidAccount, PublicOf;
    if s.pending.Some? && k.open.Some? {
      var order := s.pending.value;
      OrderIsPositive(order);
      ExecutionKeepsAccount(s.account, order, OpeningFor(c, k.time, k.open.value), order.authorizedAt);
    }
  }

  lemma MarkingKeepsAccount(a: Account, mark: Option<MarketMark>, t: int)
    requires ValidAccount(a) && (mark.Some? ==> mark.value.price > 0.0)
    ensures MarkAccount(a, mark, t).Fine? ==> ValidAccount(MarkAccount(a, mark, t).value)
  {
    if MarkAccount(a, mark, t).Fine? {
      var b := MarkAccount(a, mark, t).value;
      forall s | s in b.positions
        ensures ValidPaperPosition(b.positions[s]) && Abs(b.positions[s].quantity) > QUANTITY_TOLERANCE
      {
        assert b.positions[s] == MarkedPosition(a.positions[s], ObservationOf(ObservationsFor(a, mark), s).value);
      }
    }
  }

  lemma ConcludingKeeps(setup: Setup, s: RunState, k: Tick, o: Opening, mark: Option<MarketMark>, account: Account)
    requires ValidTick(k) && setup.config.cadence >= 1
    ensures Concluded(setup, s, k, o, mark, account).Fine? ==>
      var r := Concluded(setup, s, k, o, mark, account).value;
      r.account == account && r.mark == mark && r.totals == o.totals
  {
    hide DecideAt, PublicOf, EventOf;
  }

  lemma StepKeepsSound(setup: Setup, s: RunState, k: Tick)
    requires Sound(s) && ValidTick(k) && setup.config.cadence >= 1
    ensures StepAt(setup, s, k).Fine? ==> Sound(StepAt(setup, s, k).value)
  {
    hide AtOpening, SelectMark, MarkAccount, Concluded, ValidAccount, ValidTick, Future;
    StepKeepsWellFormed(setup, s, k);
    var phase := AtOpening(setup.config, s, k);
    if phase.Fine? {
      OpeningKeepsAccount(setup.config, s, k);
      SelectedIsPositive(setup.config, s.mark, k);
      var mark := SelectMark(setup.config, s.mark, k);
      MarkingKeepsAccount(phase.value.account, mark, k.time);
      var marked := MarkAccount(phase.value.account, mark, k.time);
      if marked.Fine? {
        ConcludingKeeps(setup, s, k, phase.value, mark, marked.value);
      }
    }
  }

  /** The marking part of the loop body. */
  method MarkNow(execution: PaperExecutionAdapter, mark: Option<MarketMark>, t: int)
    returns (failed: Option<EngineError>)
    requires ValidAccount(execution.State()) && (mark.Some? ==> mark.value.price > 0.0)
    modifies execution
    ensures failed.Some? ==> MarkAccount(old(execution.State()), mark, t) == Raised(failed.value)
    ensures failed.None? ==> MarkAccount(old(execution.State()), mark, t) == Fine(execution.State())
  {
    hide Marked, ValidAccount, CanMark;
    if execution.positions != map[] && mark.None? {
      return Some(CannotMark);
    }
    var observations := [];
    if execution.positions != map[] && mark.Some? {
      observations := [PriceObservation(mark.value.symbol, mark.value.price, mark.value.availableAt)];
    }
    assert observations == ObservationsFor(execution.State(), mark);
    var ok := execution.MarkToMarket(observations, t);
    return if ok then None else Some(MarkRaised);
  }

  /** One pass through the loop body. */
  method Advance(
    setup: Setup, execution: PaperExecutionAdapter, outcomes: RoundTripOutcomes, pending: Option<ApprovedOrder>,
    mark: Option<MarketMark>, decisions: nat, fees: real, slippage: real, events: seq<LedgerEvent>, k: Tick, ghost s: RunState)
    returns (failed: Option<EngineError>, newPending: Option<ApprovedOrder>, newMark: Option<MarketMark>, newDecisions: nat,
             newFees: real, newSlippage: real, newEvents: seq<LedgerEvent>)
    requires Sound(s) && ValidTick(k) && setup.config.cadence >= 1
    requires s == RunState(execution.State(), Totals(outcomes.State(), fees, slippage), pending, mark, decisions, events)
    modifies execution, outcomes
    ensures failed.Some? ==> StepAt(setup, s, k) == Raised(failed.value)
    ensures failed.None? ==> StepAt(setup, s, k) == Fine(RunState(
      execution.State(), Totals(outcomes.State(), newFees, newSlippage), newPending, newMark, newDecisions, newEvents))
  {
    hide AtOpening, SelectMark, MarkAccount, DecideAt, PublicOf, EventOf, ValidAccount, Future, ValidTick, ValidOrder;
    newMark, newDecisions, newEvents := mark, decisions, events;
    var left, report, reconciliation, lifecycle;
    failed, left, report, reconciliation, lifecycle, newFees, newSlippage :=
      ExecutePending(setup.config, execution, outcomes, pending, k, fees, slippage, s);
    newPending := left;
    if failed.Some? {
      return;
    }
    if Future(k) {
      failed := Some(FutureObservation);
      return;
    }
    ghost var phase := AtOpening(setup.config, s, k).value;
    OpeningKeepsAccount(setup.config, s, k);
    SelectedIsPositive(setup.config, mark, k);
    newMark := SelectMark(setup.config, mark, k);
    failed := MarkNow(execution, newMark, k.time);
    if failed.Some? {
      return;
    }
    var portfolio := PublicOf(execution.State());
    if portfolio.None? {
      failed := Some(InvalidState);
      return;
    }
    var decided := MakeDecision(setup, k, decisions, portfolio.value, execution.CostBounds());
    if decided.Raised? {
      failed := Some(decided.error);
      return;
    }
    if Eligible(setup.config, k) {
      newDecisions := decisions + 1;
    }
    if decided.value.queued.Some? {
      newPending := decided.value.queued;
    }
    var now := Opening(execution.State(), Totals(outcomes.State(), newFees, newSlippage), left, report, reconciliation, lifecycle);
    newEvents := events + [EventOf(setup.config, k, |events|, now, portfolio.value, decided.value)];
    SameEvent(setup.config, k, |events|, now, phase, portfolio.value, decided.value);
  }

  lemma SameEvent(c: BacktestConfig, k: Tick, n: nat, a: Opening, b: Opening, portfolio: Portfolio, d: Deciding)
    requires a.totals == b.totals && a.report == b.report && a.reconciliation == b.reconciliation && a.lifecycle == b.lifecycle
    ensures EventOf(c, k, n, a, portfolio, d) == EventOf(c, k, n, b, portfolio, d)
  {
  }

  lemma StepAddsOneEvent(setup: Setup, s: RunState, k: Tick)
    requires WellFormed(s) && ValidTick(k) && setup.config.cadence >= 1
    ensures StepAt(setup, s, k).Fine? ==>
      var r := StepAt(setup, s, k).value;
      |r.events| == |s.events| + 1 && r.events[..|s.events|] == s.events
      && r.events[|s.events|].time == k.time && r.events[|s.events|].sequence == |s.events|
  {
    hide AtOpening, SelectMark, MarkAccount, DecideAt, PublicOf, Future, ValidOrder;
  }

  /** The measures' own checks, on what the loop has collected. */
  method Summarize(c: BacktestConfig, curve: seq<real>, exposures: seq<real>, fees: real, slippage: real, traded: real)
    returns (ok: bool)
    requires |curve| > 0 && curve[0] == c.startingCash
    ensures ok <==> c.startingCash > 0.0 && ValidMetrics(Metrics(
      Drawdown.After(curve).drawdown, AverageOf(exposures), fees, slippage, traded / c.startingCash))
  {
    var started, drawdown := Drawdown.MaximumDrawdown(curve);
    if !started {
      return false;
    }
    var sum := 0.0;
    for i := 0 to |exposures|
      invariant sum == SumOf(exposures[..i])
    {
      assert exposures[..i + 1][..i] == exposures[..i];
      sum := sum + exposures[i];
    }
    assert exposures[..|exposures|] == exposures;
    var average := if exposures == [] then 0.0 else sum / (|exposures| as real);
    return ValidMetrics(Metrics(drawdown, average, fees, slippage, traded / c.startingCash));
  }

  /** The source's `run`, from the history it was given to the measures it reports. */
  method Run(setup: Setup, bars: seq<Bar>, coverageComplete: bool)
    returns (result: Outcome<RunState>)
    requires ValidHistory(bars) && ValidConfig(setup.config)
    ensures result == Backtest(setup, bars, coverageComplete)
  {
    hide StepAt, ValidHistory, ValidTick, EventTimes, ValidCouncilConfig, ValidPolicy, ValidOrder, OpensAt, Increasing, ExposureOf,
         TradedBy, AverageOf, ValidMetrics, Drawdown.After, Visible;
    var c := setup.config;
    if !coverageComplete {
      return Raised(IncompleteCoverage);
    }
    if !OpensAt(bars, c.start) {
      return Raised(StartUnaligned);
    }
    if !OpensAt(bars, c.end) {
      return Raised(EndUnaligned);
    }
    var times := EventTimes(c, bars);
    if !Increasing(times) {
      return Raised(NonMonotonic);
    }
    TicksAreValid(c, bars, times);
    HistoryStarts(bars);
    var ticks := TicksAt(c, bars, times);
    var execution := new PaperExecutionAdapter(c.startingCash, bars[0].openedAt, c.slippageBps, c.feeBps);
    var outcomes := new RoundTripOutcomes();
    var pending, mark, decisions, fees, slippage, events := None, None, 0, 0.0, 0.0, [];
    var curve, exposures, traded := [c.startingCash], [], 0.0;
    ghost var start := NewRun(c, bars[0].openedAt);
    ghost var s := start;
    for i := 0 to |ticks|
      invariant s == RunState(execution.State(), Totals(outcomes.State(), fees, slippage), pending, mark, decisions, events)
      invariant Sound(s) && RunTicks(setup, start, ticks[..i]) == Fine(s)
      invariant curve == EquityCurve(c.startingCash, events) && exposures == ExposureSamples(events) && traded == Traded(events)
      invariant fresh(execution) && fresh(outcomes)
    {
      assert ticks[..i + 1][..i] == ticks[..i];
      var failed;
      StepKeepsSound(setup, s, ticks[i]);
      StepAddsOneEvent(setup, s, ticks[i]);
      failed, pending, mark, decisions, fees, slippage, events :=
        Advance(setup, execution, outcomes, pending, mark, decisions, fees, slippage, events, ticks[i], s);
      if failed.Some? {
        RaisedForGood(setup, start, ticks, i + 1);
        return Raised(failed.value);
      }
      s := RunState(execution.State(), Totals(outcomes.State(), fees, slippage), pending, mark, decisions, events);
      var event := events[|events| - 1];
      traded := traded + TradedBy(event);
      if event.measured {
        curve := curve + [event.portfolio.equity];
        exposures := exposures + [ExposureOf(event.portfolio)];
      }
    }
    assert ticks[..|ticks|] == ticks;
    if pending.Some? {
      return Raised(Unprocessed);
    }
    if Visible(bars, c.end) == [] {
      return Raised(NoEndSnapshot);
    }
    var ok := Summarize(c, curve, exposures, fees, slippage, traded);
    if !ok {
      return Raised(InvalidMetrics);
    }
    return Fine(RunState(execution.State(), Totals(outcomes.State(), fees, slippage), pending, mark, decisions, events));
  }

  lemma HistoryStarts(bars: seq<Bar>)
    requires ValidHistory(bars)
    ensures |bars| > 0
  {
  }

  /** Once a step has raised, so has every longer run. */
  lemma {:induction false} RaisedForGood(setup: Setup, s: RunState, ticks: seq<Tick>, n: nat)
    requires WellFormed(s) && AllValid(ticks) && setup.config.cadence >= 1 && n <= |ticks|
    requires RunTicks(setup, s, ticks[..n]).Raised?
    ensures RunTicks(setup, s, ticks) == RunTicks(setup, s, ticks[..n])
    decreases |ticks| - n
  {
    hide StepAt, ValidTick, ValidOrder;
    if n == |ticks| {
      assert ticks[..n] == ticks;
    } else {
      assert ticks[..n + 1][..n] == ticks[..n];
      RaisedForGood(setup, s, ticks, n + 1);
    }
  }
}
