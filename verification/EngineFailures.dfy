/** Replays that cannot finish: for each error a backtest can still meet, a history that meets it. */
module EngineFailures {
  import opened Sequences
  import opened Trading
  import opened Paper
  import opened Governor
  import opened Council
  import opened Outcomes
  import opened OrderFlow
  import opened OpeningGaps
  import opened Engine
  import opened EngineSummary
  import opened EngineSchedule
  import EngineCausality
  import Quality

  // ---- nothing published by the end ----

  lemma QuietStep(setup: Setup, s: RunState, k: Tick)
    requires ValidConfig(setup.config) && ReadyFor(setup.config, s, k.time) && WellTimed(setup.config, k)
    requires s.pending.None? && k.snapshot.None?
    ensures WellFormed(s) && ValidTick(k) && setup.config.cadence >= 1
    ensures StepAt(setup, s, k).Fine? && StepAt(setup, s, k).value.pending.None?
  {
    hide SelectMark, MarkAccount, PublicOf, Future, AccountReady, OrderReady, WellTimed, EventOf, ValidConfig, ValidOrder,
         CurrentQuantity, Executed;
    var c := setup.config;
    NoFuture(c, k);
    CadenceIsPositive(c);
    SelectionIsReady(c, s.mark, k);
    var mark := SelectMark(c, s.mark, k);
    MarkingIsSafe(c, s.account, mark, k.time);
    ReadyIsPublic(c, MarkAccount(s.account, mark, k.time).value, k.time);
  }

  lemma {:induction false} QuietRun(setup: Setup, s: RunState, ticks: seq<Tick>)
    requires ValidConfig(setup.config) && TimedRun(setup.config, ticks) && s.pending.None?
    requires ticks != [] ==> ReadyFor(setup.config, s, ticks[0].time)
    requires forall i :: 0 <= i < |ticks| ==> ticks[i].snapshot.None?
    ensures AllValid(ticks) && setup.config.cadence >= 1
    ensures RunTicks(setup, s, ticks).Fine? && RunTicks(setup, s, ticks).value.pending.None?
    decreases |ticks|
  {
    hide StepAt, ReadyFor, ValidTick, ValidOrder, ValidConfig, WellTimed;
    CadenceIsPositive(setup.config);
    TimedIsValid(setup.config, ticks);
    if ticks != [] {
      var n := |ticks| - 1;
      assert n > 0 ==> ticks[..n][0] == ticks[0] && ticks[..n][n - 1].time < ticks[n].time;
      QuietRun(setup, s, ticks[..n]);
      RunIsSafe(setup, s, ticks[..n], ticks[n].time);
      QuietStep(setup, RunTicks(setup, s, ticks[..n]).value, ticks[n]);
    }
  }

  lemma NothingVisible(c: BacktestConfig, bars: seq<Bar>)
    requires !SomethingAvailable(bars, c.end)
    ensures var ticks := TicksAt(c, bars, EventTimes(c, bars));
      forall i :: 0 <= i < |ticks| ==> ticks[i].snapshot.None?
  {
    hide EventTimes, OpenAt, Visible, SomethingAvailable;
    var times := EventTimes(c, bars);
    forall i | 0 <= i < |times|
      ensures SnapshotAt(c, bars, times[i]).None?
    {
      assert times[i] in times;
      EngineCausality.EventTimesMean(c, bars, times[i]);
      NotYetAvailable(bars, times[i], c.end);
      VisibleMeans(bars, times[i]);
    }
  }

  lemma NotYetAvailable(bars: seq<Bar>, t: int, later: int)
    requires t <= later && !SomethingAvailable(bars, later)
    ensures !SomethingAvailable(bars, t)
  {
  }

  /** Complete, aligned history none of whose bars is available by the end never finishes, whatever
      the agents would have said. */
  lemma UnpublishedHistoryStops(setup: Setup, bars: seq<Bar>)
    requires ValidConfig(setup.config) && ValidHistory(bars)
    requires OpensAt(bars, setup.config.start) && OpensAt(bars, setup.config.end)
    requires !SomethingAvailable(bars, setup.config.end)
    ensures setup.config.cadence >= 1 && Backtest(setup, bars, true) == Raised(NoEndSnapshot)
  {
    hide RunTicks, EventTimes, ValidHistory, TimedRun, ReadyFor, TickAt, OpensAt, ValidConfig, Backtest, NeverNegative, SomethingAvailable;
    var c := setup.config;
    CadenceIsPositive(c);
    OnlyTolerableErrors(setup, bars);
    ReplayIsTimed(c, bars);
    NothingVisible(c, bars);
    QuietRun(setup, NewRun(c, bars[0].openedAt), TicksAt(c, bars, EventTimes(c, bars)));
  }

  /** A bar that is published late. */
  function LateBar(openedAt: int, availableAt: int): Bar
  {
    Bar(openedAt, openedAt + 1, availableAt, 100.0, 100.0, 100.0, 100.0, 1.0)
  }

  function LateHistory(start: int): seq<Bar> { [LateBar(start, start + 2), LateBar(start + 1, start + 2)] }

  /** There is such a history, wherever the evaluation starts: two bars tile the requested range, and
      both are published an interval after its end, within the cutoff of the request. */
  lemma LateHistoryIsComplete(start: int)
    ensures var bars := LateHistory(start);
      && ValidHistory(bars) && Quality.Tiles(bars, 1, Quality.ReplayWindow(1, 0, start, start + 1))
      && OpensAt(bars, start) && OpensAt(bars, start + 1) && !SomethingAvailable(bars, start + 1)
  {
    var bars := LateHistory(start);
    assert bars[0] in bars && bars[1] in bars;
  }

  // ---- a short position that is squeezed ----

  function ShortSignal(snapshot: Snapshot): Signal
  {
    Signal(1, 1, Alpha, snapshot.symbol, snapshot.timeframe, snapshot.Id(), snapshot.asOf, Short, Some(-0.01), Some(-1.0),
           TargetExposure, ValidSignal, 1.0, 1, snapshot.observedAt, snapshot.observedAt + 9, None)
  }

  /** One agent that always wants to be short; every second eligible event decides. */
  function ShortSetup(): Setup
  {
    Setup(BacktestConfig(1, 1, 1, 3, 100.0, 0.0, 0.0, CouncilConfig(map[], 0.0, 0.0), HALF_POLICY, 2),
          [snapshot => ShortSignal(snapshot)], _ => Some(0.1))
  }

  function FlatBar(openedAt: int, price: real): Bar
  {
    Bar(openedAt, openedAt + 1, openedAt + 1, price, price, price, price, 1.0)
  }

  /** The order of the first decision meets `fill`; the run ends at `last`. */
  function ShortHistory(fill: real, last: real): seq<Bar>
  {
    [FlatBar(0, 100.0), FlatBar(1, 100.0), FlatBar(2, fill), FlatBar(3, last)]
  }

  function ShortTicks(fill: real, last: real): (r: seq<Tick>)
    ensures |r| == 4 && r[0] == Tick(0, None, Some(100.0)) && r[1] == Tick(1, Some(ONE_SNAPSHOT), Some(100.0))
  {
    var bars := ShortHistory(fill, last);
    [Tick(0, None, Some(100.0)), Tick(1, Some(ONE_SNAPSHOT), Some(100.0)),
     Tick(2, Some(Snapshot(1, 1, 2, 2, bars[..2])), Some(fill)), Tick(3, Some(Snapshot(1, 1, 3, 3, bars[..3])), Some(last))]
  }

  lemma ShortHistoryIsComplete(fill: real, last: real)
    requires fill > 0.0 && last > 0.0
    ensures var bars := ShortHistory(fill, last);
      && ValidHistory(bars) && Quality.Tiles(bars, 1, Quality.ReplayWindow(1, 1, 1, 3))
      && OpensAt(bars, 1) && OpensAt(bars, 3) && SomethingAvailable(bars, 3)
  {
    var bars := ShortHistory(fill, last);
    assert bars[0] in bars && bars[1] in bars && bars[3] in bars;
  }

  lemma ShortSetupIsValid(bars: seq<Bar>)
    ensures ValidConfig(ShortSetup().config) && AgentsBehave(ShortSetup(), bars)
  {
    forall snapshot: Snapshot
      ensures WellAnswered(ShortSetup().agents, snapshot)
    {
      var signals := SignalsOf(ShortSetup().agents, snapshot);
      assert signals == [ShortSignal(snapshot)];
      assert AgentIds(signals) == {1};
    }
  }

  lemma ShortTimes(fill: real, last: real)
    ensures EventTimes(ShortSetup().config, ShortHistory(fill, last)) == [0, 1, 2, 3]
  {
    var c, bars := ShortSetup().config, ShortHistory(fill, last);
    hide EventTimes;
    EngineCausality.EventTimesMean(c, bars, 0);
    assert bars[0] in bars && bars[1] in bars && bars[2] in bars && bars[3] in bars;
    forall u
      ensures u in EventTimes(c, bars) <==> u in [0, 1, 2, 3]
    {
      EngineCausality.EventTimesMean(c, bars, u);
    }
    SortedUnique(EventTimes(c, bars), [0, 1, 2, 3], Below);
  }

  lemma ShortVisible(fill: real, last: real, t: int)
    requires 0 <= t <= 3
    ensures Visible(ShortHistory(fill, last), t) == ShortHistory(fill, last)[..t]
  {
    FilterPrefix(ShortHistory(fill, last), AvailableBy(t), t);
  }

  lemma ShortTicksAre(fill: real, last: real)
    ensures var c, bars := ShortSetup().config, ShortHistory(fill, last);
      TicksAt(c, bars, EventTimes(c, bars)) == ShortTicks(fill, last)
  {
    hide EventTimes, Visible;
    var c, bars := ShortSetup().config, ShortHistory(fill, last);
    ShortTimes(fill, last);
    ShortVisible(fill, last, 0);
    ShortVisible(fill, last, 1);
    ShortVisible(fill, last, 2);
    ShortVisible(fill, last, 3);
    assert bars[..1] == [ONE_BAR];
    ShortOpens(fill, last);
  }

  lemma ShortOpens(fill: real, last: real)
    ensures var bars := ShortHistory(fill, last);
      && OpenAt(bars, 0) == OpenAt(bars, 1) == Some(100.0) && OpenAt(bars, 2) == Some(fill) && OpenAt(bars, 3) == Some(last)
  {
    var bars := ShortHistory(fill, last);
    var two, one := bars[..2], bars[..1];
    assert bars[..3][..2] == two && two[..1] == one;
    assert OpenAt(one, 0) == Some(100.0) && OpenAt(two, 1) == Some(100.0) && OpenAt(two, 0) == OpenAt(one, 0);
    assert OpenAt(bars[..3], 0) == OpenAt(two, 0) && OpenAt(bars[..3], 1) == OpenAt(two, 1);
  }

  // ---- the run, event by event ----

  function ShortStart(): RunState { NewRun(ShortSetup().config, 0) }

  /** A flat account marked at `t`, nothing queued. */
  predicate FlatAt(s: RunState, t: int)
  {
    && s.account == Account(100.0, map[], t, {}, 0.0, 0.0) && s.pending.None? && s.decisions == 0
    && s.totals == Totals(NO_TRIPS, 0.0, 0.0) && |s.events| == 1 && MarkedBy(s.mark, t)
  }

  lemma NothingToMark(a: Account, mark: Option<MarketMark>, t: int)
    requires a.positions == map[] && a.valuedAt <= t
    ensures MarkAccount(a, mark, t) == Fine(a.(valuedAt := t))
  {
    assert Marked(a, [], t).positions == map[];
  }

  lemma FlatIsPublic(t: int)
    ensures PublicOf(Account(100.0, map[], t, {}, 0.0, 0.0)) == Some(Portfolio(100.0, 100.0, t, []))
  {
    PublicState(Account(100.0, map[], t, {}, 0.0, 0.0), 1);
  }

  lemma FirstShortEvent()
    ensures var k := Tick(0, None, Some(100.0));
      && ValidTick(k) && WellFormed(ShortStart()) && ShortSetup().config.cadence >= 1
      && StepAt(ShortSetup(), ShortStart(), k).Fine? && FlatAt(StepAt(ShortSetup(), ShortStart(), k).value, 0)
  {
    hide MarkAccount, PublicOf, EventOf, SelectMark;
    var c, k := ShortSetup().config, Tick(0, None, Some(100.0));
    OpeningMarks(c, None, k);
    NothingToMark(ShortStart().account, SelectMark(c, None, k), 0);
    FlatIsPublic(0);
  }

  /** The council's decision on the one short signal. */
  function ShortCouncil(): Decision
  {
    DecisionFrom(ShortSetup().config.council, ONE_SNAPSHOT, [ShortSignal(ONE_SNAPSHOT)])
  }

  lemma ShortSignals()
    ensures SignalsOf(ShortSetup().agents, ONE_SNAPSHOT) == [ShortSignal(ONE_SNAPSHOT)]
    ensures AlphaOf([ShortSignal(ONE_SNAPSHOT)]) == [ShortSignal(ONE_SNAPSHOT)]
  {
  }

  lemma ShortIsAggregated()
    ensures Aggregate(ShortSetup().config.council, ONE_SNAPSHOT, [ShortSignal(ONE_SNAPSHOT)]) == Decided(ShortCouncil())
  {
    hide DecisionFrom;
    var signals := [ShortSignal(ONE_SNAPSHOT)];
    assert StableSort(signals, ById) == signals;
    assert AgentIds(signals) == {1};
    assert FirstFault(ONE_SNAPSHOT, signals).None?;
  }

  lemma OneTerm(s: Signal, term: Signal -> real)
    ensures Total([s], term) == term(s)
  {
    assert [s][..0] == [];
  }

  lemma ShortNumbersOfCouncil()
    ensures var c, alpha := ShortSetup().config.council, [ShortSignal(ONE_SNAPSHOT)];
      Capacity(c, alpha) == Effective(c, alpha) == 1.0 && Conviction(c, alpha) == -1.0 && Confidence(c, alpha) == 1.0
  {
    hide Total;
    var c, s := ShortSetup().config.council, ShortSignal(ONE_SNAPSHOT);
    OneTerm(s, WeightTerm(c));
    OneTerm(s, EffectiveTerm(c));
    OneTerm(s, Times(EffectiveTerm(c), TargetTerm()));
  }

  lemma ShortDecisionIs()
    ensures var d := ShortCouncil();
      && d.symbol == 1 && d.timeframe == 1 && d.source == ONE_SNAPSHOT.Id() && d.sourceAsOf == 1
      && d.targetExposure == Some(-1.0) && d.action == TargetExposure && d.confidence == 1.0
      && d.decidedAt == 1 && d.expiresAt == 10 && d.signals == [ShortSignal(ONE_SNAPSHOT)]
  {
    hide Conviction, Confidence, Capacity, Effective, ExpectedReturn, AlphaOf, KeysOf;
    ShortSignals();
    ShortNumbersOfCouncil();
    var alpha := [ShortSignal(ONE_SNAPSHOT)];
    assert alpha[0] in alpha;
    assert !ExplicitlyFlat(alpha[0]);
  }

  function QueuedShort(): ApprovedOrder
  {
    OrderFor(HALF_POLICY, ShortCouncil(), ONE_SNAPSHOT, SHORT_PLAN, CostsOf(FLAT_ACCOUNT), 1)
  }

  lemma ShortSignalIsFine()
    ensures AllSignalFaults(HALF_POLICY, [ShortSignal(ONE_SNAPSHOT)], ONE_SNAPSHOT, 1) == []
    ensures Volatilities(Some(0.1), [ShortSignal(ONE_SNAPSHOT)]) == [0.1]
  {
    assert [ShortSignal(ONE_SNAPSHOT)][..0] == [];
  }

  lemma ShortIsAuthorized()
    ensures ONE_SNAPSHOT.bars != [] && ONE_SNAPSHOT.LastPrice() > 0.0
    ensures ApprovedBy(HALF_POLICY, ShortCouncil(), ONE_SNAPSHOT, Some(0.1), FLAT_ACCOUNT, 1, QueuedShort())
  {
    hide PlanFor, ProspectOf, LimitReasons, TargetNotional, ShortCouncil, AllSignalFaults, Volatilities;
    ShortIsPlanned();
    ShortDecisionIs();
    ShortSignalIsFine();
    ShortIsWithinLimits();
    assert FindPosition([], 1) == None;
  }

  lemma QueuedShortIs()
    ensures ShortPlanned(QueuedShort()) && ValidOrder(QueuedShort())
  {
    hide ShortCouncil;
    ShortDecisionIs();
  }

  lemma ShortIsQueued()
    ensures ValidTick(Tick(1, Some(ONE_SNAPSHOT), Some(100.0))) && ShortSetup().config.cadence >= 1
    ensures var d := DecideAt(ShortSetup(), Tick(1, Some(ONE_SNAPSHOT), Some(100.0)), 0, Portfolio(100.0, 100.0, 1, []), CostBounds(0.0, 0.0));
      d.Fine? && d.value.queued == Some(QueuedShort())
  {
    hide Aggregate, Evaluate, ValidOrder, ShortCouncil, QueuedShort, SignalsOf;
    ShortSignals();
    ShortIsAggregated();
    ShortDecisionIs();
    ShortIsAuthorized();
    ShortIsPlanned();
    QueuedShortIs();
  }

  /** After the decision: flat, with the order queued. */
  predicate QueuedAt(s: RunState)
  {
    && s.account == FLAT_ACCOUNT && s.pending == Some(QueuedShort()) && s.decisions == 1
    && s.totals == Totals(NO_TRIPS, 0.0, 0.0) && |s.events| == 2 && MarkedBy(s.mark, 1)
  }

  lemma SecondShortEvent(s: RunState)
    requires FlatAt(s, 0)
    ensures var k := Tick(1, Some(ONE_SNAPSHOT), Some(100.0));
      && ValidTick(k) && WellFormed(s) && ShortSetup().config.cadence >= 1
      && StepAt(ShortSetup(), s, k).Fine?
      && var r := StepAt(ShortSetup(), s, k).value;
         QueuedAt(r)
  {
    hide MarkAccount, PublicOf, EventOf, SelectMark, DecideAt, QueuedShort;
    var c, k := ShortSetup().config, Tick(1, Some(ONE_SNAPSHOT), Some(100.0));
    OpeningMarks(c, s.mark, k);
    NothingToMark(s.account, SelectMark(c, s.mark, k), 1);
    FlatIsPublic(1);
    ShortIsQueued();
  }

  lemma FlatIsValid()
    ensures ValidAccount(FLAT_ACCOUNT) && HoldsOnly(FLAT_ACCOUNT, 1)
  {
  }

  lemma SingleShort(a: Account, price: real)
    requires a.positions == map[1 := PaperPosition(-0.5, price, price, 2)] && price > 0.0 && a.feeBps == 0.0 && a.slippageBps == 0.0
    ensures ValidAccount(a) && HoldsOnly(a, 1)
  {
  }

  /** The queued order meets its reference price, or a better one that makes the position too large. */
  lemma ShortMeets(price: real)
    requires price >= 100.0
    ensures ValidOrder(QueuedShort())
    ensures var s := AfterExecution(ShortSetup().config, Totals(NO_TRIPS, 0.0, 0.0), FLAT_ACCOUNT, QueuedShort(),
                                    Executed(FLAT_ACCOUNT, QueuedShort(), OpeningPrice(1, 1, price, 2, 2), 1), 2, price);
      if price > 100.0 then s.Raised? && s.error.NonCompliant?
      else s.Fine? && SqueezedAt(s.value.account, 2, 100.0) && s.value.pending.None?
  {
    hide Executed, QueuedShort, BuildState, ReconcileReasons, WithFill, FillReport, AfterFill, StateOf, ValidOrder;
    var o, opening := QueuedShort(), OpeningPrice(1, 1, price, 2, 2);
    QueuedShortIs();
    ShortIsFilled(o, price);
    ReportIsFilled(FLAT_ACCOUNT, o, opening, price, 0.0);
    var e := Executed(FLAT_ACCOUNT, o, opening, 1);
    SingleShort(e.account, price);
    FlatIsValid();
    PublicState(FLAT_ACCOUNT, 1);
    PublicState(e.account, 1);
    if price > 100.0 {
      TooLarge(o, e.report.value, e.account, price);
    } else {
      JustFits(o);
    }
  }

  /** Short half a unit, marked at `price`. */
  predicate SqueezedAt(a: Account, t: int, price: real)
  {
    && a.cash == 150.0 && a.positions == map[1 := PaperPosition(-0.5, 100.0, price, t)] && a.valuedAt == t
    && a.feeBps == 0.0 && a.slippageBps == 0.0
  }

  predicate MarkedBy(mark: Option<MarketMark>, t: int)
  {
    mark.Some? && mark.value.marketTime <= t
  }

  lemma OpeningMarks(c: BacktestConfig, current: Option<MarketMark>, k: Tick)
    requires ValidTick(k) && k.open.Some? && (current.Some? ==> current.value.marketTime <= k.time)
    requires k.snapshot.Some? ==> k.snapshot.value.Last().closedAt <= k.time
    ensures SelectMark(c, current, k) == Some(MarketMark(c.symbol, k.open.value, k.time, k.time))
  {
  }

  lemma SqueezeMarks(a: Account, t: int, before: real, later: int, price: real)
    requires SqueezedAt(a, t, before) && t <= later && price > 0.0
    ensures var mark := Some(MarketMark(1, price, later, later));
      && MarkAccount(a, mark, later).Fine? && SqueezedAt(MarkAccount(a, mark, later).value, later, price)
  {
    var mark := Some(MarketMark(1, price, later, later));
    var observations := ObservationsFor(a, mark);
    assert a.positions != map[] by { assert 1 in a.positions; }
    assert ObservationOf(observations, 1) == Some(observations[0]);
    assert Marked(a, observations, later).positions == map[1 := PaperPosition(-0.5, 100.0, price, later)];
  }

  lemma SqueezeIsPublic(a: Account, t: int, price: real)
    requires SqueezedAt(a, t, price) && price > 0.0
    ensures PublicOf(a).Some? && PublicOf(a).value.equity == 150.0 - 0.5 * price
  {
    PublicState(a, 1);
    StateNumbers(a, 1, price);
  }

  lemma FillingTick(fill: real, last: real)
    requires fill > 0.0
    ensures var k := ShortTicks(fill, last)[2];
      && ValidTick(k) && !Future(k) && k.snapshot.value.Last().closedAt == 2 && k.open == Some(fill) && k.time == 2
  {
    var bars := ShortHistory(fill, last);
    assert bars[..2] == [FlatBar(0, 100.0), FlatBar(1, 100.0)];
  }

  lemma LastTick(fill: real, last: real)
    requires fill > 0.0 && last > 0.0
    ensures var k := ShortTicks(fill, last)[3];
      && ValidTick(k) && !Future(k) && k.snapshot.value.Last().closedAt == 3 && k.open == Some(last) && k.time == 3
  {
    var bars := ShortHistory(fill, last);
    assert bars[..3] == [FlatBar(0, 100.0), FlatBar(1, 100.0), FlatBar(2, fill)];
  }

  lemma ThirdShortEvent(s: RunState, fill: real, last: real)
    requires fill >= 100.0 && QueuedAt(s)
    ensures var k := ShortTicks(fill, last)[2];
      && ValidTick(k) && WellFormed(s) && ShortSetup().config.cadence >= 1
      && var step := StepAt(ShortSetup(), s, k);
         if fill > 100.0 then step.Raised? && step.error.NonCompliant?
         else step.Fine? && SqueezedAt(step.value.account, 2, 100.0) && step.value.pending.None?
              && |step.value.events| == 3 && MarkedBy(step.value.mark, 2)
  {
    hide MarkAccount, PublicOf, EventOf, SelectMark, Decide, QueuedShort, Executed, AfterExecution, ShortTicks, Future, ValidTick,
         SqueezedAt, ValidOrder;
    FillingTick(fill, last);
    QueuedShortIs();
    ShortMeets(fill);
    var c, k := ShortSetup().config, ShortTicks(fill, last)[2];
    OpeningMarks(c, s.mark, k);
    if fill == 100.0 {
      var filled := AtOpening(c, s, k).value.account;
      SqueezeMarks(filled, 2, 100.0, 2, 100.0);
      SqueezeIsPublic(MarkAccount(filled, SelectMark(c, s.mark, k), 2).value, 2, 100.0);
    }
  }

  lemma LastShortEvent(s: RunState, last: real)
    requires last > 0.0 && SqueezedAt(s.account, 2, 100.0) && s.pending.None? && |s.events| == 3 && MarkedBy(s.mark, 2)
    ensures var k := ShortTicks(100.0, last)[3];
      && ValidTick(k) && WellFormed(s) && ShortSetup().config.cadence >= 1
      && var step := StepAt(ShortSetup(), s, k);
         step.Fine? && |step.value.events| == 4
         && step.value.events[3].measured && step.value.events[3].portfolio.equity == 150.0 - 0.5 * last
  {
    hide MarkAccount, PublicOf, SelectMark, Decide, ShortTicks, Future, ValidTick, SqueezedAt;
    LastTick(100.0, last);
    var c, k := ShortSetup().config, ShortTicks(100.0, last)[3];
    OpeningMarks(c, s.mark, k);
    SqueezeMarks(s.account, 2, 100.0, 3, last);
    SqueezeIsPublic(MarkAccount(s.account, SelectMark(c, s.mark, k), 3).value, 3, last);
  }

  lemma FourEvents(setup: Setup, s: RunState, ticks: seq<Tick>)
    requires WellFormed(s) && AllValid(ticks) && setup.config.cadence >= 1 && |ticks| == 4
    ensures RunTicks(setup, s, ticks[..1]) == StepAt(setup, s, ticks[0])
    ensures forall n :: 0 < n < 4 && RunTicks(setup, s, ticks[..n]).Fine? ==>
      RunTicks(setup, s, ticks[..n + 1]) == StepAt(setup, RunTicks(setup, s, ticks[..n]).value, ticks[n])
    ensures RunTicks(setup, s, ticks[..3]).Raised? ==> RunTicks(setup, s, ticks) == RunTicks(setup, s, ticks[..3])
    ensures ticks[..4] == ticks
  {
    hide StepAt, ValidTick, ValidOrder;
    assert ticks[..1][..0] == [];
    assert ticks[..2][..1] == ticks[..1] && ticks[..3][..2] == ticks[..2] && ticks[..4][..3] == ticks[..3] && ticks[..4] == ticks;
  }

  /** The replay of such a history: whatever follows, a better fill than the reference price ends it,
      and a fill at the reference price shows the price of the last opening in its last event. */
  lemma ShortReplay(fill: real, last: real)
    requires fill >= 100.0 && last > 0.0
    ensures ValidHistory(ShortHistory(fill, last)) && ShortSetup().config.cadence >= 1
    ensures var r := Replay(ShortSetup(), ShortHistory(fill, last));
      if fill > 100.0 then r.Raised? && r.error.NonCompliant?
      else r.Fine? && |r.value.events| == 4 && r.value.events[3].measured
           && r.value.events[3].portfolio.equity == 150.0 - 0.5 * last
  {
    hide StepAt, ValidTick, ShortTicks, EventTimes, TickAt, QueuedAt, FlatAt, ValidOrder, SqueezedAt, RunTicks;
    var setup, bars := ShortSetup(), ShortHistory(fill, last);
    ShortHistoryIsComplete(fill, last);
    ShortTicksAre(fill, last);
    TicksAreValid(setup.config, bars, EventTimes(setup.config, bars));
    var ticks := ShortTicks(fill, last);
    FirstShortEvent();
    FourEvents(setup, ShortStart(), ticks);
    SecondShortEvent(RunTicks(setup, ShortStart(), ticks[..1]).value);
    ThirdShortEvent(RunTicks(setup, ShortStart(), ticks[..2]).value, fill, last);
    if fill == 100.0 {
      LastShortEvent(RunTicks(setup, ShortStart(), ticks[..3]).value, last);
    }
  }

  /** A short sale at its reference price and a spike at the last opening: equity is negative, so the
      measures break their contract and the backtest fails, with every fill reconciled. */
  lemma SqueezeBreaksMeasures(last: real)
    requires last > 300.0
    ensures var setup, bars := ShortSetup(), ShortHistory(100.0, last);
      && ValidConfig(setup.config) && ValidHistory(bars) && AgentsBehave(setup, bars)
      && OpensAt(bars, 1) && OpensAt(bars, 3) && Backtest(setup, bars, true) == Raised(InvalidMetrics)
  {
    hide Backtest, Replay, ValidConfig, AgentsBehave, ValidHistory, OpensAt, SomethingAvailable;
    var setup, bars := ShortSetup(), ShortHistory(100.0, last);
    ShortSetupIsValid(bars);
    ShortHistoryIsComplete(100.0, last);
    ShortReplay(100.0, last);
    OnlyTolerableErrors(setup, bars);
  }

  /** A better opening price for the same sale: the position is too large and the run stops. */
  lemma BetterFillStopsRun(fill: real, last: real)
    requires fill > 100.0 && last > 0.0
    ensures var setup, bars := ShortSetup(), ShortHistory(fill, last);
      && ValidConfig(setup.config) && ValidHistory(bars) && AgentsBehave(setup, bars)
      && OpensAt(bars, 1) && OpensAt(bars, 3)
      && Backtest(setup, bars, true).Raised? && Backtest(setup, bars, true).error.NonCompliant?
  {
    hide Backtest, Replay, ValidConfig, AgentsBehave, ValidHistory, OpensAt, SomethingAvailable;
    var setup, bars := ShortSetup(), ShortHistory(fill, last);
    ShortSetupIsValid(bars);
    ShortHistoryIsComplete(fill, last);
    ShortReplay(fill, last);
    OnlyTolerableErrors(setup, bars);
  }
}
