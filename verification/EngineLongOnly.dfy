/** With shorting disabled no replay ever shows a negative equity, so its measures always meet their
    contract. */
module EngineLongOnly {
  import opened Sequences
  import opened Trading
  import opened Paper
  import opened Governor
  import opened Council
  import opened OrderFlow
  import opened Engine
  import opened EngineSummary
  import opened EngineSchedule
  import EngineCausality

  /** Cash and holdings, before and after the queued order, are never negative. */
  ghost predicate LongAccount(c: BacktestConfig, a: Account)
  {
    a.cash >= 0.0 && CurrentQuantity(a, c.symbol) >= 0.0
  }

  ghost predicate LongState(c: BacktestConfig, s: RunState)
  {
    && LongAccount(c, s.account)
    && (s.pending.Some? ==> s.pending.value.symbol == c.symbol && NewQuantity(s.account, s.pending.value) >= 0.0)
    && NeverNegative(s.events)
  }

  // ---- executing ----

  /** A reducing order out of a long position sells, and a sale never lowers cash. */
  lemma ReducingSells(a: Account, o: ApprovedOrder)
    requires o.quantity > 0.0 && CurrentQuantity(a, o.symbol) >= 0.0 && NewQuantity(a, o) >= 0.0
    requires StrictlyReduces(CurrentQuantity(a, o.symbol), NewQuantity(a, o))
    ensures o.side.Sell?
  {
  }

  lemma SalePays(a: Account, o: ApprovedOrder, fillPrice: real)
    requires ValidAccount(a) && o.side.Sell? && o.quantity > 0.0 && fillPrice > 0.0
    ensures CashAfter(a, o, fillPrice) >= a.cash
  {
    var notional := o.quantity * fillPrice;
    assert notional > 0.0;
    assert notional * (BPS - a.feeBps) >= 0.0;
    assert notional * a.feeBps <= notional * BPS;
  }

  lemma QuantityAfter(a: Account, o: ApprovedOrder, opening: OpeningPrice, fillPrice: real)
    ensures var b := a.(cash := CashAfter(a, o, fillPrice), positions := PositionsAfter(a, o, opening, fillPrice),
                        valuedAt := opening.barOpenedAt, processed := a.processed + {o.authorization});
      CurrentQuantity(b, o.symbol) == NewQuantity(a, o) && b.cash == CashAfter(a, o, fillPrice)
  {
    hide CashAfter, AverageEntry;
  }

  lemma ExecutionStaysLong(c: BacktestConfig, a: Account, o: ApprovedOrder, opening: OpeningPrice)
    requires ValidAccount(a) && ValidOrder(o) && o.symbol == c.symbol && LongAccount(c, a) && NewQuantity(a, o) >= 0.0
    ensures LongAccount(c, Executed(a, o, opening, o.authorizedAt).account)
  {
    hide FillPrice, CashAfter, FillFee, AdverseSlippage, BuildState, RejectionReason, NewQuantity, CurrentQuantity, PositionsAfter,
         ValidAccount, StrictlyReduces;
    var fillPrice := FillPrice(a, o, opening);
    QuantityAfter(a, o, opening, fillPrice);
    if fillPrice > 0.0 && o.reduceOnly && StrictlyReduces(CurrentQuantity(a, o.symbol), NewQuantity(a, o)) {
      ReducingSells(a, o);
      SalePays(a, o, fillPrice);
    }
  }

  lemma OpeningStaysLong(c: BacktestConfig, s: RunState, k: Tick)
    requires ReadyFor(c, s, k.time) && ValidTick(k) && LongState(c, s)
    ensures WellFormed(s)
    ensures AtOpening(c, s, k).Fine? ==> LongAccount(c, AtOpening(c, s, k).value.account)
  {
    hide Executed, ReconcileReasons, PublicOf, ValidAccount, ValidOrder, WithFill, NewQuantity, LongAccount, StrictlyReduces, HoldsOnly;
    if s.pending.Some? && k.open.Some? {
      var order := s.pending.value;
      ExecutionStaysLong(c, s.account, order, OpeningFor(c, k.time, k.open.value));
    }
  }

  // ---- deciding ----

  lemma StaysAboveZero(current: real, prospective: real)
    requires current >= 0.0 && (prospective == 0.0 || Abs(prospective) > QUANTITY_TOLERANCE)
    requires StrictlyReduces(current, prospective) || prospective >= -QUANTITY_TOLERANCE
    ensures prospective >= 0.0
  {
  }

  /** An order approved with shorting disabled leaves nothing short. */
  lemma ApprovalStaysLong(
    c: BacktestConfig, d: Decision, snapshot: Snapshot, volatility: Option<real>, a: Account, t: int, order: ApprovedOrder)
    requires ValidPolicy(c.risk) && !c.risk.allowShorting && ValidAccount(a) && LongAccount(c, a)
    requires snapshot.bars != [] && snapshot.LastPrice() > 0.0 && d.symbol == c.symbol
    requires ApprovedBy(c.risk, d, snapshot, volatility, a, t, order)
    ensures order.symbol == c.symbol && NewQuantity(a, order) >= 0.0
  {
    hide ApprovedBy, StrictlyReduces, ValidPolicy, ValidAccount, NewQuantity, CurrentQuantity;
    ApprovalSanctions(c.risk, d, snapshot, volatility, a, t, order);
    NewIsSnapped(a, order);
    StaysAboveZero(CurrentQuantity(a, order.symbol), NewQuantity(a, order));
  }

  lemma NewIsSnapped(a: Account, order: ApprovedOrder)
    ensures NewQuantity(a, order) == 0.0 || Abs(NewQuantity(a, order)) > QUANTITY_TOLERANCE
  {
  }

  lemma DecidingStaysLong(setup: Setup, k: Tick, decisions: nat, a: Account)
    requires ValidConfig(setup.config) && !setup.config.risk.allowShorting
    requires WellTimed(setup.config, k) && AccountReady(setup.config, a, k.time) && LongAccount(setup.config, a)
    ensures ValidTick(k) && setup.config.cadence >= 1 && PublicOf(a).Some?
    ensures var d := DecideAt(setup, k, decisions, PublicOf(a).value, CostsFor(a));
      d.Fine? && d.value.queued.Some? ==>
        d.value.queued.value.symbol == setup.config.symbol && NewQuantity(a, d.value.queued.value) >= 0.0
  {
    hide Evaluate, Aggregate, ValidOrder, ValidAccount, HoldsOnly, ProposalOf, VerdictRecords, ValidPolicy, ValidCouncilConfig,
         LongAccount, NewQuantity;
    var c := setup.config;
    ReadyIsPublic(c, a, k.time);
    FoundPosition(a, c.symbol);
    if ShouldDecide(c, k, decisions) {
      var snapshot := k.snapshot.value;
      var signals := SignalsOf(setup.agents, snapshot);
      var aggregation := Aggregate(c.council, snapshot, signals);
      if aggregation.Decided? {
        DecisionIsAboutTheMarket(c.council, snapshot, signals);
        var risk := Evaluate(c.risk, aggregation.decision, snapshot, setup.volatility(snapshot), PublicOf(a).value, CostsFor(a), k.time);
        if risk.Approved? {
          ApprovalStaysLong(c, aggregation.decision, snapshot, setup.volatility(snapshot), a, k.time, risk.order);
        }
      }
    }
  }

  // ---- one event ----

  lemma MarkingStaysLong(c: BacktestConfig, a: Account, mark: Option<MarketMark>, t: int)
    requires MarkAccount(a, mark, t).Fine? && LongAccount(c, a)
    ensures LongAccount(c, MarkAccount(a, mark, t).value)
  {
  }

  lemma MarkingKeepsOrder(a: Account, mark: Option<MarketMark>, t: int, o: ApprovedOrder)
    requires MarkAccount(a, mark, t).Fine?
    ensures NewQuantity(MarkAccount(a, mark, t).value, o) == NewQuantity(a, o)
  {
  }

  lemma LongEquity(c: BacktestConfig, a: Account, t: int)
    requires AccountReady(c, a, t) && LongAccount(c, a)
    ensures PublicOf(a).Some? && PublicOf(a).value.equity >= 0.0
  {
    PublicState(a, c.symbol);
    if c.symbol in a.positions {
      assert a.positions[c.symbol].quantity * a.positions[c.symbol].mark >= 0.0;
    }
  }

  lemma OneMoreEvent(events: seq<LedgerEvent>, e: LedgerEvent)
    requires NeverNegative(events) && e.portfolio.equity >= 0.0
    ensures NeverNegative(events + [e])
  {
  }

  lemma StepStaysLong(setup: Setup, s: RunState, k: Tick)
    requires ValidConfig(setup.config) && !setup.config.risk.allowShorting
    requires ReadyFor(setup.config, s, k.time) && WellTimed(setup.config, k) && LongState(setup.config, s)
    ensures WellFormed(s) && ValidTick(k) && setup.config.cadence >= 1
    ensures StepAt(setup, s, k).Fine? ==> LongState(setup.config, StepAt(setup, s, k).value)
  {
    hide AtOpening, SelectMark, MarkAccount, DecideAt, PublicOf, Future, AccountReady, OrderReady, WellTimed, ValidConfig,
         ValidOrder, CurrentQuantity, ReportFits, ValidTick, LongAccount, NewQuantity, NeverNegative;
    var c := setup.config;
    NoFuture(c, k);
    CadenceIsPositive(c);
    OpeningIsSafe(c, s, k);
    OpeningStaysLong(c, s, k);
    var phase := AtOpening(c, s, k);
    if phase.Fine? {
      SelectionIsReady(c, s.mark, k);
      var mark := SelectMark(c, s.mark, k);
      MarkingIsSafe(c, phase.value.account, mark, k.time);
      var account := MarkAccount(phase.value.account, mark, k.time).value;
      MarkingStaysLong(c, phase.value.account, mark, k.time);
      if phase.value.pending.Some? {
        MarkingKeepsOrder(phase.value.account, mark, k.time, phase.value.pending.value);
      }
      LongEquity(c, account, k.time);
      DecidingStaysLong(setup, k, s.decisions, account);
      if StepAt(setup, s, k).Fine? {
        OneMoreEvent(s.events, StepAt(setup, s, k).value.events[|s.events|]);
      }
    }
  }

  lemma {:induction false} RunStaysLong(setup: Setup, s: RunState, ticks: seq<Tick>)
    requires ValidConfig(setup.config) && !setup.config.risk.allowShorting && TimedRun(setup.config, ticks)
    requires LongState(setup.config, s) && WellFormed(s) && (ticks != [] ==> ReadyFor(setup.config, s, ticks[0].time))
    ensures AllValid(ticks) && setup.config.cadence >= 1
    ensures RunTicks(setup, s, ticks).Fine? ==> LongState(setup.config, RunTicks(setup, s, ticks).value)
    decreases |ticks|
  {
    hide StepAt, ReadyFor, ValidTick, ValidOrder, ValidConfig, WellTimed, LongState;
    CadenceIsPositive(setup.config);
    TimedIsValid(setup.config, ticks);
    if ticks != [] {
      var n := |ticks| - 1;
      assert n > 0 ==> ticks[..n][0] == ticks[0] && ticks[..n][n - 1].time < ticks[n].time;
      RunStaysLong(setup, s, ticks[..n]);
      if RunTicks(setup, s, ticks[..n]).Fine? {
        RunIsSafe(setup, s, ticks[..n], ticks[n].time);
        StepStaysLong(setup, RunTicks(setup, s, ticks[..n]).value, ticks[n]);
      }
    }
  }

  lemma NewRunIsLong(c: BacktestConfig, openedAt: int)
    requires ValidConfig(c)
    ensures LongState(c, NewRun(c, openedAt))
  {
  }

  /** With shorting disabled and agents that answer every snapshot, a backtest over complete, aligned
      history finishes if and only if it reaches no event at which the queued order is filled without
      fitting, and some bar is available by the end: no measured equity is ever negative, whatever
      prices do. */
  lemma LongOnlyFinishes(setup: Setup, bars: seq<Bar>)
    requires ValidConfig(setup.config) && ValidHistory(bars) && AgentsBehave(setup, bars) && !setup.config.risk.allowShorting
    requires OpensAt(bars, setup.config.start) && OpensAt(bars, setup.config.end)
    ensures setup.config.cadence >= 1
    ensures Replay(setup, bars).Fine? ==> NeverNegative(Replay(setup, bars).value.events)
    ensures Backtest(setup, bars, true).Fine? <==>
      (!exists i :: StopsReplay(setup, bars, i)) && SomethingAvailable(bars, setup.config.end)
  {
    hide RunTicks, EventTimes, ValidHistory, TimedRun, ReadyFor, TickAt, OpensAt, ValidConfig, AgentsBehave, Backtest, NeverNegative,
         SomethingAvailable, StopsReplay;
    var c := setup.config;
    CadenceIsPositive(c);
    BacktestFinishes(setup, bars);
    ReplayIsTimed(c, bars);
    NewRunIsLong(c, bars[0].openedAt);
    RunStaysLong(setup, NewRun(c, bars[0].openedAt), TicksAt(c, bars, EventTimes(c, bars)));
  }
}
