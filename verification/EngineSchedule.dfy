/** Order scheduling over every replay: what can still go wrong, and what happens to every order. */
module EngineSchedule {
  import opened Sequences
  import opened Trading
  import opened Paper
  import opened Governor
  import opened Council
  import opened OrderFlow
  import opened OpeningGaps
  import opened Engine
  import opened EngineSummary
  import EngineCausality
  import Quality

  // ---- what holds before an event at `t` ----

  ghost predicate AccountReady(c: BacktestConfig, a: Account, t: int)
  {
    && ValidAccount(a) && HoldsOnly(a, c.symbol) && a.valuedAt <= t
    && a.feeBps == c.feeBps && a.slippageBps == c.slippageBps
    && (forall id :: id in a.processed ==> id.evaluatedAt < t)
  }

  ghost predicate OrderReady(c: BacktestConfig, a: Account, o: ApprovedOrder, t: int)
  {
    && ValidOrder(o) && o.symbol == c.symbol && o.timeframe == c.timeframe
    && o.authorization.evaluatedAt == o.authorizedAt == o.earliestFillAt && o.authorizedAt < t && o.authorizedAt < c.end
    && o.maxFeeBps == c.feeBps && o.maxSlippageBps == c.slippageBps
    && (o.side.Sell? ==> c.slippageBps < BPS)
    && Sanctioned(c.risk, a, o)
    && (forall id :: id in a.processed ==> id.evaluatedAt < o.authorizedAt)
  }

  ghost predicate MarkReady(c: BacktestConfig, mark: Option<MarketMark>, t: int)
  {
    mark.Some? ==> mark.value.price > 0.0 && mark.value.availableAt <= t && mark.value.symbol == c.symbol
  }

  ghost predicate ReadyFor(c: BacktestConfig, s: RunState, t: int)
  {
    && AccountReady(c, s.account, t)
    && (s.pending.Some? ==> OrderReady(c, s.account, s.pending.value, t))
    && MarkReady(c, s.mark, t)
    && (s.account.positions != map[] ==> s.mark.Some?)
  }

  ghost predicate WellTimed(c: BacktestConfig, k: Tick)
  {
    && ValidTick(k)
    && (k.snapshot.Some? ==>
          var snapshot := k.snapshot.value;
          snapshot.symbol == c.symbol && snapshot.timeframe == c.timeframe && snapshot.asOf == snapshot.observedAt == k.time
          && forall b :: b in snapshot.bars ==> b.availableAt <= k.time)
  }

  lemma PublicExists(a: Account)
    requires ValidAccount(a)
    ensures PublicOf(a).Some?
  {
  }

  // ---- executing ----

  lemma FillPriceIsPositive(c: BacktestConfig, a: Account, o: ApprovedOrder, t: int, price: real)
    requires AccountReady(c, a, t) && OrderReady(c, a, o, t) && price > 0.0
    ensures FillPrice(a, o, OpeningFor(c, t, price)) > 0.0
  {
    hide ValidOrder, HoldsOnly, StrictlyReduces, NewQuantity;
    var k := 1.0 + SignedFill(o.side, 1.0) * a.slippageBps / BPS;
    assert k > 0.0;
    assert price * k > 0.0;
  }

  /** The only reasons the broker can still have. */
  predicate StillPossible(r: Rejection)
  {
    r.AuthorizationExpired? || r.SlippageExceeded? || r.InsufficientCash?
  }

  lemma ExecutionNeverRaises(c: BacktestConfig, a: Account, o: ApprovedOrder, t: int, price: real)
    requires AccountReady(c, a, t) && OrderReady(c, a, o, t) && price > 0.0
    ensures o.referencePrice > 0.0
    ensures var e := Executed(a, o, OpeningFor(c, t, price), o.authorizedAt);
      && e.report.Some? && e.report.value.submittedAt == o.authorizedAt && e.report.value.authorization == o.authorization
      && (e.report.value.outcome.Filled? ==> e.report.value.outcome.filledAt == t)
      && (e.report.value.outcome.Rejected? ==> StillPossible(e.report.value.outcome.reason))
  {
    hide FillPrice, CashAfter, NewQuantity, AdverseSlippage, BuildState, PositionsAfter, StrictlyReduces;
    FillPriceIsPositive(c, a, o, t, price);
    CommitGate(a, o, OpeningFor(c, t, price), FillPrice(a, o, OpeningFor(c, t, price)));
  }

  lemma ExecutionStaysReady(c: BacktestConfig, a: Account, o: ApprovedOrder, t: int, price: real)
    requires AccountReady(c, a, t) && OrderReady(c, a, o, t) && price > 0.0 && o.referencePrice > 0.0
    ensures AccountReady(c, Executed(a, o, OpeningFor(c, t, price), o.authorizedAt).account, t)
  {
    hide FillPrice, CashAfter, NewQuantity, AdverseSlippage, BuildState, StrictlyReduces, ValidAccount, AverageEntry, FillFee;
    ExecutionKeepsAccount(a, o, OpeningFor(c, t, price), o.authorizedAt);
  }

  /** The opening phase can only fail the reconciliation. */
  lemma OpeningIsSafe(c: BacktestConfig, s: RunState, k: Tick)
    requires ReadyFor(c, s, k.time) && ValidTick(k)
    ensures WellFormed(s)
    ensures AtOpening(c, s, k).Raised? ==> AtOpening(c, s, k).error.NonCompliant?
    ensures AtOpening(c, s, k).Fine? ==>
      var o := AtOpening(c, s, k).value;
      && AccountReady(c, o.account, k.time)
      && o.pending == (if k.open.Some? then None else s.pending)
      && (k.open.None? || s.pending.None? ==> o.account == s.account)
      && (o.report.Some? <==> k.open.Some? && s.pending.Some?)
      && (o.report.Some? ==> ReportFits(s.pending.value, o.report.value, k.time))
  {
    hide Executed, AccountReady, ValidOrder, ReconcileReasons, WithFill, PublicOf, StrictlyReduces, NewQuantity, HoldsOnly, StillPossible;
    PendingAfterOpening(c, s, k);
    if s.pending.Some? && k.open.Some? {
      var order := s.pending.value;
      ExecutionNeverRaises(c, s.account, order, k.time, k.open.value);
      ExecutionStaysReady(c, s.account, order, k.time, k.open.value);
      var e := Executed(s.account, order, OpeningFor(c, k.time, k.open.value), order.authorizedAt);
      ReadyIsPublic(c, s.account, k.time);
      ReadyIsPublic(c, e.account, k.time);
    }
  }

  // ---- what stops a run at an opening ----

  /** The queued order passes the broker's gates at this opening and does not fit there: told from the
      account, the order and the opening alone, before anything is executed. */
  ghost predicate StopsAt(c: BacktestConfig, s: RunState, k: Tick)
  {
    && s.pending.Some? && k.open.Some? && s.pending.value.referencePrice > 0.0
    && var order, opening := s.pending.value, OpeningFor(c, k.time, k.open.value);
      && k.time <= order.expiresAt && PassesGates(s.account, order, opening)
      && !FitsAtTheOpening(c.risk, s.account, order, opening)
  }

  lemma ReadyParts(c: BacktestConfig, a: Account, o: ApprovedOrder, t: int)
    requires AccountReady(c, a, t) && OrderReady(c, a, o, t)
    ensures ValidAccount(a) && HoldsOnly(a, c.symbol) && ValidOrder(o) && o.symbol == c.symbol && o.timeframe == c.timeframe
    ensures a.feeBps == o.maxFeeBps && o.authorizedAt == o.earliestFillAt < t
    ensures o.authorization !in a.processed && a.valuedAt <= t
    ensures Sanctioned(c.risk, a, o)
  {
    hide Sanctioned;
  }

  lemma AccountParts(c: BacktestConfig, a: Account, t: int)
    requires AccountReady(c, a, t)
    ensures ValidAccount(a) && HoldsOnly(a, c.symbol)
  {
  }

  /** A fill is inside the order's window. */
  lemma LateIsRejected(a: Account, o: ApprovedOrder, opening: OpeningPrice)
    requires o.referencePrice > 0.0 && opening.barOpenedAt > o.expiresAt && Executed(a, o, opening, o.authorizedAt).report.Some?
    ensures Executed(a, o, opening, o.authorizedAt).report.value.outcome.Rejected?
  {
    hide FillPrice, CashAfter, AdverseSlippage, BuildState, PositionsAfter, FillFee, NewQuantity, StrictlyReduces, CurrentQuantity;
  }

  /** Every check of the reconciliation but the exposure of an order that adds some passes by itself,
      whatever the opening price: the run stops at an opening exactly when the queued order is still in
      its window, is within its slippage bound and can be paid for, does not reduce, and the governor's
      limits fail of the position at that price. */
  lemma FailureIsExposure(c: BacktestConfig, s: RunState, k: Tick)
    requires ValidPolicy(c.risk) && ReadyFor(c, s, k.time) && ValidTick(k)
    ensures WellFormed(s)
    ensures AtOpening(c, s, k).Raised? <==> StopsAt(c, s, k)
  {
    hide Executed, AccountReady, OrderReady, ValidOrder, ReconcileReasons, WithFill, PublicOf, StateOf, ReportFits, Sanctioned,
         ValidAccount, HoldsOnly, MarkReady, FitsAtTheOpening, PassesGates, OpeningOutcome, FillPrice, ValidPolicy;
    OpeningIsSafe(c, s, k);
    if s.pending.Some? && k.open.Some? {
      var o, opening := s.pending.value, OpeningFor(c, k.time, k.open.value);
      ReadyParts(c, s.account, o, k.time);
      OrderIsPositive(o);
      ExecutionNeverRaises(c, s.account, o, k.time, k.open.value);
      ExecutionStaysReady(c, s.account, o, k.time, k.open.value);
      var e := Executed(s.account, o, opening, o.authorizedAt);
      AccountParts(c, e.account, k.time);
      FoundPosition(s.account, c.symbol);
      FoundPosition(e.account, c.symbol);
      if k.time <= o.expiresAt {
        FillPriceIsPositive(c, s.account, o, k.time, k.open.value);
        SanctionedOpening(c.risk, s.account, o, opening);
        FilledOutcome(c.risk, s.account, o, opening, e);
      } else {
        LateIsRejected(s.account, o, opening);
      }
    }
  }

  predicate ReportFits(o: ApprovedOrder, report: ExecutionReport, t: int)
  {
    && report.authorization == o.authorization && report.submittedAt == o.authorizedAt
    && (report.outcome.Filled? ==> report.outcome.filledAt == t)
    && (report.outcome.Rejected? ==> StillPossible(report.outcome.reason))
  }

  lemma ReadyIsPublic(c: BacktestConfig, a: Account, t: int)
    requires AccountReady(c, a, t)
    ensures PublicOf(a).Some? && ValidAccount(a)
  {
    PublicExists(a);
  }

  // ---- marking ----

  lemma SelectionIsReady(c: BacktestConfig, current: Option<MarketMark>, k: Tick)
    requires MarkReady(c, current, k.time) && WellTimed(c, k)
    ensures MarkReady(c, SelectMark(c, current, k), k.time)
    ensures k.open.Some? || current.Some? ==> SelectMark(c, current, k).Some?
  {
    if k.snapshot.Some? {
      assert k.snapshot.value.Last() in k.snapshot.value.bars;
    }
  }

  lemma MarkingIsSafe(c: BacktestConfig, a: Account, mark: Option<MarketMark>, t: int)
    requires AccountReady(c, a, t) && MarkReady(c, mark, t)
    requires a.positions != map[] ==> mark.Some?
    ensures MarkAccount(a, mark, t).Fine?
    ensures var b := MarkAccount(a, mark, t).value;
      && AccountReady(c, b, t) && b.processed == a.processed
      && b.positions.Keys == a.positions.Keys && CurrentQuantity(b, c.symbol) == CurrentQuantity(a, c.symbol)
  {
    var observations := ObservationsFor(a, mark);
    forall s | s in a.positions
      ensures ObservationOf(observations, s).Some? && ObservationOf(observations, s).value.observedAt <= t
    {
      assert a.positions != map[];
      assert s == c.symbol && observations[0].symbol == s;
    }
    MarkingKeepsAccount(a, mark, t);
  }

  // ---- deciding ----

  lemma FoundPosition(a: Account, symbol: int)
    requires ValidAccount(a) && HoldsOnly(a, symbol)
    ensures PublicOf(a).Some? && PublicOf(a).value == StateOf(a, symbol)
  {
    PublicState(a, symbol);
  }

  lemma SellsAboveZero(plan: Plan, costs: CostBounds, portfolio: Portfolio, price: real)
    requires price > 0.0 && ProspectOf(plan, costs, portfolio, price).worstPrice > 0.0
    ensures plan.side.Sell? ==> costs.slippageBps < BPS
  {
    var k := 1.0 - costs.slippageBps / BPS;
    assert plan.side.Sell? ==> price * k > 0.0;
    assert price * k > 0.0 ==> k > 0.0;
  }

  /** An order approved now is ready for any later opening. */
  lemma ApprovalIsReady(
    c: BacktestConfig, d: Decision, snapshot: Snapshot, volatility: Option<real>, a: Account, t: int, order: ApprovedOrder, later: int)
    requires ValidPolicy(c.risk) && AccountReady(c, a, t) && t < later && t < c.end
    requires 0.0 <= c.feeBps <= BPS && 0.0 <= c.slippageBps <= BPS
    requires snapshot.bars != [] && snapshot.LastPrice() > 0.0
    requires d.symbol == c.symbol && d.timeframe == c.timeframe
    requires ApprovedBy(c.risk, d, snapshot, volatility, a, t, order)
    ensures OrderReady(c, a, order, later) && order.authorizedAt == t
  {
    hide Evaluate, PlanOf, ProspectOf, TargetOf, StateOf, LimitReasons, RestrictionReasons, ValidAccount, CurrentQuantity, ApprovedBy,
         Sanctioned, ValidPolicy;
    var price := snapshot.LastPrice();
    ApprovalFacts(c.risk, d, snapshot, volatility, a, t, order);
    var plan := PlanOf(c.risk, TargetOf(c.risk, d, a), a, d.symbol, price);
    AccountPlanSizes(c.risk, TargetOf(c.risk, d, a), a, d.symbol, price);
    ApprovalSanctions(c.risk, d, snapshot, volatility, a, t, order);
    SellsAboveZero(plan, CostsOf(a), StateOf(a, d.symbol), price);
    OrderTerms(c.risk, d, snapshot, plan, CostsOf(a), t);
  }

  lemma DecisionIsAboutTheMarket(c: CouncilConfig, snapshot: Snapshot, signals: seq<Signal>)
    requires Aggregate(c, snapshot, signals).Decided?
    ensures Aggregate(c, snapshot, signals).decision.symbol == snapshot.symbol
    ensures Aggregate(c, snapshot, signals).decision.timeframe == snapshot.timeframe
  {
    hide VerdictOf, ExpectedReturn, Conviction, Confidence, StableSort, UniqueAgents, FirstFault;
  }

  lemma DecidingIsSafe(setup: Setup, k: Tick, decisions: nat, a: Account, later: int)
    requires ValidConfig(setup.config) && WellTimed(setup.config, k) && AccountReady(setup.config, a, k.time) && k.time < later
    ensures PublicOf(a).Some?
    ensures var d := DecideAt(setup, k, decisions, PublicOf(a).value, CostsFor(a));
      && (d.Raised? ==> d.error.FutureSignal? || d.error.CouncilRaised?)
      && (d.Fine? && d.value.queued.Some? ==>
            OrderReady(setup.config, a, d.value.queued.value, later) && d.value.queued.value.authorizedAt == k.time < setup.config.end)
  {
    hide Evaluate, Aggregate, OrderReady, ValidOrder, ValidAccount, HoldsOnly, ProposalOf, VerdictRecords, ValidPolicy, ValidCouncilConfig;
    var c := setup.config;
    ReadyIsPublic(c, a, k.time);
    FoundPosition(a, c.symbol);
    if ShouldDecide(c, k, decisions) {
      var snapshot := k.snapshot.value;
      var signals := SignalsOf(setup.agents, snapshot);
      var aggregation := Aggregate(c.council, snapshot, signals);
      if aggregation.Decided? {
        DecisionIsAboutTheMarket(c.council, snapshot, signals);
        var risk := Evaluate(c.risk, aggregation.decision, snapshot, setup.volatility(snapshot), PublicOf(a).value, CostsFor(a), k.time);
        if risk.Approved? {
          ApprovalIsReady(c, aggregation.decision, snapshot, setup.volatility(snapshot), a, k.time, risk.order, later);
          ReadyIsValid(c, a, risk.order, later);
        }
      }
    }
  }

  lemma ReadyIsValid(c: BacktestConfig, a: Account, o: ApprovedOrder, t: int)
    requires OrderReady(c, a, o, t)
    ensures ValidOrder(o)
  {
  }

  // ---- one event ----

  /** The only errors a replay can still meet. */
  predicate Tolerable(e: EngineError)
  {
    e.NonCompliant? || e.FutureSignal? || e.CouncilRaised?
  }

  lemma NoFuture(c: BacktestConfig, k: Tick)
    requires WellTimed(c, k)
    ensures ValidTick(k) && !Future(k)
  {
  }

  lemma LaterReady(c: BacktestConfig, a: Account, b: Account, o: ApprovedOrder, t: int, later: int)
    requires OrderReady(c, a, o, t) && t <= later
    requires b.processed == a.processed && CurrentQuantity(b, c.symbol) == CurrentQuantity(a, c.symbol)
    ensures OrderReady(c, b, o, later)
  {
    hide Sanctioned, ValidOrder;
    StaysSanctioned(c.risk, a, b, o);
  }

  lemma AccountLater(c: BacktestConfig, a: Account, t: int, later: int)
    requires AccountReady(c, a, t) && t <= later
    ensures AccountReady(c, a, later)
  {
  }

  lemma StepIsSafe(setup: Setup, s: RunState, k: Tick, later: int)
    requires ValidConfig(setup.config) && ReadyFor(setup.config, s, k.time) && WellTimed(setup.config, k) && k.time < later
    ensures WellFormed(s)
    ensures StepAt(setup, s, k).Raised? ==> Tolerable(StepAt(setup, s, k).error)
    ensures StepAt(setup, s, k).Fine? ==> ReadyFor(setup.config, StepAt(setup, s, k).value, later)
    ensures StepAt(setup, s, k).Fine? && k.time == setup.config.end && k.open.Some? ==> StepAt(setup, s, k).value.pending.None?
  {
    hide AtOpening, SelectMark, MarkAccount, DecideAt, PublicOf, Future, AccountReady, OrderReady, WellTimed, EventOf, ValidConfig,
         ValidOrder, CurrentQuantity, ReportFits;
    var c := setup.config;
    NoFuture(c, k);
    CadenceIsPositive(c);
    OpeningIsSafe(c, s, k);
    var phase := AtOpening(c, s, k);
    if phase.Fine? {
      SelectionIsReady(c, s.mark, k);
      var mark := SelectMark(c, s.mark, k);
      MarkingIsSafe(c, phase.value.account, mark, k.time);
      var account := MarkAccount(phase.value.account, mark, k.time).value;
      ReadyIsPublic(c, account, k.time);
      DecidingIsSafe(setup, k, s.decisions, account, later);
      if k.time >= c.end {
        AtTheEnd(setup, k, s.decisions, PublicOf(account).value, CostsFor(account));
      }
      AccountLater(c, account, k.time, later);
      if phase.value.pending.Some? {
        LaterReady(c, s.account, account, s.pending.value, k.time, later);
      }
    }
  }

  lemma CadenceIsPositive(c: BacktestConfig)
    requires ValidConfig(c)
    ensures c.cadence >= 1
  {
  }

  lemma AtTheEnd(setup: Setup, k: Tick, decisions: nat, portfolio: Portfolio, costs: CostBounds)
    requires ValidTick(k) && setup.config.cadence >= 1 && k.time >= setup.config.end
    ensures DecideAt(setup, k, decisions, portfolio, costs) == Fine(NO_DECISION)
  {
    hide Evaluate, Aggregate;
  }

  // ---- every replay ----

  lemma TickIsTimed(c: BacktestConfig, bars: seq<Bar>, t: int)
    requires ValidHistory(bars)
    ensures WellTimed(c, TickAt(c, bars, t)) && TickAt(c, bars, t).time == t
  {
    hide ValidTick, ValidHistory, OpenAt;
    TickIsValid(c, bars, t);
  }

  lemma NewRunIsReady(c: BacktestConfig, openedAt: int, t: int)
    requires ValidConfig(c) && openedAt <= t
    ensures ReadyFor(c, NewRun(c, openedAt), t)
  {
  }

  ghost predicate TimedRun(c: BacktestConfig, ticks: seq<Tick>)
  {
    && (forall i :: 0 <= i < |ticks| ==> WellTimed(c, ticks[i]))
    && (forall i, j :: 0 <= i < j < |ticks| ==> ticks[i].time < ticks[j].time)
  }

  /** Before every event the state is ready for it, unless a tolerable error stopped the run. */
  lemma {:induction false} RunIsSafe(setup: Setup, s: RunState, ticks: seq<Tick>, later: int)
    requires ValidConfig(setup.config) && TimedRun(setup.config, ticks)
    requires ticks != [] ==> ReadyFor(setup.config, s, ticks[0].time) && ticks[|ticks| - 1].time < later
    requires ticks == [] ==> ReadyFor(setup.config, s, later)
    ensures WellFormed(s) && AllValid(ticks) && setup.config.cadence >= 1
    ensures RunTicks(setup, s, ticks).Raised? ==> Tolerable(RunTicks(setup, s, ticks).error)
    ensures RunTicks(setup, s, ticks).Fine? ==> ReadyFor(setup.config, RunTicks(setup, s, ticks).value, later)
    decreases |ticks|
  {
    hide StepAt, ReadyFor, ValidTick, ValidOrder, ValidConfig, WellTimed;
    CadenceIsPositive(setup.config);
    TimedIsValid(setup.config, ticks);
    var n := |ticks| - 1;
    if ticks == [] {
      ReadyIsWellFormed(setup.config, s, later);
    } else {
      ReadyIsWellFormed(setup.config, s, ticks[0].time);
      RunIsSafe(setup, s, ticks[..n], ticks[n].time);
      if RunTicks(setup, s, ticks[..n]).Fine? {
        StepIsSafe(setup, RunTicks(setup, s, ticks[..n]).value, ticks[n], later);
      }
    }
  }

  lemma ReadyIsWellFormed(c: BacktestConfig, s: RunState, t: int)
    requires ReadyFor(c, s, t)
    ensures WellFormed(s)
  {
  }

  lemma TimedIsValid(c: BacktestConfig, ticks: seq<Tick>)
    requires TimedRun(c, ticks)
    ensures AllValid(ticks)
  {
  }

  lemma SortedIsIncreasing(times: seq<int>)
    requires Sorted(times, Below)
    ensures Increasing(times)
    ensures forall i, j :: 0 <= i < j < |times| ==> times[i] < times[j]
  {
    forall i, j | 0 <= i < j < |times|
      ensures times[i] < times[j]
    {
      assert Below(times[i], times[j]);
    }
  }

  lemma EndIsLast(c: BacktestConfig, bars: seq<Bar>)
    ensures var times := EventTimes(c, bars);
      times != [] && times[|times| - 1] == c.end
  {
    var times := EventTimes(c, bars);
    assert c.end in times;
    assert times[|times| - 1] in times;
    var i :| 0 <= i < |times| && times[i] == c.end;
    assert i < |times| - 1 ==> Below(times[i], times[|times| - 1]);
  }

  lemma FirstIsNotBeforeHistory(c: BacktestConfig, bars: seq<Bar>, u: int)
    requires ValidHistory(bars) && OpensAt(bars, c.start) && c.start < c.end
    requires u in EventTimes(c, bars)
    ensures bars != [] && bars[0].openedAt <= u
  {
    hide EventTimes, ValidBar;
    HistoryStarts(bars);
    EngineCausality.EventTimesMean(c, bars, u);
    EngineCausality.HistoryIsSorted(bars);
    forall x | x in bars
      ensures bars[0].openedAt <= x.openedAt < x.availableAt
    {
      var i :| 0 <= i < |bars| && bars[i] == x;
      assert ValidBar(bars[i]);
      EngineCausality.BarIsOrdered(bars[i]);
      assert i > 0 ==> OpensBefore(bars[0], bars[i]);
    }
  }

  lemma ReplayIsTimed(c: BacktestConfig, bars: seq<Bar>)
    requires ValidConfig(c) && ValidHistory(bars) && OpensAt(bars, c.start)
    ensures Increasing(EventTimes(c, bars))
    ensures var ticks := TicksAt(c, bars, EventTimes(c, bars));
      && TimedRun(c, ticks) && ticks != [] && ticks[|ticks| - 1].time == c.end
      && bars != [] && ReadyFor(c, NewRun(c, bars[0].openedAt), ticks[0].time)
  {
    hide EventTimes, ValidHistory, WellTimed, ReadyFor, TickAt, OpensAt, ValidCouncilConfig, ValidPolicy;
    var times := EventTimes(c, bars);
    var ticks := TicksAt(c, bars, times);
    EngineCausality.EventTimesMean(c, bars, c.end);
    SortedIsIncreasing(times);
    EndIsLast(c, bars);
    FirstIsNotBeforeHistory(c, bars, times[0]);
    NewRunIsReady(c, bars[0].openedAt, times[0]);
    forall i | 0 <= i < |ticks|
      ensures WellTimed(c, ticks[i]) && ticks[i].time == times[i]
    {
      TickIsTimed(c, bars, times[i]);
    }
  }

  lemma LastStepSettles(setup: Setup, s: RunState, ticks: seq<Tick>)
    requires ValidConfig(setup.config) && TimedRun(setup.config, ticks) && ticks != []
    requires ReadyFor(setup.config, s, ticks[0].time)
    requires ticks[|ticks| - 1].time == setup.config.end && ticks[|ticks| - 1].open.Some?
    ensures WellFormed(s) && AllValid(ticks) && setup.config.cadence >= 1
    ensures RunTicks(setup, s, ticks).Fine? ==> RunTicks(setup, s, ticks).value.pending.None?
  {
    hide StepAt, ReadyFor, ValidTick, ValidOrder, ValidConfig, WellTimed;
    var n := |ticks| - 1;
    RunIsSafe(setup, s, ticks, setup.config.end + 1);
    assert n > 0 ==> ticks[..n][0] == ticks[0] && ticks[..n][n - 1].time < ticks[n].time;
    RunIsSafe(setup, s, ticks[..n], ticks[n].time);
    if RunTicks(setup, s, ticks[..n]).Fine? {
      StepIsSafe(setup, RunTicks(setup, s, ticks[..n]).value, ticks[n], setup.config.end + 1);
    }
  }

  /** The replay's loop over complete, aligned history can only be stopped by the post-fill
      reconciliation or by what the agents say: time is monotonic, every opening is in the future of
      the order it meets, an open position always has a mark, no future bar reaches a snapshot, every
      approved order is well formed, the broker never raises, and no order is left queued. */
  lemma LoopIsSafe(setup: Setup, bars: seq<Bar>)
    requires ValidConfig(setup.config) && ValidHistory(bars)
    requires OpensAt(bars, setup.config.start) && OpensAt(bars, setup.config.end)
    ensures Increasing(EventTimes(setup.config, bars)) && setup.config.cadence >= 1
    ensures Replay(setup, bars).Raised? ==> Tolerable(Replay(setup, bars).error)
    ensures Replay(setup, bars).Fine? ==>
      var s := Replay(setup, bars).value;
      ReadyFor(setup.config, s, setup.config.end + 1) && s.pending.None? && CostsInRange(s)
  {
    hide RunTicks, EventTimes, ValidHistory, TimedRun, ReadyFor, TickAt, OpensAt, ValidConfig, CostsInRange, Sound, Increasing;
    var c := setup.config;
    CadenceIsPositive(c);
    StartsBeforeEnd(c);
    ReplayIsTimed(c, bars);
    var ticks := TicksAt(c, bars, EventTimes(c, bars));
    var start := NewRun(c, bars[0].openedAt);
    EndOpens(c, bars);
    RunIsSafe(setup, start, ticks, c.end + 1);
    LastStepSettles(setup, start, ticks);
    NewRunIsSound(c, bars[0].openedAt);
    RunKeepsCosts(setup, start, ticks);
  }

  /** What a whole backtest over complete, aligned history can raise, and exactly when the two errors
      after the loop occur: the first when no bar is available by the end, the second when some
      measured event shows a negative equity. */
  lemma OnlyTolerableErrors(setup: Setup, bars: seq<Bar>)
    requires ValidConfig(setup.config) && ValidHistory(bars)
    requires OpensAt(bars, setup.config.start) && OpensAt(bars, setup.config.end)
    ensures setup.config.cadence >= 1
    ensures Replay(setup, bars).Raised? ==>
      Backtest(setup, bars, true) == Replay(setup, bars) && Tolerable(Replay(setup, bars).error)
    ensures Replay(setup, bars).Fine? ==>
      var s := Replay(setup, bars).value;
      && Backtest(setup, bars, true) ==
           (if !SomethingAvailable(bars, setup.config.end) then Raised(NoEndSnapshot)
            else if !NeverNegative(s.events) then Raised(InvalidMetrics)
            else Fine(s))
      && ReadyFor(setup.config, s, setup.config.end + 1) && s.pending.None?
  {
    hide Replay, EventTimes, ValidHistory, ReadyFor, OpensAt, ValidConfig, CostsInRange, Increasing, Summarized, NeverNegative,
         SomethingAvailable;
    LoopIsSafe(setup, bars);
    StartsBeforeEnd(setup.config);
    if Replay(setup, bars).Fine? {
      SummaryDecides(setup.config, bars, Replay(setup, bars).value);
    }
  }

  lemma StartsBeforeEnd(c: BacktestConfig)
    requires ValidConfig(c)
    ensures c.start < c.end && c.startingCash > 0.0
  {
  }

  lemma EndOpens(c: BacktestConfig, bars: seq<Bar>)
    requires OpensAt(bars, c.end)
    ensures var ticks := TicksAt(c, bars, EventTimes(c, bars));
      ticks != [] && ticks[|ticks| - 1].open.Some?
  {
    hide EventTimes;
    EndIsLast(c, bars);
    EngineCausality.OpenAtMeans(bars, c.end);
  }

  /** An answer to a snapshot: at least one signal, each from another agent and about that snapshot. */
  ghost predicate WellAnswered(agents: seq<Snapshot -> Signal>, snapshot: Snapshot)
  {
    var signals := SignalsOf(agents, snapshot);
    signals != [] && UniqueAgents(signals) && forall s :: s in signals ==> SourceFault(snapshot, s).None?
  }

  /** Agents that answer every snapshot this replay asks them about. */
  ghost predicate AgentsBehave(setup: Setup, bars: seq<Bar>)
  {
    forall t :: t in EventTimes(setup.config, bars) && setup.config.start <= t < setup.config.end
                && SnapshotAt(setup.config, bars, t).Some? ==>
      WellAnswered(setup.agents, SnapshotAt(setup.config, bars, t).value)
  }

  /** The same for a list of events. */
  ghost predicate AnswersAt(setup: Setup, k: Tick)
  {
    Eligible(setup.config, k) ==> WellAnswered(setup.agents, k.snapshot.value)
  }

  lemma BehavedDecisions(setup: Setup, k: Tick, decisions: nat, portfolio: Portfolio, costs: CostBounds)
    requires ValidConfig(setup.config) && WellTimed(setup.config, k) && AnswersAt(setup, k)
    ensures ValidTick(k) && setup.config.cadence >= 1
    ensures DecideAt(setup, k, decisions, portfolio, costs).Raised? ==> DecideAt(setup, k, decisions, portfolio, costs).error.InvalidOrder?
  {
    hide Evaluate, ValidOrder, ValidPolicy, ValidCouncilConfig, UniqueAgents, DecisionFrom;
    if ShouldDecide(setup.config, k, decisions) {
      var snapshot := k.snapshot.value;
      var signals := SignalsOf(setup.agents, snapshot);
      forall s | s in signals
        ensures s.generatedAt <= k.time
      {
        assert SourceFault(snapshot, s).None?;
      }
      RoundIsAccepted(setup.config.council, snapshot, signals);
    }
  }

  lemma RoundIsAccepted(c: CouncilConfig, snapshot: Snapshot, signals: seq<Signal>)
    requires signals != [] && UniqueAgents(signals) && forall s :: s in signals ==> SourceFault(snapshot, s).None?
    ensures Aggregate(c, snapshot, signals).Decided?
  {
    hide DecisionFrom, SourceFault;
    SortMembers(signals, ById);
    SameAgents(signals, StableSort(signals, ById));
  }

  lemma ConfigPolicy(c: BacktestConfig)
    requires ValidConfig(c)
    ensures ValidPolicy(c.risk)
  {
    hide ValidPolicy;
  }

  lemma BehavedStep(setup: Setup, s: RunState, k: Tick)
    requires ValidConfig(setup.config) && ReadyFor(setup.config, s, k.time) && WellTimed(setup.config, k)
    requires AnswersAt(setup, k)
    ensures WellFormed(s) && ValidTick(k) && setup.config.cadence >= 1
    ensures StepAt(setup, s, k).Raised? <==> StopsAt(setup.config, s, k)
    ensures StepAt(setup, s, k).Raised? ==> StepAt(setup, s, k).error.NonCompliant?
  {
    hide AtOpening, SelectMark, CanMark, Marked, DecideAt, PublicOf, Future, AccountReady, OrderReady, WellTimed, EventOf, ValidConfig,
         ValidOrder, CurrentQuantity, ReportFits, AnswersAt, StopsAt, ValidPolicy, ValidCouncilConfig;
    StepIsSafe(setup, s, k, k.time + 1);
    ConfigPolicy(setup.config);
    NoFuture(setup.config, k);
    FailureIsExposure(setup.config, s, k);
    CadenceIsPositive(setup.config);
    OpeningIsSafe(setup.config, s, k);
    var phase := AtOpening(setup.config, s, k);
    if phase.Fine? {
      var mark := SelectMark(setup.config, s.mark, k);
      var marked := MarkAccount(phase.value.account, mark, k.time);
      if marked.Fine? && PublicOf(marked.value).Some? {
        BehavedDecisions(setup, k, s.decisions, PublicOf(marked.value).value, CostsFor(marked.value));
      }
    }
  }

  /** The run reaches event `i`, and stops there. */
  ghost predicate StopsIn(setup: Setup, s: RunState, ticks: seq<Tick>, i: nat)
    requires WellFormed(s) && AllValid(ticks) && setup.config.cadence >= 1 && i < |ticks|
  {
    RunTicks(setup, s, ticks[..i]).Fine? && StopsAt(setup.config, RunTicks(setup, s, ticks[..i]).value, ticks[i])
  }

  lemma {:induction false} BehavedRun(setup: Setup, s: RunState, ticks: seq<Tick>)
    requires ValidConfig(setup.config) && TimedRun(setup.config, ticks)
    requires forall i :: 0 <= i < |ticks| ==> AnswersAt(setup, ticks[i])
    requires ticks != [] ==> ReadyFor(setup.config, s, ticks[0].time)
    requires WellFormed(s) && AllValid(ticks) && setup.config.cadence >= 1
    ensures RunTicks(setup, s, ticks).Raised? ==> RunTicks(setup, s, ticks).error.NonCompliant?
    ensures RunTicks(setup, s, ticks).Raised? <==> exists i :: 0 <= i < |ticks| && StopsIn(setup, s, ticks, i)
    decreases |ticks|
  {
    hide StepAt, ReadyFor, ValidTick, ValidOrder, ValidConfig, WellTimed, AnswersAt, StopsAt;
    if ticks != [] {
      var n := |ticks| - 1;
      forall i | 0 <= i < n
        ensures StopsIn(setup, s, ticks, i) <==> StopsIn(setup, s, ticks[..n], i)
      {
        assert ticks[..n][..i] == ticks[..i];
      }
      assert n > 0 ==> ticks[..n][0] == ticks[0] && ticks[..n][n - 1].time < ticks[n].time;
      BehavedRun(setup, s, ticks[..n]);
      if RunTicks(setup, s, ticks[..n]).Fine? {
        RunIsSafe(setup, s, ticks[..n], ticks[n].time);
        BehavedStep(setup, RunTicks(setup, s, ticks[..n]).value, ticks[n]);
        assert StopsIn(setup, s, ticks, n) <==> RunTicks(setup, s, ticks).Raised?;
      } else {
        var i :| 0 <= i < n && StopsIn(setup, s, ticks[..n], i);
        assert StopsIn(setup, s, ticks, i);
      }
    }
  }

  lemma BehavedTicks(setup: Setup, bars: seq<Bar>, times: seq<int>)
    requires AgentsBehave(setup, bars)
    requires forall t :: t in times ==> t in EventTimes(setup.config, bars)
    ensures forall i :: 0 <= i < |times| ==> AnswersAt(setup, TicksAt(setup.config, bars, times)[i])
  {
    hide SnapshotAt, WellAnswered, EventTimes;
  }

  /** The replay reaches its event `i`, and the order queued there passes the broker's gates and does
      not fit. */
  ghost predicate StopsReplay(setup: Setup, bars: seq<Bar>, i: nat)
    requires ValidHistory(bars) && setup.config.cadence >= 1
  {
    && i < |EventTimes(setup.config, bars)| && ReplayTo(setup, bars, i).Fine?
    && StopsAt(setup.config, ReplayTo(setup, bars, i).value, TickAt(setup.config, bars, EventTimes(setup.config, bars)[i]))
  }

  /** With agents that answer every snapshot of the replay, its loop stops if and only if at some event
      it reaches, the queued order is filled at an opening it does not fit. */
  lemma ReplayStops(setup: Setup, bars: seq<Bar>)
    requires ValidConfig(setup.config) && ValidHistory(bars) && AgentsBehave(setup, bars)
    requires OpensAt(bars, setup.config.start)
    ensures setup.config.cadence >= 1
    ensures Replay(setup, bars).Raised? <==> exists i :: StopsReplay(setup, bars, i)
    ensures Replay(setup, bars).Raised? ==> Replay(setup, bars).error.NonCompliant?
  {
    hide RunTicks, EventTimes, ValidHistory, TimedRun, ReadyFor, TickAt, OpensAt, ValidConfig, AgentsBehave, AnswersAt, StopsAt;
    var c := setup.config;
    CadenceIsPositive(c);
    ReplayIsTimed(c, bars);
    var ticks := TicksAt(c, bars, EventTimes(c, bars));
    var start := NewRun(c, bars[0].openedAt);
    TimedIsValid(c, ticks);
    BehavedTicks(setup, bars, EventTimes(c, bars));
    BehavedRun(setup, start, ticks);
    forall i: nat | i < |ticks|
      ensures StopsIn(setup, start, ticks, i) <==> StopsReplay(setup, bars, i)
    {
    }
  }

  /** With agents that answer every snapshot of the replay, a backtest over complete, aligned history
      finishes if and only if it reaches no event at which the queued order is filled without fitting,
      some bar is available by the end, and no measured event shows a negative equity. */
  lemma BacktestFinishes(setup: Setup, bars: seq<Bar>)
    requires ValidConfig(setup.config) && ValidHistory(bars) && AgentsBehave(setup, bars)
    requires OpensAt(bars, setup.config.start) && OpensAt(bars, setup.config.end)
    ensures setup.config.cadence >= 1
    ensures Replay(setup, bars).Fine? <==> !exists i :: StopsReplay(setup, bars, i)
    ensures Backtest(setup, bars, true).Fine? <==>
      && (!exists i :: StopsReplay(setup, bars, i)) && SomethingAvailable(bars, setup.config.end)
      && NeverNegative(Replay(setup, bars).value.events)
    ensures Backtest(setup, bars, true).Raised? ==>
      var e := Backtest(setup, bars, true).error;
      e.NonCompliant? || e.NoEndSnapshot? || e.InvalidMetrics?
  {
    hide Replay, ValidHistory, OpensAt, ValidConfig, AgentsBehave, Backtest, NeverNegative, SomethingAvailable, StopsReplay;
    OnlyTolerableErrors(setup, bars);
    ReplayStops(setup, bars);
  }

  /** Whatever a provider supplies: history that passes the quality assessment with complete coverage
      and a bar at the evaluation start is a valid history with a bar at the evaluation end too, so
      the loop meets tolerable errors only, and after it only the summary's two can follow. */
  lemma AssessedHistoryRuns(setup: Setup, supplied: seq<Bar>, duration: nat, warmup: nat)
    requires ValidConfig(setup.config) && duration > 0 && forall b :: b in supplied ==> ValidBar(b)
    requires var w := Quality.ReplayWindow(duration, warmup, setup.config.start, setup.config.end);
      var r := Quality.Assess(supplied, duration, Some(w));
      r.Good? && r.value.report.complete && OpensAt(r.value.bars, setup.config.start)
    ensures var w := Quality.ReplayWindow(duration, warmup, setup.config.start, setup.config.end);
      var bars := Quality.Assess(supplied, duration, Some(w)).value.bars;
      && setup.config.cadence >= 1 && ValidHistory(bars)
      && (Replay(setup, bars).Raised? ==>
            Backtest(setup, bars, true) == Replay(setup, bars) && Tolerable(Replay(setup, bars).error))
      && (Replay(setup, bars).Fine? ==>
            Backtest(setup, bars, true) ==
              if !SomethingAvailable(bars, setup.config.end) then Raised(NoEndSnapshot)
              else if !NeverNegative(Replay(setup, bars).value.events) then Raised(InvalidMetrics)
              else Replay(setup, bars))
  {
    hide Quality.Assess, ValidConfig, Backtest, Replay, Quality.Tiles, ValidBar, SomethingAvailable, NeverNegative, ReadyFor, Tolerable;
    var c := setup.config;
    var w := Quality.ReplayWindow(duration, warmup, c.start, c.end);
    CadenceIsPositive(c);
    StartsBeforeEnd(c);
    Quality.ReplayHistoryTiles(supplied, duration, warmup, c.start, c.end);
    Quality.AssessedAreSupplied(supplied, duration, Some(w));
    Quality.TilesAbut(Quality.Assess(supplied, duration, Some(w)).value.bars, duration, w);
    StartsSomewhere(Quality.Assess(supplied, duration, Some(w)).value.bars, c.start);
    OnlyTolerableErrors(setup, Quality.Assess(supplied, duration, Some(w)).value.bars);
  }

  lemma StartsSomewhere(bars: seq<Bar>, t: int)
    requires OpensAt(bars, t)
    ensures bars != []
  {
  }
}
