/** The risk governor: final authority over every order, and the check after every fill. */
module Governor {
  import opened Sequences
  import opened Trading

  datatype RiskPolicy = RiskPolicy(
    minimumConfidence: real,
    maxPositionFraction: real,
    maxGrossFraction: real,
    maxOrderNotional: real,
    minimumCashFraction: real,
    maxVolatility: real,
    maxSignalAge: int,
    maxObservationAge: int,
    orderValidity: int,
    maxFeeBps: real,
    maxSlippageBps: real,
    allowShorting: bool,
    allowedSymbols: seq<int>)

  predicate ValidPolicy(p: RiskPolicy)
  {
    && 0.0 <= p.minimumConfidence <= 1.0
    && 0.0 < p.maxPositionFraction <= p.maxGrossFraction <= 1.0
    && p.maxOrderNotional > 0.0
    && 0.0 <= p.minimumCashFraction <= 1.0
    && p.maxVolatility > 0.0
    && p.maxSignalAge >= 0 && p.maxObservationAge >= 0 && p.orderValidity > 0
    && 0.0 <= p.maxFeeBps <= BPS && 0.0 <= p.maxSlippageBps <= BPS
  }

  datatype Reason =
    | DecisionMismatch | SourceMismatch | SnapshotFuture | ObservationFuture | ObservationStale
    | NotMarked | MarkFuture(symbol: int) | MarkStale(symbol: int)
    | DecisionFuture | DecisionStale | DecisionExpired
    | SignalFuture(agent: int) | SignalStale(agent: int) | SignalExpired(agent: int)
    | SignalInvalid(agent: int) | SignalSource(agent: int) | SignalPredates(agent: int)
    | VolatilityFuture(agent: int) | VolatilityStale(agent: int)
    | FeeBound | SlippageBound | NotActionable | NoTarget | AlreadyAtTarget | WouldNotReduce
    | ShortingDisabled | LowConfidence | SymbolNotPermitted | PortfolioInvalid
    | NoVolatility | VolatilityExceeded
    | NonPositiveFill | CashReserve | NonPositiveEquity | GrossLimit | PositionLimit
    | ExpiredBeforeAuthorization
    | NotFilled | AuthorizationMismatch | TermsMismatch | SlippageBreach | SlippageMisreported
    | FeeBreach | SubmittedBeforeAuthorization | FilledBeforeSubmission | FilledBeforeWindow
    | FilledAfterExpiry | NotValuedAtFill | QuantityMismatch | CashMismatch | DidNotReduce
    | PostEquity | PostGross | PostCash | OrderTooLarge | PostPosition(symbol: int)
    | PostShort(symbol: int) | PostSymbol

  function When(condition: bool, reason: Reason): (r: seq<Reason>)
    ensures |r| == 0 <==> !condition
  {
    if condition then [reason] else []
  }

  // ---- causal checks ----

  function PositionAges(positions: seq<Position>, at: int, maxAge: int): seq<Reason>
  {
    if positions == [] then []
    else
      var last := positions[|positions| - 1];
      PositionAges(positions[..|positions| - 1], at, maxAge)
      + (if at < last.markObservedAt then [MarkFuture(last.symbol)]
         else When(at - last.markObservedAt > maxAge, MarkStale(last.symbol)))
  }

  function SignalFaults(policy: RiskPolicy, s: Signal, snapshot: Snapshot, at: int): seq<Reason>
  {
    (if at < s.generatedAt then [SignalFuture(s.agentId)]
     else When(at - s.generatedAt > policy.maxSignalAge, SignalStale(s.agentId)))
    + When(s.expiresAt < at, SignalExpired(s.agentId))
    + When(s.validity.InvalidSignal?, SignalInvalid(s.agentId))
    + When(s.source != snapshot.Id() || s.sourceAsOf != snapshot.asOf, SignalSource(s.agentId))
    + When(s.generatedAt < snapshot.observedAt, SignalPredates(s.agentId))
    + (if s.volatility.None? then []
       else if at < s.volatility.value.observedAt then [VolatilityFuture(s.agentId)]
       else When(at - s.volatility.value.observedAt > policy.maxObservationAge, VolatilityStale(s.agentId)))
  }

  function AllSignalFaults(policy: RiskPolicy, signals: seq<Signal>, snapshot: Snapshot, at: int): seq<Reason>
  {
    if signals == [] then []
    else
      AllSignalFaults(policy, signals[..|signals| - 1], snapshot, at)
      + SignalFaults(policy, signals[|signals| - 1], snapshot, at)
  }

  function HeadReasons(policy: RiskPolicy, d: Decision, snapshot: Snapshot, portfolio: Portfolio, at: int): seq<Reason>
    requires snapshot.bars != []
  {
    When(d.symbol != snapshot.symbol || d.timeframe != snapshot.timeframe, DecisionMismatch)
    + When(d.source != snapshot.Id() || d.sourceAsOf != snapshot.asOf, SourceMismatch)
    + When(snapshot.asOf > at || snapshot.observedAt > at, SnapshotFuture)
    + (if at < snapshot.Last().availableAt then [ObservationFuture]
       else When(at - snapshot.Last().availableAt > policy.maxObservationAge, ObservationStale))
    + When(portfolio.valuedAt != at, NotMarked)
  }

  function DecisionReasons(policy: RiskPolicy, d: Decision, at: int): seq<Reason>
  {
    (if at < d.decidedAt then [DecisionFuture] else When(at - d.decidedAt > policy.maxSignalAge, DecisionStale))
    + When(d.expiresAt < at, DecisionExpired)
  }

  function CausalReasons(policy: RiskPolicy, d: Decision, snapshot: Snapshot, portfolio: Portfolio, at: int): seq<Reason>
    requires snapshot.bars != []
  {
    HeadReasons(policy, d, snapshot, portfolio, at)
    + PositionAges(portfolio.positions, at, policy.maxObservationAge)
    + DecisionReasons(policy, d, at)
    + AllSignalFaults(policy, d.signals, snapshot, at)
  }

  method CollectPositionAges(positions: seq<Position>, at: int, maxAge: int) returns (reasons: seq<Reason>)
    ensures reasons == PositionAges(positions, at, maxAge)
  {
    reasons := [];
    for i := 0 to |positions|
      invariant reasons == PositionAges(positions[..i], at, maxAge)
    {
      assert positions[..i + 1][..i] == positions[..i];
      var age := at - positions[i].markObservedAt;
      if age < 0 {
        reasons := reasons + [MarkFuture(positions[i].symbol)];
      } else if age > maxAge {
        reasons := reasons + [MarkStale(positions[i].symbol)];
      }
    }
    assert positions[..|positions|] == positions;
  }

  method CollectSignalFaults(policy: RiskPolicy, signals: seq<Signal>, snapshot: Snapshot, at: int)
    returns (reasons: seq<Reason>)
    ensures reasons == AllSignalFaults(policy, signals, snapshot, at)
  {
    reasons := [];
    for i := 0 to |signals|
      invariant reasons == AllSignalFaults(policy, signals[..i], snapshot, at)
    {
      assert signals[..i + 1][..i] == signals[..i];
      reasons := reasons + SignalFaults(policy, signals[i], snapshot, at);
    }
    assert signals[..|signals|] == signals;
  }

  /** The source's `_causal_reasons`: one list, appended to in four parts. */
  method CollectCausalReasons(policy: RiskPolicy, d: Decision, snapshot: Snapshot, portfolio: Portfolio, at: int)
    returns (reasons: seq<Reason>)
    requires snapshot.bars != []
    ensures reasons == CausalReasons(policy, d, snapshot, portfolio, at)
  {
    var ages := CollectPositionAges(portfolio.positions, at, policy.maxObservationAge);
    var faults := CollectSignalFaults(policy, d.signals, snapshot, at);
    reasons := HeadReasons(policy, d, snapshot, portfolio, at) + ages + DecisionReasons(policy, d, at) + faults;
  }

  // ---- restrictions ----

  /** The volatilities that count: the snapshot's own and every signal's valid one. */
  function Volatilities(own: Option<real>, signals: seq<Signal>): seq<real>
  {
    if signals == [] then (if own.Some? then [own.value] else [])
    else
      var last := signals[|signals| - 1];
      Volatilities(own, signals[..|signals| - 1])
      + (if last.volatility.Some? && last.volatility.value.value.Some? then [last.volatility.value.value.value] else [])
  }

  predicate SomeAbove(values: seq<real>, limit: real)
  {
    exists i :: 0 <= i < |values| && values[i] > limit
  }

  function RestrictionReasons(policy: RiskPolicy, d: Decision, volatility: Option<real>, portfolio: Portfolio, prospective: real): seq<Reason>
  {
    var values := Volatilities(volatility, d.signals);
    When(prospective < -QUANTITY_TOLERANCE && !policy.allowShorting, ShortingDisabled)
    + When(d.confidence < policy.minimumConfidence, LowConfidence)
    + When(policy.allowedSymbols != [] && d.symbol !in policy.allowedSymbols, SymbolNotPermitted)
    + When(portfolio.equity <= 0.0 || portfolio.cash < 0.0, PortfolioInvalid)
    + (if values == [] then [NoVolatility] else When(SomeAbove(values, policy.maxVolatility), VolatilityExceeded))
  }

  // ---- the order the governor would authorize ----

  datatype Plan = Plan(
    current: real, currentNotional: real, target: real, delta: real, orderNotional: real,
    side: OrderSide, flattening: bool, quantity: real, prospective: real, reducing: bool)

  function PlanFrom(policy: RiskPolicy, targetNotional: real, current: real, mark: real, held: bool, price: real): Plan
    requires price > 0.0
  {
    var currentNotional := current * mark;
    var delta := targetNotional - currentNotional;
    var orderNotional := Min(Abs(delta), policy.maxOrderNotional);
    var side := if delta > 0.0 then Buy else Sell;
    var flattening :=
      && Abs(targetNotional) <= NOTIONAL_TOLERANCE
      && held
      && Abs(currentNotional) <= policy.maxOrderNotional + NOTIONAL_TOLERANCE;
    var quantity := if flattening then Abs(current) else orderNotional / price;
    var prospective := Snapped(current + SignedFill(side, quantity));
    Plan(current, currentNotional, targetNotional, delta, orderNotional, side, flattening, quantity,
         prospective, StrictlyReduces(current, prospective))
  }

  function TargetNotional(policy: RiskPolicy, target: real, equity: real): real
  {
    target * equity * policy.maxPositionFraction
  }

  function PlanFor(policy: RiskPolicy, targetNotional: real, position: Option<Position>, price: real): Plan
    requires price > 0.0
  {
    match position
    case Some(p) => PlanFrom(policy, targetNotional, p.quantity, p.mark, true, price)
    case None => PlanFrom(policy, targetNotional, 0.0, price, false, price)
  }

  datatype Prospect = Prospect(worstPrice: real, cash: real, equity: real, symbolNotional: real, gross: real)

  function ProspectOf(plan: Plan, costs: CostBounds, portfolio: Portfolio, price: real): Prospect
  {
    var worst := price * (if plan.side.Buy? then 1.0 + costs.slippageBps / BPS else 1.0 - costs.slippageBps / BPS);
    var fee := plan.quantity * worst * costs.feeBps / BPS;
    var cashDelta := plan.quantity * worst;
    var cash := if plan.side.Buy? then portfolio.cash - cashDelta - fee else portfolio.cash + cashDelta - fee;
    var equity := portfolio.equity + SignedFill(plan.side, plan.quantity) * price + (cash - portfolio.cash);
    var symbolNotional := plan.prospective * price;
    Prospect(worst, cash, equity, symbolNotional,
             portfolio.GrossExposure() - Abs(plan.currentNotional) + Abs(symbolNotional))
  }

  function LimitReasons(policy: RiskPolicy, p: Prospect): seq<Reason>
  {
    When(p.cash < p.equity * policy.minimumCashFraction, CashReserve)
    + (if p.equity <= 0.0 then [NonPositiveEquity]
       else When(p.gross > p.equity * policy.maxGrossFraction, GrossLimit))
    + When(p.equity > 0.0 && Abs(p.symbolNotional) > p.equity * policy.maxPositionFraction + NOTIONAL_TOLERANCE,
           PositionLimit)
  }

  datatype RiskDecision =
    | Approved(order: ApprovedOrder)
    | Vetoed(reasons: seq<Reason>)

  function OrderFor(policy: RiskPolicy, d: Decision, snapshot: Snapshot, plan: Plan, costs: CostBounds, at: int): ApprovedOrder
    requires snapshot.bars != []
  {
    var validity := at + policy.orderValidity;
    ApprovedOrder(
      AuthorizationId(d.id, plan.side, plan.quantity, snapshot.LastPrice(), at),
      d.id, snapshot.Id(), d.symbol, d.timeframe, plan.side, plan.quantity, snapshot.LastPrice(),
      at, at, if d.expiresAt <= validity then d.expiresAt else validity,
      costs.feeBps, costs.slippageBps, plan.reducing)
  }

  /** `volatility` is the realized volatility of the snapshot, `None` when it has too few bars. */
  function Evaluate(
    policy: RiskPolicy, d: Decision, snapshot: Snapshot, volatility: Option<real>,
    portfolio: Portfolio, costs: CostBounds, at: int): RiskDecision
    requires snapshot.bars != [] && snapshot.LastPrice() > 0.0
  {
    var causal := CausalReasons(policy, d, snapshot, portfolio, at);
    if causal != [] then Vetoed(causal)
    else if costs.feeBps > policy.maxFeeBps then Vetoed([FeeBound])
    else if costs.slippageBps > policy.maxSlippageBps then Vetoed([SlippageBound])
    else if d.action.Abstain? || d.action.NoAction? then Vetoed([NotActionable])
    else if d.targetExposure.None? then Vetoed([NoTarget])
    else
      var plan := PlanFor(policy, TargetNotional(policy, d.targetExposure.value, portfolio.equity),
                          FindPosition(portfolio.positions, d.symbol), snapshot.LastPrice());
      if plan.orderNotional <= NOTIONAL_TOLERANCE then Vetoed([AlreadyAtTarget])
      else if d.action.ReduceOnly? && !plan.reducing then Vetoed([WouldNotReduce])
      else
        var restrictions := RestrictionReasons(policy, d, volatility, portfolio, plan.prospective);
        var prospect := ProspectOf(plan, costs, portfolio, snapshot.LastPrice());
        var limits := LimitReasons(policy, prospect);
        var order := OrderFor(policy, d, snapshot, plan, costs, at);
        if restrictions != [] && !plan.reducing then Vetoed(restrictions)
        else if prospect.worstPrice <= 0.0 then Vetoed([NonPositiveFill])
        else if limits != [] && !plan.reducing then Vetoed(limits)
        else if order.expiresAt < at then Vetoed([ExpiredBeforeAuthorization])
        else Approved(order)
  }

  // ---- reconciliation after a fill ----

  function QuantityOf(positions: seq<Position>, symbol: int): real
  {
    var p := FindPosition(positions, symbol);
    if p.Some? then p.value.quantity else 0.0
  }

  function RealizedSlippage(order: ApprovedOrder, fillPrice: real): real
    requires order.referencePrice > 0.0
  {
    var direction := if order.side.Buy? then 1.0 else -1.0;
    Max(0.0, direction * (fillPrice / order.referencePrice - 1.0) * BPS)
  }

  function TermReasons(order: ApprovedOrder, report: ExecutionReport): seq<Reason>
  {
    When(!report.outcome.Filled?, NotFilled)
    + When(report.authorization != order.authorization, AuthorizationMismatch)
    + When(report.symbol != order.symbol || report.side != order.side || report.quantity != order.quantity, TermsMismatch)
  }

  function PriceReasons(order: ApprovedOrder, report: ExecutionReport): seq<Reason>
    requires order.referencePrice > 0.0 && report.outcome.Filled?
  {
    var price := report.outcome.fillPrice;
    var realized := RealizedSlippage(order, price);
    When(realized > order.maxSlippageBps + NOTIONAL_TOLERANCE, SlippageBreach)
    + When(!IsClose(report.slippageBps, realized), SlippageMisreported)
    + When(report.fee > report.quantity * price * order.maxFeeBps / BPS + NOTIONAL_TOLERANCE, FeeBreach)
  }

  function TimeReasons(order: ApprovedOrder, report: ExecutionReport, after: Portfolio): seq<Reason>
    requires report.outcome.Filled?
  {
    var at := report.outcome.filledAt;
    When(report.submittedAt > at, FilledBeforeSubmission)
    + When(at < order.earliestFillAt, FilledBeforeWindow)
    + When(at > order.expiresAt, FilledAfterExpiry)
    + When(after.valuedAt != at, NotValuedAtFill)
  }

  function ExpectedCash(report: ExecutionReport, before: Portfolio): real
    requires report.outcome.Filled?
  {
    var notional := report.quantity * report.outcome.fillPrice;
    if report.side.Buy? then before.cash - notional - report.fee else before.cash + notional - report.fee
  }

  function ExpectedQuantity(order: ApprovedOrder, report: ExecutionReport, before: Portfolio): real
  {
    QuantityOf(before.positions, order.symbol) + SignedFill(report.side, report.quantity)
  }

  function BalanceReasons(order: ApprovedOrder, report: ExecutionReport, before: Portfolio, after: Portfolio): seq<Reason>
    requires report.outcome.Filled?
  {
    When(!IsClose(QuantityOf(after.positions, order.symbol), ExpectedQuantity(order, report, before)), QuantityMismatch)
    + When(!IsClose(after.cash, ExpectedCash(report, before)), CashMismatch)
  }

  function FaultsOf(policy: RiskPolicy, p: Position, equity: real): seq<Reason>
  {
    When(equity > 0.0 && Abs(p.Notional()) > equity * policy.maxPositionFraction + NOTIONAL_TOLERANCE, PostPosition(p.symbol))
    + When(p.quantity < -QUANTITY_TOLERANCE && !policy.allowShorting, PostShort(p.symbol))
  }

  function PositionFaults(policy: RiskPolicy, positions: seq<Position>, equity: real): seq<Reason>
  {
    if positions == [] then []
    else PositionFaults(policy, positions[..|positions| - 1], equity) + FaultsOf(policy, positions[|positions| - 1], equity)
  }

  function ExposureHead(policy: RiskPolicy, order: ApprovedOrder, after: Portfolio): seq<Reason>
  {
    (if after.equity <= 0.0 then [PostEquity]
     else When(after.GrossExposure() > after.equity * policy.maxGrossFraction, PostGross))
    + When(after.cash < after.equity * policy.minimumCashFraction, PostCash)
    + When(order.quantity * order.referencePrice > policy.maxOrderNotional + NOTIONAL_TOLERANCE, OrderTooLarge)
  }

  function SymbolFault(policy: RiskPolicy, order: ApprovedOrder): seq<Reason>
  {
    When(policy.allowedSymbols != [] && order.symbol !in policy.allowedSymbols, PostSymbol)
  }

  function ReduceFault(order: ApprovedOrder, before: Portfolio, after: Portfolio): seq<Reason>
  {
    When(order.reduceOnly
         && !StrictlyReduces(QuantityOf(before.positions, order.symbol), QuantityOf(after.positions, order.symbol)),
         DidNotReduce)
  }

  function ExposureReasons(policy: RiskPolicy, order: ApprovedOrder, after: Portfolio): seq<Reason>
  {
    if order.reduceOnly then []
    else
      ExposureHead(policy, order, after)
      + PositionFaults(policy, after.positions, after.equity)
      + SymbolFault(policy, order)
  }

  /** Every reason, in the order the source appends them. */
  function ReconcileReasons(policy: RiskPolicy, order: ApprovedOrder, report: ExecutionReport, before: Portfolio, after: Portfolio): seq<Reason>
    requires order.referencePrice > 0.0
  {
    TermReasons(order, report)
    + (if report.outcome.Filled? then PriceReasons(order, report) else [])
    + When(report.submittedAt < order.authorizedAt, SubmittedBeforeAuthorization)
    + (if report.outcome.Filled?
       then TimeReasons(order, report, after) + BalanceReasons(order, report, before, after) else [])
    + ReduceFault(order, before, after)
    + ExposureReasons(policy, order, after)
  }

  predicate Compliant(policy: RiskPolicy, order: ApprovedOrder, report: ExecutionReport, before: Portfolio, after: Portfolio)
    requires order.referencePrice > 0.0
  {
    ReconcileReasons(policy, order, report, before, after) == []
  }

  method CollectPositionFaults(policy: RiskPolicy, positions: seq<Position>, equity: real)
    returns (reasons: seq<Reason>)
    ensures reasons == PositionFaults(policy, positions, equity)
  {
    reasons := [];
    for i := 0 to |positions|
      invariant reasons == PositionFaults(policy, positions[..i], equity)
    {
      var position := positions[i];
      assert positions[..i + 1][..i] == positions[..i];
      var faults: seq<Reason> := [];
      if equity > 0.0 && Abs(position.Notional()) > equity * policy.maxPositionFraction + NOTIONAL_TOLERANCE {
        faults := faults + [PostPosition(position.symbol)];
      }
      if position.quantity < -QUANTITY_TOLERANCE && !policy.allowShorting {
        faults := faults + [PostShort(position.symbol)];
      }
      assert faults == FaultsOf(policy, position, equity);
      reasons := reasons + faults;
    }
    assert positions[..|positions|] == positions;
  }

  /** The source's `reconcile`, with its loop over the positions. */
  method Reconcile(policy: RiskPolicy, order: ApprovedOrder, report: ExecutionReport, before: Portfolio, after: Portfolio)
    returns (compliant: bool, reasons: seq<Reason>)
    requires order.referencePrice > 0.0
    ensures reasons == ReconcileReasons(policy, order, report, before, after)
    ensures compliant == Compliant(policy, order, report, before, after)
  {
    reasons := TermReasons(order, report);
    if report.outcome.Filled? {
      reasons := reasons + PriceReasons(order, report);
    }
    reasons := reasons + When(report.submittedAt < order.authorizedAt, SubmittedBeforeAuthorization);
    if report.outcome.Filled? {
      reasons := reasons + (TimeReasons(order, report, after) + BalanceReasons(order, report, before, after));
    }
    reasons := reasons + ReduceFault(order, before, after);
    if !order.reduceOnly {
      var faults := CollectPositionFaults(policy, after.positions, after.equity);
      reasons := reasons + (ExposureHead(policy, order, after) + faults + SymbolFault(policy, order));
    }
    compliant := reasons == [];
  }
}
