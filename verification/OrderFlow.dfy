/** From approval to fill to reconciliation: what the governor authorizes, the paper broker
    fills, and the governor then accepts. */
module OrderFlow {
  import opened Sequences
  import opened Trading
  import opened Paper
  import opened Governor

  // ---- accounts that hold at most one symbol ----

  ghost predicate HoldsOnly(a: Account, symbol: int)
  {
    a.positions.Keys <= {symbol}
  }

  /** The public state of such an account. */
  function StateOf(a: Account, symbol: int): Portfolio
  {
    if symbol in a.positions then
      var p := a.positions[symbol];
      Portfolio(a.cash, a.cash + p.quantity * p.mark, a.valuedAt,
                [Position(symbol, p.quantity, p.averageEntry, p.mark, p.markObservedAt)])
    else Portfolio(a.cash, a.cash, a.valuedAt, [])
  }

  lemma SortedSingleton(s: set<int>, x: int)
    requires s == {x}
    ensures SortedInts(s) == [x]
  {
    var r := SortedInts(s);
    SortedUnique(r, [x], Below);
  }

  lemma PublicState(a: Account, symbol: int)
    requires ValidAccount(a) && HoldsOnly(a, symbol)
    ensures BuildState(a.cash, a.positions, a.valuedAt) == Some(StateOf(a, symbol))
  {
    if symbol in a.positions {
      assert a.positions.Keys == {symbol};
      SortedSingleton(a.positions.Keys, symbol);
      var visible := PublicPositions(a.positions, [symbol]);
      assert PublicPositions(a.positions, [symbol][1..]) == [];
      assert visible == StateOf(a, symbol).positions;
      assert visible[1..] == [];
      assert SumNotional(visible) == visible[0].Notional() + SumNotional(visible[1..]);
      assert SumNotional(visible) == a.positions[symbol].quantity * a.positions[symbol].mark;
      assert BuildState(a.cash, a.positions, a.valuedAt).Some?;
      assert BuildState(a.cash, a.positions, a.valuedAt).value.positions == visible;
      assert BuildState(a.cash, a.positions, a.valuedAt).value.equity == StateOf(a, symbol).equity;
    } else {
      assert a.positions.Keys == {};
    }
  }

  lemma StateFacts(a: Account, symbol: int)
    ensures var s := StateOf(a, symbol);
      && QuantityOf(s.positions, symbol) == CurrentQuantity(a, symbol)
      && FindPosition(s.positions, symbol).Some? == (symbol in a.positions)
      && s.GrossExposure() == if symbol in a.positions then Abs(a.positions[symbol].quantity * a.positions[symbol].mark) else 0.0
  {
    var s := StateOf(a, symbol);
    if symbol in a.positions {
      assert s.positions[1..] == [];
      assert SumGross(s.positions) == Abs(s.positions[0].Notional()) + SumGross([]);
    }
  }

  /** The same holdings at another moment: only marks and valuation times may differ. */
  ghost predicate SameHoldings(a: Account, b: Account)
  {
    && a.cash == b.cash && a.feeBps == b.feeBps && a.slippageBps == b.slippageBps
    && a.positions.Keys == b.positions.Keys
    && (forall s :: s in a.positions ==>
          a.positions[s].quantity == b.positions[s].quantity
          && a.positions[s].averageEntry == b.positions[s].averageEntry)
  }

  /** Marked at `price` wherever it holds something. */
  ghost predicate MarkedAt(a: Account, symbol: int, price: real)
  {
    symbol in a.positions ==> a.positions[symbol].mark == price
  }

  function CostsOf(a: Account): CostBounds { CostBounds(a.feeBps, a.slippageBps) }

  function PlanOf(policy: RiskPolicy, targetNotional: real, a: Account, symbol: int, price: real): Plan
    requires price > 0.0
  {
    PlanFor(policy, targetNotional, FindPosition(StateOf(a, symbol).positions, symbol), price)
  }

  function TargetOf(policy: RiskPolicy, d: Decision, a: Account): real
    requires d.targetExposure.Some?
  {
    TargetNotional(policy, d.targetExposure.value, StateOf(a, d.symbol).equity)
  }

  // ---- the plan ----

  lemma Quotient(q: real, x: real, y: real)
    requires y > 0.0 && q == x / y
    ensures q * y == x && (x > 0.0 ==> q > 0.0)
  {
  }

  /** What a plan is, with the position marked at the planning price. */
  ghost predicate WellPlanned(plan: Plan, policy: RiskPolicy, price: real, held: bool)
    requires price > 0.0
  {
    && plan.currentNotional == plan.current * price
    && plan.delta == plan.target - plan.currentNotional
    && plan.orderNotional == Min(Abs(plan.delta), policy.maxOrderNotional)
    && (plan.side.Buy? <==> plan.delta > 0.0)
    && (plan.flattening <==> Abs(plan.target) <= NOTIONAL_TOLERANCE && held
                             && Abs(plan.currentNotional) <= policy.maxOrderNotional + NOTIONAL_TOLERANCE)
    && (plan.flattening ==> plan.quantity == Abs(plan.current))
    && (!plan.flattening ==> plan.quantity == plan.orderNotional / price)
    && plan.prospective == Snapped(plan.current + SignedFill(plan.side, plan.quantity))
    && plan.reducing == StrictlyReduces(plan.current, plan.prospective)
  }

  lemma PlanIsWell(policy: RiskPolicy, target: real, current: real, held: bool, price: real)
    requires price > 0.0
    ensures WellPlanned(PlanFrom(policy, target, current, price, held, price), policy, price, held)
  {
    hide Snapped, StrictlyReduces, Min, Abs, SignedFill;
  }

  lemma PositionInState(a: Account, symbol: int)
    ensures var p := FindPosition(StateOf(a, symbol).positions, symbol);
      && (p.Some? <==> symbol in a.positions)
      && (p.Some? ==> p.value.quantity == a.positions[symbol].quantity && p.value.mark == a.positions[symbol].mark)
  {
  }

  lemma AccountPlan(policy: RiskPolicy, target: real, a: Account, symbol: int, price: real)
    requires price > 0.0 && MarkedAt(a, symbol, price)
    ensures PlanOf(policy, target, a, symbol, price).current == CurrentQuantity(a, symbol)
    ensures WellPlanned(PlanOf(policy, target, a, symbol, price), policy, price, symbol in a.positions)
  {
    PositionInState(a, symbol);
    PlanIsWell(policy, target, CurrentQuantity(a, symbol), symbol in a.positions, price);
  }

  /** Flattening orders close the position exactly, whichever side it is on. */
  lemma FlatteningCloses(plan: Plan, policy: RiskPolicy, price: real)
    requires price > 0.0 && WellPlanned(plan, policy, price, true)
    requires plan.flattening && plan.orderNotional > NOTIONAL_TOLERANCE && Abs(plan.current) > QUANTITY_TOLERANCE
    ensures plan.current + SignedFill(plan.side, plan.quantity) == 0.0
    ensures plan.prospective == 0.0 && plan.reducing && plan.quantity > QUANTITY_TOLERANCE
  {
    if plan.current > 0.0 {
      assert plan.current * price > 0.0;
    } else {
      assert (-plan.current) * price > 0.0;
    }
  }

  lemma PlanQuantity(plan: Plan, policy: RiskPolicy, price: real, held: bool)
    requires price > 0.0 && policy.maxOrderNotional > 0.0 && WellPlanned(plan, policy, price, held)
    requires held ==> Abs(plan.current) > QUANTITY_TOLERANCE
    requires plan.orderNotional > NOTIONAL_TOLERANCE
    ensures plan.quantity > 0.0
    ensures plan.flattening ==> plan.reducing
    ensures plan.orderNotional <= policy.maxOrderNotional
  {
    if plan.flattening {
      FlatteningCloses(plan, policy, price);
    } else {
      Quotient(plan.quantity, plan.orderNotional, price);
    }
  }

  /** Flattening closes the position at any mark, because a mark is positive. */
  lemma FlatteningReduces(policy: RiskPolicy, target: real, current: real, mark: real, price: real)
    requires price > 0.0 && mark > 0.0 && Abs(current) > QUANTITY_TOLERANCE
    requires var plan := PlanFrom(policy, target, current, mark, true, price);
      plan.flattening && plan.orderNotional > NOTIONAL_TOLERANCE
    ensures var plan := PlanFrom(policy, target, current, mark, true, price);
      plan.quantity > 0.0 && plan.prospective == 0.0 && plan.reducing
  {
    if current > 0.0 {
      assert current * mark > 0.0;
    } else {
      assert (-current) * mark > 0.0;
    }
  }

  lemma PlanSizes(policy: RiskPolicy, target: real, current: real, mark: real, held: bool, price: real)
    requires policy.maxOrderNotional > 0.0 && price > 0.0 && mark > 0.0 && (held ==> Abs(current) > QUANTITY_TOLERANCE)
    requires PlanFrom(policy, target, current, mark, held, price).orderNotional > NOTIONAL_TOLERANCE
    ensures var plan := PlanFrom(policy, target, current, mark, held, price);
      plan.quantity > 0.0 && (!plan.reducing ==> plan.quantity * price <= policy.maxOrderNotional)
  {
    hide StrictlyReduces, Snapped;
    var plan := PlanFrom(policy, target, current, mark, held, price);
    if plan.flattening {
      FlatteningReduces(policy, target, current, mark, price);
    } else {
      Quotient(plan.quantity, plan.orderNotional, price);
    }
  }

  lemma AccountPlanSizes(policy: RiskPolicy, target: real, a: Account, symbol: int, price: real)
    requires ValidPolicy(policy) && ValidAccount(a) && price > 0.0
    requires PlanOf(policy, target, a, symbol, price).orderNotional > NOTIONAL_TOLERANCE
    ensures var plan := PlanOf(policy, target, a, symbol, price);
      && plan.current == CurrentQuantity(a, symbol) && plan.quantity > 0.0
      && (!plan.reducing ==> plan.quantity * price <= policy.maxOrderNotional)
      && plan.prospective == Snapped(plan.current + SignedFill(plan.side, plan.quantity))
      && plan.reducing == StrictlyReduces(plan.current, plan.prospective)
  {
    hide StrictlyReduces, Snapped, PlanFrom;
    PositionInState(a, symbol);
    AccountBasics(policy, a, symbol);
    if symbol in a.positions {
      assert ValidPaperPosition(a.positions[symbol]);
      PlanSizes(policy, target, a.positions[symbol].quantity, a.positions[symbol].mark, true, price);
      PlanParts(policy, target, a.positions[symbol].quantity, a.positions[symbol].mark, true, price);
    } else {
      PlanSizes(policy, target, 0.0, price, false, price);
      PlanParts(policy, target, 0.0, price, false, price);
    }
  }

  lemma PlanParts(policy: RiskPolicy, target: real, current: real, mark: real, held: bool, price: real)
    requires price > 0.0
    ensures var plan := PlanFrom(policy, target, current, mark, held, price);
      && plan.current == current && plan.prospective == Snapped(current + SignedFill(plan.side, plan.quantity))
      && plan.reducing == StrictlyReduces(current, plan.prospective)
  {
    hide StrictlyReduces, Snapped;
  }

  // ---- the fill ----

  lemma FillNumbers(a: Account, plan: Plan, order: ApprovedOrder, opening: OpeningPrice, price: real)
    requires price > 0.0 && opening.price == price && order.referencePrice == price
    requires order.side == plan.side && order.quantity == plan.quantity
    requires plan.current == CurrentQuantity(a, order.symbol)
    requires plan.prospective == Snapped(plan.current + SignedFill(plan.side, plan.quantity))
    ensures var portfolio := StateOf(a, order.symbol);
      var prospect := ProspectOf(plan, CostsOf(a), portfolio, price);
      && FillPrice(a, order, opening) == prospect.worstPrice
      && CashAfter(a, order, prospect.worstPrice) == prospect.cash
      && NewQuantity(a, order) == plan.prospective
  {
    hide *;
    WorstIsFill(a, plan, order, opening, price);
    CashIsProspect(a, plan, order, price);
    NewIsProspective(a, plan, order);
  }

  lemma WorstIsFill(a: Account, plan: Plan, order: ApprovedOrder, opening: OpeningPrice, price: real)
    requires opening.price == price && order.side == plan.side
    ensures FillPrice(a, order, opening) == ProspectOf(plan, CostsOf(a), StateOf(a, order.symbol), price).worstPrice
  {
    hide StateOf, Abs;
  }

  lemma CashIsProspect(a: Account, plan: Plan, order: ApprovedOrder, price: real)
    requires order.side == plan.side && order.quantity == plan.quantity
    ensures var prospect := ProspectOf(plan, CostsOf(a), StateOf(a, order.symbol), price);
      CashAfter(a, order, prospect.worstPrice) == prospect.cash
  {
  }

  lemma NewIsProspective(a: Account, plan: Plan, order: ApprovedOrder)
    requires order.side == plan.side && order.quantity == plan.quantity
    requires plan.current == CurrentQuantity(a, order.symbol)
    requires plan.prospective == Snapped(plan.current + SignedFill(plan.side, plan.quantity))
    ensures NewQuantity(a, order) == plan.prospective
  {
  }

  lemma AdverseIsBound(side: OrderSide, price: real, bps: real)
    requires price > 0.0 && bps >= 0.0
    ensures AdverseSlippage(side, price * (1.0 + SignedFill(side, 1.0) * bps / BPS), price) == bps
  {
    var d := SignedFill(side, 1.0);
    var k := 1.0 + d * bps / BPS;
    assert (price * k) / price == k;
    assert d * (k - 1.0) * BPS == d * d * bps;
  }

  /** What approval says, in one place. */
  ghost predicate ApprovedBy(
    policy: RiskPolicy, d: Decision, snapshot: Snapshot, volatility: Option<real>, a: Account, at: int, order: ApprovedOrder)
    requires snapshot.bars != [] && snapshot.LastPrice() > 0.0
  {
    Evaluate(policy, d, snapshot, volatility, StateOf(a, d.symbol), CostsOf(a), at) == Approved(order)
  }

  /** The opening meets the order: same market, observed at the open, inside its window. */
  ghost predicate OpensInWindow(order: ApprovedOrder, opening: OpeningPrice)
  {
    && opening.symbol == order.symbol && opening.timeframe == order.timeframe
    && opening.observedAt == opening.barOpenedAt
    && order.earliestFillAt <= opening.barOpenedAt <= order.expiresAt
  }

  lemma ApprovalFacts(
    policy: RiskPolicy, d: Decision, snapshot: Snapshot, volatility: Option<real>, a: Account, at: int, order: ApprovedOrder)
    requires snapshot.bars != [] && snapshot.LastPrice() > 0.0
    requires ApprovedBy(policy, d, snapshot, volatility, a, at, order)
    ensures d.targetExposure.Some?
    ensures var price := snapshot.LastPrice();
      var plan := PlanOf(policy, TargetOf(policy, d, a), a, d.symbol, price);
      var prospect := ProspectOf(plan, CostsOf(a), StateOf(a, d.symbol), price);
      && plan.orderNotional > NOTIONAL_TOLERANCE
      && prospect.worstPrice > 0.0
      && order == OrderFor(policy, d, snapshot, plan, CostsOf(a), at)
      && order.expiresAt >= at
      && (!plan.reducing ==>
            LimitReasons(policy, prospect) == []
            && RestrictionReasons(policy, d, volatility, StateOf(a, d.symbol), plan.prospective) == [])
  {
  }

  lemma SameState(a: Account, b: Account, symbol: int, plan: Plan, price: real)
    requires SameHoldings(a, b)
    ensures CurrentQuantity(a, symbol) == CurrentQuantity(b, symbol)
    ensures ProspectOf(plan, CostsOf(a), StateOf(a, symbol), price).cash == ProspectOf(plan, CostsOf(b), StateOf(b, symbol), price).cash
    ensures ProspectOf(plan, CostsOf(a), StateOf(a, symbol), price).worstPrice == ProspectOf(plan, CostsOf(b), StateOf(b, symbol), price).worstPrice
  {
  }

  /** The limits the governor checked, as facts. */
  lemma LimitFacts(policy: RiskPolicy, p: Prospect)
    requires LimitReasons(policy, p) == []
    ensures p.equity > 0.0 && p.cash >= p.equity * policy.minimumCashFraction
    ensures p.gross <= p.equity * policy.maxGrossFraction
    ensures Abs(p.symbolNotional) <= p.equity * policy.maxPositionFraction + NOTIONAL_TOLERANCE
  {
  }

  lemma CommitGate(a: Account, order: ApprovedOrder, opening: OpeningPrice, fillPrice: real)
    requires ValidAccount(a) && order.quantity > 0.0 && fillPrice > 0.0 && opening.price > 0.0
    ensures BuildState(CashAfter(a, order, fillPrice), PositionsAfter(a, order, opening, fillPrice), opening.barOpenedAt).Some?
  {
    var quantity := NewQuantity(a, order);
    if quantity != 0.0 {
      var current := if order.symbol in a.positions then Some(a.positions[order.symbol]) else None;
      AverageEntryPositive(current, SignedFill(order.side, order.quantity), fillPrice, quantity);
    }
  }

  /** An approved order is never rejected at an opening at its reference price: not for cash,
      not for slippage, not for the reduce-only promise, and the commit gate never raises. */
  lemma ApprovedIsFilled(
    policy: RiskPolicy, d: Decision, snapshot: Snapshot, volatility: Option<real>, a: Account, at: int,
    order: ApprovedOrder, later: Account, opening: OpeningPrice)
    requires snapshot.bars != [] && snapshot.LastPrice() > 0.0
    requires ValidPolicy(policy) && ValidAccount(a) && ValidAccount(later) && SameHoldings(a, later)
    requires d.targetExposure.Some? && ApprovedBy(policy, d, snapshot, volatility, a, at, order)
    requires OpensInWindow(order, opening) && opening.price == snapshot.LastPrice()
    requires order.authorization !in later.processed && later.valuedAt <= opening.barOpenedAt
    ensures order.referencePrice > 0.0
    ensures var e := Executed(later, order, opening, order.authorizedAt);
      var plan := PlanOf(policy, TargetOf(policy, d, a), a, d.symbol, snapshot.LastPrice());
      var prospect := ProspectOf(plan, CostsOf(a), StateOf(a, d.symbol), snapshot.LastPrice());
      && e.report == Some(ExecutionReport(
           order.authorization, order.symbol, order.side, order.quantity, order.authorizedAt,
           Filled(opening.barOpenedAt, prospect.worstPrice), FillFee(later, order, prospect.worstPrice), a.slippageBps))
      && e.account.cash == prospect.cash
      && e.account.positions == PositionsAfter(later, order, opening, prospect.worstPrice)
      && e.account.valuedAt == opening.barOpenedAt
  {
    hide *;
    ApprovalFacts(policy, d, snapshot, volatility, a, at, order);
    var price := snapshot.LastPrice();
    var plan := PlanOf(policy, TargetOf(policy, d, a), a, d.symbol, price);
    AccountPlanSizes(policy, TargetOf(policy, d, a), a, d.symbol, price);
    var prospect := ProspectOf(plan, CostsOf(a), StateOf(a, d.symbol), price);
    OrderTerms(policy, d, snapshot, plan, CostsOf(a), at);
    SameRatesAndSymbols(a, later, d.symbol);
    SameState(a, later, d.symbol, plan, price);
    FillNumbers(later, plan, order, opening, price);
    PlannedIsFilled(policy, plan, prospect, later, order, opening);
  }

  lemma SameRatesAndSymbols(a: Account, b: Account, symbol: int)
    requires SameHoldings(a, b)
    ensures a.feeBps == b.feeBps == CostsOf(a).feeBps && a.slippageBps == b.slippageBps == CostsOf(a).slippageBps
    ensures symbol in a.positions <==> symbol in b.positions
    ensures CurrentQuantity(a, symbol) == CurrentQuantity(b, symbol)
    ensures HoldsOnly(a, symbol) <==> HoldsOnly(b, symbol)
  {
  }

  lemma PlannedSnap(plan: Plan, policy: RiskPolicy, price: real, held: bool)
    requires price > 0.0 && WellPlanned(plan, policy, price, held)
    ensures plan.prospective == Snapped(plan.current + SignedFill(plan.side, plan.quantity))
  {
  }

  /** The same, from the plan's numbers alone. */
  lemma PlannedIsFilled(
    policy: RiskPolicy, plan: Plan, prospect: Prospect, later: Account, order: ApprovedOrder, opening: OpeningPrice)
    requires ValidPolicy(policy) && ValidAccount(later) && order.referencePrice > 0.0 && plan.quantity > 0.0
    requires plan.reducing == StrictlyReduces(plan.current, plan.prospective) && plan.current == CurrentQuantity(later, order.symbol)
    requires order.side == plan.side && order.quantity == plan.quantity && order.reduceOnly == plan.reducing
    requires order.maxFeeBps == later.feeBps && order.maxSlippageBps == later.slippageBps
    requires order.earliestFillAt >= order.authorizedAt
    requires prospect.worstPrice == FillPrice(later, order, opening)
    requires prospect.cash == CashAfter(later, order, prospect.worstPrice) && plan.prospective == NewQuantity(later, order)
    requires prospect.worstPrice > 0.0 && (!plan.reducing ==> LimitReasons(policy, prospect) == [])
    requires OpensInWindow(order, opening) && opening.price == order.referencePrice
    requires order.authorization !in later.processed && later.valuedAt <= opening.barOpenedAt
    ensures var e := Executed(later, order, opening, order.authorizedAt);
      && e.report == Some(ExecutionReport(
           order.authorization, order.symbol, order.side, order.quantity, order.authorizedAt,
           Filled(opening.barOpenedAt, prospect.worstPrice), FillFee(later, order, prospect.worstPrice), later.slippageBps))
      && e.account.cash == prospect.cash
      && e.account.positions == PositionsAfter(later, order, opening, prospect.worstPrice)
      && e.account.valuedAt == opening.barOpenedAt
  {
    hide *;
    RatesInRange(policy, later);
    AdverseAt(later, order, opening);
    CommitGate(later, order, opening, prospect.worstPrice);
    if !plan.reducing {
      LimitFacts(policy, prospect);
      Fraction(prospect.equity, policy.minimumCashFraction);
    }
    NothingToReject(later, order, opening);
    FilledExactly(later, order, opening, prospect.worstPrice);
  }

  lemma RatesInRange(policy: RiskPolicy, a: Account)
    requires ValidPolicy(policy) && ValidAccount(a)
    ensures a.feeBps >= 0.0 && a.slippageBps >= 0.0 && 0.0 <= policy.minimumCashFraction <= 1.0
  {
  }

  lemma AdverseAt(a: Account, order: ApprovedOrder, opening: OpeningPrice)
    requires opening.price == order.referencePrice > 0.0 && a.slippageBps >= 0.0
    ensures AdverseSlippage(order.side, FillPrice(a, order, opening), order.referencePrice) == a.slippageBps
  {
    AdverseIsBound(order.side, order.referencePrice, a.slippageBps);
  }

  lemma NothingToReject(a: Account, order: ApprovedOrder, opening: OpeningPrice)
    requires OpensInWindow(order, opening) && order.authorizedAt <= order.earliestFillAt
    requires order.authorization !in a.processed && a.valuedAt <= opening.barOpenedAt
    ensures RejectionReason(a, order, opening, order.authorizedAt).None?
  {
  }

  /** With every gate passed, the execution is this fill. */
  lemma FilledExactly(a: Account, order: ApprovedOrder, opening: OpeningPrice, fillPrice: real)
    requires order.referencePrice > 0.0 && fillPrice > 0.0 && fillPrice == FillPrice(a, order, opening)
    requires RejectionReason(a, order, opening, order.authorizedAt).None?
    requires AdverseSlippage(order.side, fillPrice, order.referencePrice) == a.slippageBps == order.maxSlippageBps
    requires a.feeBps == order.maxFeeBps
    requires CashAfter(a, order, fillPrice) >= 0.0 || order.reduceOnly
    requires order.reduceOnly ==> StrictlyReduces(CurrentQuantity(a, order.symbol), NewQuantity(a, order))
    requires BuildState(CashAfter(a, order, fillPrice), PositionsAfter(a, order, opening, fillPrice), opening.barOpenedAt).Some?
    ensures var e := Executed(a, order, opening, order.authorizedAt);
      && e.report == Some(ExecutionReport(
           order.authorization, order.symbol, order.side, order.quantity, order.authorizedAt,
           Filled(opening.barOpenedAt, fillPrice), FillFee(a, order, fillPrice), a.slippageBps))
      && e.account == a.(cash := CashAfter(a, order, fillPrice), positions := PositionsAfter(a, order, opening, fillPrice),
                         valuedAt := opening.barOpenedAt, processed := a.processed + {order.authorization})
  {
  }

  // ---- the reconciliation ----

  /** The account after the fill. */
  function AfterFill(a: Account, order: ApprovedOrder, opening: OpeningPrice, fillPrice: real): Account
  {
    a.(cash := CashAfter(a, order, fillPrice), positions := PositionsAfter(a, order, opening, fillPrice),
       valuedAt := opening.barOpenedAt, processed := a.processed + {order.authorization})
  }

  lemma AfterFillFacts(a: Account, order: ApprovedOrder, opening: OpeningPrice, fillPrice: real)
    ensures var b := AfterFill(a, order, opening, fillPrice);
      && CurrentQuantity(b, order.symbol) == NewQuantity(a, order)
      && MarkedAt(b, order.symbol, opening.price)
      && (order.symbol in b.positions <==> NewQuantity(a, order) != 0.0)
  {
  }

  lemma StateNumbers(a: Account, symbol: int, price: real)
    requires MarkedAt(a, symbol, price)
    ensures var s, q := StateOf(a, symbol), CurrentQuantity(a, symbol);
      && s.cash == a.cash && s.equity == a.cash + q * price
      && s.GrossExposure() == Abs(q * price)
      && QuantityOf(s.positions, symbol) == q
      && |s.positions| <= 1
      && (forall p :: p in s.positions ==> p.symbol == symbol && p.quantity == q && p.Notional() == q * price)
  {
    StateFacts(a, symbol);
  }

  function FillReport(a: Account, order: ApprovedOrder, opening: OpeningPrice, fillPrice: real, slippage: real): ExecutionReport
  {
    ExecutionReport(
      order.authorization, order.symbol, order.side, order.quantity, order.authorizedAt,
      Filled(opening.barOpenedAt, fillPrice), FillFee(a, order, fillPrice), slippage)
  }

  lemma PriceReconciles(a: Account, order: ApprovedOrder, opening: OpeningPrice, fillPrice: real)
    requires order.referencePrice > 0.0
    requires AdverseSlippage(order.side, fillPrice, order.referencePrice) == order.maxSlippageBps
    requires a.feeBps == order.maxFeeBps
    ensures PriceReasons(order, FillReport(a, order, opening, fillPrice, order.maxSlippageBps)) == []
  {
    assert RealizedSlippage(order, fillPrice) == AdverseSlippage(order.side, fillPrice, order.referencePrice);
  }

  lemma CashReconciles(a: Account, order: ApprovedOrder, fillPrice: real)
    ensures CashAfter(a, order, fillPrice) ==
      if order.side.Buy? then a.cash - order.quantity * fillPrice - FillFee(a, order, fillPrice)
      else a.cash + order.quantity * fillPrice - FillFee(a, order, fillPrice)
  {
  }

  lemma SnapIsClose(x: real)
    ensures IsClose(Snapped(x), x) && IsClose(x, x)
  {
  }

  lemma BalancesClose(order: ApprovedOrder, report: ExecutionReport, before: Portfolio, after: Portfolio)
    requires report.outcome.Filled?
    requires after.cash == ExpectedCash(report, before)
    requires QuantityOf(after.positions, order.symbol) == Snapped(ExpectedQuantity(order, report, before))
    ensures BalanceReasons(order, report, before, after) == []
  {
    SnapIsClose(after.cash);
    SnapIsClose(ExpectedQuantity(order, report, before));
  }

  lemma CashIsExpected(a: Account, order: ApprovedOrder, opening: OpeningPrice, fillPrice: real, slippage: real, before: Portfolio)
    requires before.cash == a.cash
    ensures CashAfter(a, order, fillPrice) == ExpectedCash(FillReport(a, order, opening, fillPrice, slippage), before)
  {
    CashReconciles(a, order, fillPrice);
  }

  lemma QuantityIsExpected(a: Account, order: ApprovedOrder, opening: OpeningPrice, fillPrice: real, slippage: real, before: Portfolio)
    requires QuantityOf(before.positions, order.symbol) == CurrentQuantity(a, order.symbol)
    ensures NewQuantity(a, order) == Snapped(ExpectedQuantity(order, FillReport(a, order, opening, fillPrice, slippage), before))
  {
  }

  /** Quantity and cash reconcile after every fill, whatever was ordered. */
  lemma BalanceReconciles(a: Account, order: ApprovedOrder, opening: OpeningPrice, fillPrice: real, slippage: real)
    ensures BalanceReasons(
      order, FillReport(a, order, opening, fillPrice, slippage),
      StateOf(a, order.symbol), StateOf(AfterFill(a, order, opening, fillPrice), order.symbol)) == []
  {
    var report, b := FillReport(a, order, opening, fillPrice, slippage), AfterFill(a, order, opening, fillPrice);
    StateFacts(a, order.symbol);
    StateFacts(b, order.symbol);
    AfterFillFacts(a, order, opening, fillPrice);
    CashIsExpected(a, order, opening, fillPrice, slippage, StateOf(a, order.symbol));
    QuantityIsExpected(a, order, opening, fillPrice, slippage, StateOf(a, order.symbol));
    BalancesClose(order, report, StateOf(a, order.symbol), StateOf(b, order.symbol));
  }

  /** The one way an approved fill can fail its reconciliation: an order too small to be kept
      as a position, out of a flat account, that spends the last of the cash. */
  predicate SpendsAllOnDust(plan: Plan, prospect: Prospect)
  {
    plan.current == 0.0 && plan.quantity <= QUANTITY_TOLERANCE && prospect.cash == 0.0
  }

  /** The exposure checks after the fill, from the limits before it. */
  lemma ExposureReconciles(policy: RiskPolicy, order: ApprovedOrder, after: Portfolio, p: Prospect, q: real)
    requires !order.reduceOnly && LimitReasons(policy, p) == []
    requires after.cash == p.cash && after.equity == p.equity && after.GrossExposure() == p.gross
    requires |after.positions| <= 1
    requires forall x :: x in after.positions ==> x.quantity == q && x.Notional() == p.symbolNotional
    requires order.quantity * order.referencePrice <= policy.maxOrderNotional
    requires policy.allowedSymbols == [] || order.symbol in policy.allowedSymbols
    requires q >= -QUANTITY_TOLERANCE || policy.allowShorting
    ensures ExposureReasons(policy, order, after) == []
  {
    LimitFacts(policy, p);
    if |after.positions| == 1 {
      assert after.positions[0] in after.positions;
      assert PositionFaults(policy, after.positions[..0], after.equity) == [];
    }
  }

  lemma DustReconciles(policy: RiskPolicy, order: ApprovedOrder, after: Portfolio, cash: real)
    requires ValidPolicy(policy) && !order.reduceOnly
    requires after.cash == cash && after.equity == cash && after.positions == [] && cash >= 0.0
    requires order.quantity * order.referencePrice <= policy.maxOrderNotional + NOTIONAL_TOLERANCE
    requires policy.allowedSymbols == [] || order.symbol in policy.allowedSymbols
    ensures ExposureReasons(policy, order, after) == [] <==> cash > 0.0
  {
    Fraction(cash, policy.minimumCashFraction);
    assert PositionFaults(policy, after.positions, after.equity) == [];
    if cash > 0.0 {
      assert cash * policy.maxGrossFraction > 0.0;
    }
  }

  lemma Fraction(x: real, f: real)
    requires x >= 0.0 && 0.0 <= f <= 1.0
    ensures 0.0 <= x * f <= x
  {
  }

  lemma PartsDecide(policy: RiskPolicy, order: ApprovedOrder, report: ExecutionReport, before: Portfolio, after: Portfolio)
    requires order.referencePrice > 0.0 && report.outcome.Filled?
    requires TermReasons(order, report) == [] && PriceReasons(order, report) == []
    requires report.submittedAt >= order.authorizedAt
    requires TimeReasons(order, report, after) == [] && BalanceReasons(order, report, before, after) == []
    requires ReduceFault(order, before, after) == []
    ensures Compliant(policy, order, report, before, after) <==> ExposureReasons(policy, order, after) == []
  {
  }

  /** The governor's prospect, spelled out for a single-symbol account. */
  lemma ProspectNumbers(plan: Plan, a: Account, symbol: int, price: real)
    requires MarkedAt(a, symbol, price) && plan.current == CurrentQuantity(a, symbol)
    requires plan.currentNotional == plan.current * price
    ensures var p := ProspectOf(plan, CostsOf(a), StateOf(a, symbol), price);
      && p.symbolNotional == plan.prospective * price
      && p.gross == Abs(p.symbolNotional)
      && (plan.prospective == plan.current + SignedFill(plan.side, plan.quantity) ==>
            p.equity == p.cash + p.symbolNotional)
  {
    StateNumbers(a, symbol, price);
    Distribute(plan.current, SignedFill(plan.side, plan.quantity),
               plan.current + SignedFill(plan.side, plan.quantity), price);
  }

  lemma Distribute(x: real, y: real, sum: real, z: real)
    requires sum == x + y
    ensures sum * z == x * z + y * z
  {
  }

  /** What the verdict on the exposure rests on. */
  ghost predicate VerdictInputs(policy: RiskPolicy, plan: Plan, prospect: Prospect, order: ApprovedOrder)
  {
    && order.quantity == plan.quantity && order.reduceOnly == plan.reducing
    && plan.quantity > 0.0
    && (Abs(plan.current) > QUANTITY_TOLERANCE || plan.current == 0.0)
    && plan.prospective == Snapped(plan.current + SignedFill(plan.side, plan.quantity))
    && plan.reducing == StrictlyReduces(plan.current, plan.prospective)
    && prospect.symbolNotional == plan.prospective * order.referencePrice
    && prospect.gross == Abs(prospect.symbolNotional)
    && (plan.prospective == plan.current + SignedFill(plan.side, plan.quantity) ==>
          prospect.equity == prospect.cash + prospect.symbolNotional)
    && (!plan.reducing ==>
          && LimitReasons(policy, prospect) == []
          && plan.quantity * order.referencePrice <= policy.maxOrderNotional
          && (policy.allowedSymbols == [] || order.symbol in policy.allowedSymbols)
          && (plan.prospective >= -QUANTITY_TOLERANCE || policy.allowShorting))
  }

  lemma RegularState(after: Account, symbol: int, price: real, q: real, prospect: Prospect)
    requires after.cash == prospect.cash && CurrentQuantity(after, symbol) == q && MarkedAt(after, symbol, price)
    requires prospect.symbolNotional == q * price && prospect.gross == Abs(q * price)
    requires prospect.equity == prospect.cash + q * price
    ensures var s := StateOf(after, symbol);
      && s.cash == prospect.cash && s.equity == prospect.equity && s.GrossExposure() == prospect.gross
      && |s.positions| <= 1
      && (forall x :: x in s.positions ==> x.quantity == q && x.Notional() == prospect.symbolNotional)
  {
    StateNumbers(after, symbol, price);
  }

  lemma RegularCase(policy: RiskPolicy, plan: Plan, prospect: Prospect, order: ApprovedOrder, after: Account)
    requires VerdictInputs(policy, plan, prospect, order) && !plan.reducing
    requires prospect.equity == prospect.cash + prospect.symbolNotional
    requires after.cash == prospect.cash && CurrentQuantity(after, order.symbol) == plan.prospective
    requires MarkedAt(after, order.symbol, order.referencePrice)
    ensures ExposureReasons(policy, order, StateOf(after, order.symbol)) == []
  {
    RegularState(after, order.symbol, order.referencePrice, plan.prospective, prospect);
    ExposureReconciles(policy, order, StateOf(after, order.symbol), prospect, plan.prospective);
  }

  /** The exposure verdict on an approved, filled order. */
  lemma ExposureVerdict(policy: RiskPolicy, plan: Plan, prospect: Prospect, order: ApprovedOrder, after: Account)
    requires ValidPolicy(policy) && VerdictInputs(policy, plan, prospect, order)
    requires after.cash == prospect.cash && CurrentQuantity(after, order.symbol) == plan.prospective
    requires MarkedAt(after, order.symbol, order.referencePrice)
    requires order.symbol in after.positions <==> plan.prospective != 0.0
    ensures ExposureReasons(policy, order, StateOf(after, order.symbol)) == []
       <==> plan.reducing || !SpendsAllOnDust(plan, prospect)
  {
    if !plan.reducing {
      if plan.prospective == plan.current + SignedFill(plan.side, plan.quantity) {
        NotDust(plan, prospect);
        RegularCase(policy, plan, prospect, order, after);
      } else {
        LimitFacts(policy, prospect);
        DustCase(policy, plan, prospect, order, StateOf(after, order.symbol));
      }
    }
  }

  lemma NotDust(plan: Plan, prospect: Prospect)
    requires plan.quantity > 0.0 && plan.prospective == plan.current + SignedFill(plan.side, plan.quantity)
    requires plan.prospective == Snapped(plan.current + SignedFill(plan.side, plan.quantity))
    ensures !SpendsAllOnDust(plan, prospect)
  {
  }

  lemma DustCase(policy: RiskPolicy, plan: Plan, prospect: Prospect, order: ApprovedOrder, state: Portfolio)
    requires ValidPolicy(policy) && !order.reduceOnly && !plan.reducing && plan.quantity > 0.0
    requires plan.quantity == order.quantity && order.quantity * order.referencePrice <= policy.maxOrderNotional
    requires Abs(plan.current) > QUANTITY_TOLERANCE || plan.current == 0.0
    requires plan.prospective == Snapped(plan.current + SignedFill(plan.side, plan.quantity))
    requires plan.prospective != plan.current + SignedFill(plan.side, plan.quantity)
    requires plan.reducing == StrictlyReduces(plan.current, plan.prospective)
    requires prospect.equity > 0.0 && prospect.cash >= prospect.equity * policy.minimumCashFraction
    requires policy.allowedSymbols == [] || order.symbol in policy.allowedSymbols
    requires state.cash == prospect.cash && state.equity == prospect.cash && state.positions == []
    ensures ExposureReasons(policy, order, state) == [] <==> !SpendsAllOnDust(plan, prospect)
  {
    Fraction(prospect.equity, policy.minimumCashFraction);
    DustReconciles(policy, order, state, prospect.cash);
  }

  lemma SmallReasons(a: Account, order: ApprovedOrder, opening: OpeningPrice, fillPrice: real, slippage: real)
    requires OpensInWindow(order, opening) && order.authorizedAt <= order.earliestFillAt
    requires order.reduceOnly ==> StrictlyReduces(CurrentQuantity(a, order.symbol), NewQuantity(a, order))
    ensures var report, b := FillReport(a, order, opening, fillPrice, slippage), AfterFill(a, order, opening, fillPrice);
      && TermReasons(order, report) == []
      && TimeReasons(order, report, StateOf(b, order.symbol)) == []
      && ReduceFault(order, StateOf(a, order.symbol), StateOf(b, order.symbol)) == []
  {
    StateFacts(a, order.symbol);
    StateFacts(AfterFill(a, order, opening, fillPrice), order.symbol);
    AfterFillFacts(a, order, opening, fillPrice);
  }

  /** The reconciliation of a planned fill is decided by its exposure alone. */
  lemma FillReconciles(policy: RiskPolicy, a: Account, order: ApprovedOrder, opening: OpeningPrice, fillPrice: real)
    requires order.referencePrice > 0.0 && a.feeBps == order.maxFeeBps
    requires AdverseSlippage(order.side, fillPrice, order.referencePrice) == order.maxSlippageBps
    requires OpensInWindow(order, opening) && order.authorizedAt <= order.earliestFillAt
    requires order.reduceOnly ==> StrictlyReduces(CurrentQuantity(a, order.symbol), NewQuantity(a, order))
    ensures var report, after := FillReport(a, order, opening, fillPrice, order.maxSlippageBps), StateOf(AfterFill(a, order, opening, fillPrice), order.symbol);
      Compliant(policy, order, report, StateOf(a, order.symbol), after) <==> ExposureReasons(policy, order, after) == []
  {
    var slippage := order.maxSlippageBps;
    var report, b := FillReport(a, order, opening, fillPrice, slippage), AfterFill(a, order, opening, fillPrice);
    PriceReconciles(a, order, opening, fillPrice);
    BalanceReconciles(a, order, opening, fillPrice, slippage);
    SmallReasons(a, order, opening, fillPrice, slippage);
    PartsDecide(policy, order, report, StateOf(a, order.symbol), StateOf(b, order.symbol));
  }

  lemma PlannedNotional(plan: Plan, policy: RiskPolicy, price: real, held: bool)
    requires price > 0.0 && policy.maxOrderNotional > 0.0 && WellPlanned(plan, policy, price, held)
    requires !plan.flattening && plan.orderNotional <= policy.maxOrderNotional
    ensures plan.quantity * price <= policy.maxOrderNotional
  {
    Quotient(plan.quantity, plan.orderNotional, price);
  }

  lemma AccountBasics(policy: RiskPolicy, a: Account, symbol: int)
    requires ValidPolicy(policy) && ValidAccount(a)
    ensures policy.maxOrderNotional > 0.0
    ensures symbol in a.positions ==> Abs(CurrentQuantity(a, symbol)) > QUANTITY_TOLERANCE
    ensures symbol !in a.positions ==> CurrentQuantity(a, symbol) == 0.0
    ensures Abs(CurrentQuantity(a, symbol)) > QUANTITY_TOLERANCE || CurrentQuantity(a, symbol) == 0.0
  {
  }

  lemma OrderTerms(policy: RiskPolicy, d: Decision, snapshot: Snapshot, plan: Plan, costs: CostBounds, at: int)
    requires snapshot.bars != []
    ensures var o := OrderFor(policy, d, snapshot, plan, costs, at);
      && o.symbol == d.symbol && o.side == plan.side && o.quantity == plan.quantity
      && o.reduceOnly == plan.reducing && o.referencePrice == snapshot.LastPrice()
      && o.maxFeeBps == costs.feeBps && o.maxSlippageBps == costs.slippageBps
      && o.authorizedAt == o.earliestFillAt == at
  {
  }

  /** The plan behind an approved order, sized and classified. */
  lemma ApprovedPlan(
    policy: RiskPolicy, d: Decision, snapshot: Snapshot, volatility: Option<real>, a: Account, at: int, order: ApprovedOrder, plan: Plan,
    price: real)
    requires snapshot.bars != [] && snapshot.LastPrice() == price > 0.0 && d.targetExposure.Some?
    requires ValidPolicy(policy) && ValidAccount(a) && MarkedAt(a, d.symbol, price)
    requires ApprovedBy(policy, d, snapshot, volatility, a, at, order)
    requires plan == PlanOf(policy, TargetOf(policy, d, a), a, d.symbol, price)
    ensures SizedBy(plan, policy, price) && plan.current == CurrentQuantity(a, d.symbol)
  {
    hide *;
    AccountBasics(policy, a, d.symbol);
    ApprovedIsLarge(policy, d, snapshot, volatility, a, at, order);
    AccountPlan(policy, TargetOf(policy, d, a), a, d.symbol, price);
    SizedPlan(plan, policy, price, d.symbol in a.positions);
  }

  /** Sized and classified: what every planned order satisfies. */
  ghost predicate SizedBy(plan: Plan, policy: RiskPolicy, price: real)
  {
    && plan.currentNotional == plan.current * price && plan.quantity > 0.0
    && plan.prospective == Snapped(plan.current + SignedFill(plan.side, plan.quantity))
    && plan.reducing == StrictlyReduces(plan.current, plan.prospective)
    && (!plan.reducing ==> plan.quantity * price <= policy.maxOrderNotional)
  }

  lemma ApprovedIsLarge(
    policy: RiskPolicy, d: Decision, snapshot: Snapshot, volatility: Option<real>, a: Account, at: int, order: ApprovedOrder)
    requires snapshot.bars != [] && snapshot.LastPrice() > 0.0 && d.targetExposure.Some?
    requires ApprovedBy(policy, d, snapshot, volatility, a, at, order)
    ensures PlanOf(policy, TargetOf(policy, d, a), a, d.symbol, snapshot.LastPrice()).orderNotional > NOTIONAL_TOLERANCE
  {
    hide CausalReasons, RestrictionReasons, LimitReasons, ProspectOf, OrderFor, StateOf, PlanFor;
  }

  lemma SizedPlan(plan: Plan, policy: RiskPolicy, price: real, held: bool)
    requires price > 0.0 && policy.maxOrderNotional > 0.0 && WellPlanned(plan, policy, price, held)
    requires held ==> Abs(plan.current) > QUANTITY_TOLERANCE
    requires plan.orderNotional > NOTIONAL_TOLERANCE
    ensures SizedBy(plan, policy, price)
  {
    PlanQuantity(plan, policy, price, held);
    if !plan.reducing {
      PlannedNotional(plan, policy, price, held);
    }
  }

  lemma ApprovedInputs(
    policy: RiskPolicy, d: Decision, snapshot: Snapshot, volatility: Option<real>, a: Account, at: int, order: ApprovedOrder,
    plan: Plan, prospect: Prospect)
    requires snapshot.bars != [] && snapshot.LastPrice() > 0.0 && d.targetExposure.Some?
    requires ValidPolicy(policy) && ValidAccount(a) && MarkedAt(a, d.symbol, snapshot.LastPrice())
    requires ApprovedBy(policy, d, snapshot, volatility, a, at, order)
    requires plan == PlanOf(policy, TargetOf(policy, d, a), a, d.symbol, snapshot.LastPrice())
    requires prospect == ProspectOf(plan, CostsOf(a), StateOf(a, d.symbol), snapshot.LastPrice())
    ensures VerdictInputs(policy, plan, prospect, order)
  {
    hide *;
    ApprovalFacts(policy, d, snapshot, volatility, a, at, order);
    OrderTerms(policy, d, snapshot, plan, CostsOf(a), at);
    var price := snapshot.LastPrice();
    ApprovedPlan(policy, d, snapshot, volatility, a, at, order, plan, price);
    AccountBasics(policy, a, d.symbol);
    SizedMeans(plan, policy, price);
    ProspectNumbers(plan, a, d.symbol, price);
    if !plan.reducing {
      RestrictionFacts(policy, d, volatility, StateOf(a, d.symbol), plan.prospective);
    }
    InputsAssembled(policy, plan, prospect, order);
  }

  lemma SizedMeans(plan: Plan, policy: RiskPolicy, price: real)
    requires SizedBy(plan, policy, price)
    ensures plan.currentNotional == plan.current * price && plan.quantity > 0.0
  {
  }

  lemma InputsAssembled(policy: RiskPolicy, plan: Plan, prospect: Prospect, order: ApprovedOrder)
    requires SizedBy(plan, policy, order.referencePrice)
    requires order.quantity == plan.quantity && order.reduceOnly == plan.reducing
    requires Abs(plan.current) > QUANTITY_TOLERANCE || plan.current == 0.0
    requires prospect.symbolNotional == plan.prospective * order.referencePrice
    requires prospect.gross == Abs(prospect.symbolNotional)
    requires plan.prospective == plan.current + SignedFill(plan.side, plan.quantity) ==>
      prospect.equity == prospect.cash + prospect.symbolNotional
    requires !plan.reducing ==> LimitReasons(policy, prospect) == []
    requires !plan.reducing ==> policy.allowedSymbols == [] || order.symbol in policy.allowedSymbols
    requires !plan.reducing ==> plan.prospective >= -QUANTITY_TOLERANCE || policy.allowShorting
    ensures VerdictInputs(policy, plan, prospect, order)
  {
    hide LimitReasons, Snapped, StrictlyReduces;
  }

  lemma RestrictionFacts(policy: RiskPolicy, d: Decision, volatility: Option<real>, portfolio: Portfolio, prospective: real)
    requires RestrictionReasons(policy, d, volatility, portfolio, prospective) == []
    ensures policy.allowedSymbols == [] || d.symbol in policy.allowedSymbols
    ensures prospective >= -QUANTITY_TOLERANCE || policy.allowShorting
  {
  }

  /** Approved implies filled implies compliant, reducing or not, with the one exception: the
      reconciliation of an approved order filled at its reference price fails exactly when the
      order is dust out of a flat account and leaves no cash. */
  lemma ApprovedFillReconciles(
    policy: RiskPolicy, d: Decision, snapshot: Snapshot, volatility: Option<real>, a: Account, at: int,
    order: ApprovedOrder, later: Account, opening: OpeningPrice)
    requires snapshot.bars != [] && snapshot.LastPrice() > 0.0 && d.targetExposure.Some?
    requires ValidPolicy(policy) && ValidAccount(a) && ValidAccount(later) && HoldsOnly(a, d.symbol)
    requires MarkedAt(a, d.symbol, snapshot.LastPrice()) && SameHoldings(a, later)
    requires ApprovedBy(policy, d, snapshot, volatility, a, at, order)
    requires OpensInWindow(order, opening) && opening.price == snapshot.LastPrice()
    requires order.authorization !in later.processed && later.valuedAt <= opening.barOpenedAt
    ensures order.referencePrice > 0.0
    ensures var e := Executed(later, order, opening, order.authorizedAt);
      var plan := PlanOf(policy, TargetOf(policy, d, a), a, d.symbol, snapshot.LastPrice());
      var prospect := ProspectOf(plan, CostsOf(a), StateOf(a, d.symbol), snapshot.LastPrice());
      && e.report.Some? && e.report.value.outcome.Filled? && ValidAccount(e.account)
      && Compliant(policy, order, e.report.value, StateOf(later, d.symbol), StateOf(e.account, d.symbol))
           == !SpendsAllOnDust(plan, prospect)
  {
    hide *;
    var price := snapshot.LastPrice();
    var plan := PlanOf(policy, TargetOf(policy, d, a), a, d.symbol, price);
    var prospect := ProspectOf(plan, CostsOf(a), StateOf(a, d.symbol), price);
    ApprovedIsFilled(policy, d, snapshot, volatility, a, at, order, later, opening);
    ApprovalFacts(policy, d, snapshot, volatility, a, at, order);
    OrderTerms(policy, d, snapshot, plan, CostsOf(a), at);
    ExecutionKeepsAccount(later, order, opening, order.authorizedAt);
    ApprovedInputs(policy, d, snapshot, volatility, a, at, order, plan, prospect);
    AccountPlan(policy, TargetOf(policy, d, a), a, d.symbol, price);
    SameRatesAndSymbols(a, later, d.symbol);
    SameState(a, later, d.symbol, plan, price);
    PlannedSnap(plan, policy, price, d.symbol in a.positions);
    FillNumbers(later, plan, order, opening, price);
    PlannedVerdict(policy, plan, prospect, later, order, opening);
    FilledStates(later, order, opening, prospect.worstPrice);
  }

  /** The state after an execution with these numbers is the state after the fill. */
  lemma FilledStates(a: Account, order: ApprovedOrder, opening: OpeningPrice, fillPrice: real)
    ensures forall b: Account :: b.cash == CashAfter(a, order, fillPrice) && b.positions == PositionsAfter(a, order, opening, fillPrice)
                                 && b.valuedAt == opening.barOpenedAt ==>
      StateOf(b, order.symbol) == StateOf(AfterFill(a, order, opening, fillPrice), order.symbol)
    ensures FillReport(a, order, opening, fillPrice, order.maxSlippageBps) ==
      ExecutionReport(order.authorization, order.symbol, order.side, order.quantity, order.authorizedAt,
                      Filled(opening.barOpenedAt, fillPrice), FillFee(a, order, fillPrice), order.maxSlippageBps)
  {
  }

  lemma PlannedVerdict(
    policy: RiskPolicy, plan: Plan, prospect: Prospect, a: Account, order: ApprovedOrder, opening: OpeningPrice)
    requires ValidPolicy(policy) && ValidAccount(a) && order.referencePrice > 0.0
    requires VerdictInputs(policy, plan, prospect, order)
    requires plan.current == CurrentQuantity(a, order.symbol)
    requires prospect.worstPrice == FillPrice(a, order, opening)
    requires prospect.cash == CashAfter(a, order, prospect.worstPrice) && plan.prospective == NewQuantity(a, order)
    requires a.feeBps == order.maxFeeBps && a.slippageBps == order.maxSlippageBps
    requires OpensInWindow(order, opening) && opening.price == order.referencePrice
    requires order.authorizedAt <= order.earliestFillAt
    ensures var report := FillReport(a, order, opening, prospect.worstPrice, order.maxSlippageBps);
      var after := AfterFill(a, order, opening, prospect.worstPrice);
      Compliant(policy, order, report, StateOf(a, order.symbol), StateOf(after, order.symbol)) == !SpendsAllOnDust(plan, prospect)
  {
    hide *;
    var after := AfterFill(a, order, opening, prospect.worstPrice);
    RatesInRange(policy, a);
    AdverseAt(a, order, opening);
    InputsReduce(policy, plan, prospect, order);
    CashAfterFill(a, order, opening, prospect.worstPrice);
    FillReconciles(policy, a, order, opening, prospect.worstPrice);
    AfterFillFacts(a, order, opening, prospect.worstPrice);
    ExposureVerdict(policy, plan, prospect, order, after);
  }

  lemma InputsReduce(policy: RiskPolicy, plan: Plan, prospect: Prospect, order: ApprovedOrder)
    requires VerdictInputs(policy, plan, prospect, order)
    ensures order.reduceOnly ==> StrictlyReduces(plan.current, plan.prospective)
    ensures plan.reducing ==> !SpendsAllOnDust(plan, prospect)
  {
  }

  lemma CashAfterFill(a: Account, order: ApprovedOrder, opening: OpeningPrice, fillPrice: real)
    ensures AfterFill(a, order, opening, fillPrice).cash == CashAfter(a, order, fillPrice)
  {
  }

  // ---- what approval fixes at any mark ----

  /** What every approved order satisfies of the account it was approved for, whatever price that
      account was marked at. */
  ghost predicate Sanctioned(policy: RiskPolicy, a: Account, order: ApprovedOrder)
  {
    && order.quantity > 0.0 && order.referencePrice > 0.0
    && (order.reduceOnly <==> StrictlyReduces(CurrentQuantity(a, order.symbol), NewQuantity(a, order)))
    && (!order.reduceOnly ==>
          && order.quantity * order.referencePrice <= policy.maxOrderNotional
          && (policy.allowedSymbols == [] || order.symbol in policy.allowedSymbols)
          && (NewQuantity(a, order) >= -QUANTITY_TOLERANCE || policy.allowShorting))
  }

  /** Approval sanctions, at any mark. */
  lemma ApprovalSanctions(
    policy: RiskPolicy, d: Decision, snapshot: Snapshot, volatility: Option<real>, a: Account, at: int, order: ApprovedOrder)
    requires snapshot.bars != [] && snapshot.LastPrice() > 0.0
    requires ValidPolicy(policy) && ValidAccount(a) && ApprovedBy(policy, d, snapshot, volatility, a, at, order)
    ensures Sanctioned(policy, a, order) && order.symbol == d.symbol && order.referencePrice == snapshot.LastPrice()
  {
    hide *;
    var price := snapshot.LastPrice();
    ApprovalFacts(policy, d, snapshot, volatility, a, at, order);
    var plan := PlanOf(policy, TargetOf(policy, d, a), a, d.symbol, price);
    OrderTerms(policy, d, snapshot, plan, CostsOf(a), at);
    AccountPlanSizes(policy, TargetOf(policy, d, a), a, d.symbol, price);
    NewIsProspective(a, plan, order);
    if !plan.reducing {
      RestrictionFacts(policy, d, volatility, StateOf(a, d.symbol), plan.prospective);
    }
    PlanSanctions(policy, plan, a, order);
  }

  lemma PlanSanctions(policy: RiskPolicy, plan: Plan, a: Account, order: ApprovedOrder)
    requires plan.quantity > 0.0 && order.quantity == plan.quantity && order.referencePrice > 0.0
    requires order.reduceOnly == plan.reducing && plan.reducing == StrictlyReduces(plan.current, plan.prospective)
    requires plan.current == CurrentQuantity(a, order.symbol) && plan.prospective == NewQuantity(a, order)
    requires !plan.reducing ==>
      && plan.quantity * order.referencePrice <= policy.maxOrderNotional
      && (policy.allowedSymbols == [] || order.symbol in policy.allowedSymbols)
      && (plan.prospective >= -QUANTITY_TOLERANCE || policy.allowShorting)
    ensures Sanctioned(policy, a, order)
  {
    hide StrictlyReduces, NewQuantity, CurrentQuantity;
  }

  /** Only the quantity held counts. */
  lemma StaysSanctioned(policy: RiskPolicy, a: Account, b: Account, order: ApprovedOrder)
    requires Sanctioned(policy, a, order) && CurrentQuantity(a, order.symbol) == CurrentQuantity(b, order.symbol)
    ensures Sanctioned(policy, b, order)
  {
    hide StrictlyReduces, CurrentQuantity;
  }
}
