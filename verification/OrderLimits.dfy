/** The exceptions of the order theorems are real: inputs that reach each of them. */
module OrderLimits {
  import opened Sequences
  import opened Trading
  import opened Paper
  import opened Governor
  import opened OrderFlow
  import opened OpeningGaps
  import opened Liquidation

  // ---- an approved order that spends the last cash on dust ----

  const ALL_IN := RiskPolicy(0.0, 1.0, 1.0, 1000.0, 0.0, 1.0, 10, 10, 10, 0.0, 0.0, false, [])

  function SnapshotAtPrice(price: real): Snapshot
  {
    Snapshot(1, 1, 1, 1, [Bar(0, 1, 1, price, price, price, price, 1.0)])
  }

  function TargetDecision(price: real, target: real): Decision
  {
    var source := SnapshotAtPrice(price).Id();
    Decision(DecisionId(source, [], TargetExposure, Some(target)), 1, 1, source, 1, Flat, None, Some(target),
             TargetExposure, target, 1.0, 1, 10, [])
  }

  function CashAccount(cash: real): Account { Account(cash, map[], 1, {}, 0.0, 0.0) }

  function DustPlan(cash: real, price: real): Plan
    requires price > 0.0
  {
    Plan(0.0, 0.0, cash, cash, cash, Buy, false, cash / price, 0.0, false)
  }

  function DustOrder(cash: real, price: real): ApprovedOrder
    requires price > 0.0
  {
    OrderFor(ALL_IN, TargetDecision(price, 1.0), SnapshotAtPrice(price), DustPlan(cash, price), CostBounds(0.0, 0.0), 1)
  }

  /** Cash that is worth an order but buys no more than the flat tolerance. */
  predicate BuysDust(cash: real, price: real)
  {
    price > 0.0 && NOTIONAL_TOLERANCE < cash <= 1000.0 && cash <= QUANTITY_TOLERANCE * price
  }

  lemma DustQuantity(cash: real, price: real)
    requires BuysDust(cash, price)
    ensures 0.0 < cash / price <= QUANTITY_TOLERANCE && (cash / price) * price == cash
  {
    var q := cash / price;
    assert q * price == cash;
    assert q > QUANTITY_TOLERANCE ==> (q - QUANTITY_TOLERANCE) * price > 0.0;
  }

  lemma DustIsPlanned(cash: real, price: real)
    requires BuysDust(cash, price)
    ensures StateOf(CashAccount(cash), 1) == Portfolio(cash, cash, 1, [])
    ensures PlanFor(ALL_IN, TargetNotional(ALL_IN, 1.0, cash), None, price) == DustPlan(cash, price)
  {
    DustQuantity(cash, price);
    assert TargetNotional(ALL_IN, 1.0, cash) == cash;
  }

  lemma DustProspect(cash: real, price: real)
    requires BuysDust(cash, price)
    ensures ProspectOf(DustPlan(cash, price), CostBounds(0.0, 0.0), Portfolio(cash, cash, 1, []), price)
         == Prospect(price, 0.0, cash, 0.0, 0.0)
  {
    DustQuantity(cash, price);
  }

  lemma DustIsCausal(cash: real, price: real)
    ensures CausalReasons(ALL_IN, TargetDecision(price, 1.0), SnapshotAtPrice(price), Portfolio(cash, cash, 1, []), 1) == []
  {
  }

  lemma DustIsAllowed(cash: real, price: real)
    requires cash > 0.0
    ensures LimitReasons(ALL_IN, Prospect(price, 0.0, cash, 0.0, 0.0)) == []
    ensures RestrictionReasons(ALL_IN, TargetDecision(price, 1.0), Some(0.1), Portfolio(cash, cash, 1, []), 0.0) == []
  {
    assert Volatilities(Some(0.1), []) == [0.1];
  }

  lemma DustIsApproved(cash: real, price: real)
    requires BuysDust(cash, price)
    ensures ApprovedBy(ALL_IN, TargetDecision(price, 1.0), SnapshotAtPrice(price), Some(0.1), CashAccount(cash), 1, DustOrder(cash, price))
  {
    hide CausalReasons, PlanFor, ProspectOf, LimitReasons, RestrictionReasons, TargetNotional;
    DustIsPlanned(cash, price);
    DustProspect(cash, price);
    DustIsCausal(cash, price);
    DustIsAllowed(cash, price);
    assert FindPosition([], 1) == None;
  }

  /** The exception is real: whenever all the cash buys no more than the flat tolerance, the order
      that spends it is approved and filled at its reference price, and the fill is not compliant. */
  lemma LastCashOnDust(cash: real, price: real)
    requires BuysDust(cash, price)
    ensures ValidPolicy(ALL_IN) && ValidAccount(CashAccount(cash)) && HoldsOnly(CashAccount(cash), 1)
    ensures ApprovedBy(ALL_IN, TargetDecision(price, 1.0), SnapshotAtPrice(price), Some(0.1), CashAccount(cash), 1, DustOrder(cash, price))
    ensures DustOrder(cash, price).referencePrice == price
    ensures var e := Executed(CashAccount(cash), DustOrder(cash, price), OpeningPrice(1, 1, price, 2, 2), 1);
      && e.report.Some? && e.report.value.outcome.Filled?
      && !Compliant(ALL_IN, DustOrder(cash, price), e.report.value, StateOf(CashAccount(cash), 1), StateOf(e.account, 1))
  {
    hide Compliant, ApprovedBy, Executed, ProspectOf, PlanFor, TargetNotional;
    var d, snapshot, a := TargetDecision(price, 1.0), SnapshotAtPrice(price), CashAccount(cash);
    DustIsApproved(cash, price);
    DustIsPlanned(cash, price);
    DustProspect(cash, price);
    DustQuantity(cash, price);
    assert FindPosition([], 1) == None;
    ApprovedFillReconciles(ALL_IN, d, snapshot, Some(0.1), a, 1, DustOrder(cash, price), a, OpeningPrice(1, 1, price, 2, 2));
  }

  // ---- an account that is not marked at the last price ----

  const RESERVE := RiskPolicy(0.0, 1.0, 1.0, 1000.0, 0.5, 1.0, 10, 10, 10, 0.0, 0.0, false, [])

  /** One unit, marked at 50 while the last price is 100. */
  function LowMarked(): Account { Account(100.0, map[1 := PaperPosition(1.0, 50.0, 50.0, 1)], 1, {}, 0.0, 0.0) }

  const MARK_PLAN := Plan(1.0, 50.0, 60.0, 10.0, 10.0, Buy, false, 0.1, 1.1, false)

  function MarkOrder(): ApprovedOrder
  {
    OrderFor(RESERVE, TargetDecision(100.0, 0.4), SnapshotAtPrice(100.0), MARK_PLAN, CostBounds(0.0, 0.0), 1)
  }

  function LowState(): Portfolio { Portfolio(100.0, 150.0, 1, [Position(1, 1.0, 50.0, 50.0, 1)]) }

  lemma LowMarkIsPlanned()
    ensures StateOf(LowMarked(), 1) == LowState()
    ensures PlanFrom(RESERVE, TargetNotional(RESERVE, 0.4, 150.0), 1.0, 50.0, true, 100.0) == MARK_PLAN
    ensures ProspectOf(MARK_PLAN, CostBounds(0.0, 0.0), LowState(), 100.0) == Prospect(100.0, 90.0, 150.0, 110.0, 110.0)
  {
    assert TargetNotional(RESERVE, 0.4, 150.0) == 60.0;
    var positions := LowState().positions;
    assert positions[1..] == [];
    assert SumGross(positions) == 50.0;
  }

  lemma LowMarkIsCausal()
    ensures CausalReasons(RESERVE, TargetDecision(100.0, 0.4), SnapshotAtPrice(100.0), LowState(), 1) == []
  {
    var positions := LowState().positions;
    assert PositionAges(positions[..0], 1, 10) == [];
  }

  lemma LowMarkIsAllowed()
    ensures LimitReasons(RESERVE, Prospect(100.0, 90.0, 150.0, 110.0, 110.0)) == []
    ensures RestrictionReasons(RESERVE, TargetDecision(100.0, 0.4), Some(0.1), LowState(), 1.1) == []
  {
    assert Volatilities(Some(0.1), []) == [0.1];
  }

  lemma LowMarkIsApproved()
    ensures ApprovedBy(RESERVE, TargetDecision(100.0, 0.4), SnapshotAtPrice(100.0), Some(0.1), LowMarked(), 1, MarkOrder())
  {
    hide CausalReasons, PlanFrom, ProspectOf, LimitReasons, RestrictionReasons, TargetNotional;
    LowMarkIsPlanned();
    LowMarkIsCausal();
    LowMarkIsAllowed();
    assert FindPosition(LowState().positions, 1) == Some(LowState().positions[0]);
  }

  /** The terms of that order. */
  predicate MarkPlanned(o: ApprovedOrder)
  {
    && o.side == Buy && o.quantity == 0.1 && o.referencePrice == 100.0 && !o.reduceOnly
    && o.symbol == 1 && o.timeframe == 1 && o.authorizedAt == o.earliestFillAt == 1 && o.expiresAt >= 2
  }

  lemma LowMarkAt(o: ApprovedOrder, price: real)
    requires MarkPlanned(o) && price > 0.0
    ensures AtTheOpening(LowMarked(), o, OpeningPrice(1, 1, price, 2, 2))
         == Prospect(price, 100.0 - 0.1 * price, 100.0 + price, 1.1 * price, 1.1 * price)
    ensures NewQuantity(LowMarked(), o) == 1.1
  {
    assert FillPrice(LowMarked(), o, OpeningPrice(1, 1, price, 2, 2)) == price;
  }

  /** The reserve is half the equity of `100 + price`, and the buy leaves `100 - price / 10`. */
  lemma LowMarkFits(o: ApprovedOrder, price: real)
    requires MarkPlanned(o) && 0.0 < price <= 100.0
    ensures FitsAtTheOpening(RESERVE, LowMarked(), o, OpeningPrice(1, 1, price, 2, 2)) <==> 3.0 * price <= 250.0
  {
    hide AtTheOpening, NewQuantity, LimitReasons;
    LowMarkAt(o, price);
    var p := Prospect(price, 100.0 - 0.1 * price, 100.0 + price, 1.1 * price, 1.1 * price);
    if LimitReasons(RESERVE, p) == [] {
      LimitFacts(RESERVE, p);
    }
    if 3.0 * price <= 250.0 {
      LimitsHold(RESERVE, p);
    }
  }

  lemma MarkOrderIsPlanned()
    ensures MarkPlanned(MarkOrder()) && MarkOrder().authorization !in LowMarked().processed
    ensures CurrentQuantity(LowMarked(), 1) == 1.0
  {
  }

  /** The marking matters: an account whose position is marked below the last price is approved for an
      order that is filled at its reference price of 100 and at every cheaper opening, and the fill
      leaves enough cash for the equity at that opening only up to five sixths of the reference price.
      Every premise of `ApprovedFillReconciles` but the marking holds at 100. */
  lemma LowMarkCanFail(price: real)
    requires 0.0 < price <= 100.0
    ensures ValidPolicy(RESERVE) && ValidAccount(LowMarked()) && HoldsOnly(LowMarked(), 1)
    ensures ApprovedBy(RESERVE, TargetDecision(100.0, 0.4), SnapshotAtPrice(100.0), Some(0.1), LowMarked(), 1, MarkOrder())
    ensures !MarkedAt(LowMarked(), 1, 100.0) && MarkOrder().referencePrice == 100.0
    ensures OpensInWindow(MarkOrder(), OpeningPrice(1, 1, price, 2, 2))
    ensures var e := Executed(LowMarked(), MarkOrder(), OpeningPrice(1, 1, price, 2, 2), 1);
      && e.report.Some? && e.report.value.outcome.Filled?
      && (Compliant(RESERVE, MarkOrder(), e.report.value, StateOf(LowMarked(), 1), StateOf(e.account, 1)) <==> 3.0 * price <= 250.0)
  {
    hide Compliant, ApprovedBy, Executed, MarkOrder, StateOf, FitsAtTheOpening;
    var d, snapshot, a, opening := TargetDecision(100.0, 0.4), SnapshotAtPrice(100.0), LowMarked(), OpeningPrice(1, 1, price, 2, 2);
    LowMarkIsApproved();
    MarkOrderIsPlanned();
    LowMarkFits(MarkOrder(), price);
    if price == 100.0 {
      ReferenceDecides(RESERVE, d, snapshot, Some(0.1), a, 1, MarkOrder(), a, opening);
    } else {
      CheaperBuyReconciles(RESERVE, d, snapshot, Some(0.1), a, 1, MarkOrder(), a, opening);
    }
  }

  // ---- a position that is never closed ----

  function DustAccount(quantity: real, price: real): Account
  {
    Account(1.0, map[1 := PaperPosition(quantity, price, price, 1)], 1, {}, 0.0, 0.0)
  }

  function ClosingRound(price: real): Round
  {
    Round(TargetDecision(price, 0.0), SnapshotAtPrice(price), None, 1, OpeningPrice(1, 1, price, 2, 2))
  }

  lemma ClosingIsCausal(quantity: real, price: real)
    ensures CausalReasons(ALL_IN, TargetDecision(price, 0.0), SnapshotAtPrice(price),
                          StateOf(MarkedTo(DustAccount(quantity, price), price, 1), 1), 1) == []
  {
    var positions := StateOf(MarkedTo(DustAccount(quantity, price), price, 1), 1).positions;
    assert |positions| == 1 && positions[0].markObservedAt == 1;
    assert PositionAges(positions[..0], 1, 10) == [];
  }

  /** The exception is real: a position kept by the account and worth no more than the notional
      tolerance stays open after a fresh round asking to close it. */
  lemma DustIsNeverClosed(quantity: real, price: real)
    requires quantity > QUANTITY_TOLERANCE && price > 0.0 && quantity * price <= NOTIONAL_TOLERANCE
    ensures var a, rounds := DustAccount(quantity, price), [ClosingRound(price)];
      && ValidPolicy(ALL_IN) && Tradable(ALL_IN, a, price) && ValidAccount(a) && HoldsOnly(a, 1)
      && AllFresh(ALL_IN, a, 1, price, rounds) && Abs(CurrentQuantity(a, 1)) * price <= ALL_IN.maxOrderNotional
      && (forall r :: r in rounds ==> r.snapshot.bars != [] && r.snapshot.LastPrice() > 0.0)
      && 1 in RunRounds(ALL_IN, a, price, rounds).positions
  {
    hide CausalReasons, AfterRound, RunRounds, StateOf, MarkedTo;
    var a, rounds := DustAccount(quantity, price), [ClosingRound(price)];
    ClosingIsCausal(quantity, price);
    CheapEnough(quantity, price);
    assert AllFresh(ALL_IN, AfterRound(ALL_IN, a, price, rounds[0]), 1, price, rounds[1..]);
    LiquidationTerminates(ALL_IN, a, 1, price, rounds);
  }

  lemma CheapEnough(quantity: real, price: real)
    requires quantity > QUANTITY_TOLERANCE && price > 0.0 && quantity * price <= NOTIONAL_TOLERANCE
    ensures price <= 1000.0 && 1000.0 / price > QUANTITY_TOLERANCE
  {
    assert (quantity - QUANTITY_TOLERANCE) * price > 0.0;
    var q := 1000.0 / price;
    assert q * price == 1000.0;
    assert q <= 1.0 ==> (1.0 - q) * price >= 0.0;
  }
}
