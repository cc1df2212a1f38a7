/** Openings away from the reference price: what approval still guarantees, and what it does not. */
module OpeningGaps {
  import opened Sequences
  import opened Trading
  import opened Paper
  import opened Governor
  import opened OrderFlow

  // ---- any opening, either side ----

  /** The governor's prospect, recomputed at the opening price. */
  function AtTheOpening(a: Account, order: ApprovedOrder, opening: OpeningPrice): Prospect
  {
    var fillPrice, quantity := FillPrice(a, order, opening), NewQuantity(a, order);
    Prospect(fillPrice, CashAfter(a, order, fillPrice), CashAfter(a, order, fillPrice) + quantity * opening.price,
             quantity * opening.price, Abs(quantity * opening.price))
  }

  /** With one position left, the exposure checks after the fill are the limits before it. */
  lemma ExposureIsLimits(policy: RiskPolicy, order: ApprovedOrder, after: Portfolio, p: Prospect, q: real)
    requires !order.reduceOnly && |after.positions| == 1
    requires after.cash == p.cash && after.equity == p.equity && after.GrossExposure() == p.gross
    requires forall x :: x in after.positions ==> x.quantity == q && x.Notional() == p.symbolNotional
    requires order.quantity * order.referencePrice <= policy.maxOrderNotional
    requires policy.allowedSymbols == [] || order.symbol in policy.allowedSymbols
    requires q >= -QUANTITY_TOLERANCE || policy.allowShorting
    ensures ExposureReasons(policy, order, after) == [] <==> LimitReasons(policy, p) == []
  {
    assert after.positions[0] in after.positions;
    assert PositionFaults(policy, after.positions[..0], after.equity) == [];
  }

  lemma OnePosition(after: Account, symbol: int, price: real)
    requires MarkedAt(after, symbol, price) && symbol in after.positions
    ensures |StateOf(after, symbol).positions| == 1
  {
  }

  lemma OpeningExposure(policy: RiskPolicy, a: Account, order: ApprovedOrder, opening: OpeningPrice)
    requires Sanctioned(policy, a, order) && !order.reduceOnly && NewQuantity(a, order) != 0.0
    ensures ExposureReasons(policy, order, StateOf(AfterFill(a, order, opening, FillPrice(a, order, opening)), order.symbol)) == []
       <==> LimitReasons(policy, AtTheOpening(a, order, opening)) == []
  {
    hide AfterFill, StateOf, ExposureReasons, LimitReasons, NewQuantity, CashAfter, FillPrice, CurrentQuantity, StrictlyReduces;
    var fillPrice := FillPrice(a, order, opening);
    var after := AfterFill(a, order, opening, fillPrice);
    AfterFillFacts(a, order, opening, fillPrice);
    ReportIsFilled(a, order, opening, fillPrice, 0.0);
    StateNumbers(after, order.symbol, opening.price);
    OnePosition(after, order.symbol, opening.price);
    ExposureIsLimits(policy, order, StateOf(after, order.symbol), AtTheOpening(a, order, opening), NewQuantity(a, order));
  }

  lemma FlatIsOpen(a: Account, order: ApprovedOrder, opening: OpeningPrice, fillPrice: real)
    requires NewQuantity(a, order) == 0.0
    ensures var s := StateOf(AfterFill(a, order, opening, fillPrice), order.symbol);
      s.positions == [] && s.cash == CashAfter(a, order, fillPrice) && s.equity == CashAfter(a, order, fillPrice)
  {
    hide CashAfter;
  }

  /** What the exposure checks say of a fill at an opening price: nothing of a reducing order; of dust,
      whether cash is left; otherwise, whether the governor's limits hold at that price. */
  predicate FitsAtTheOpening(policy: RiskPolicy, a: Account, order: ApprovedOrder, opening: OpeningPrice)
  {
    || order.reduceOnly
    || (if NewQuantity(a, order) == 0.0 then CashAfter(a, order, FillPrice(a, order, opening)) > 0.0
        else LimitReasons(policy, AtTheOpening(a, order, opening)) == [])
  }

  lemma ExposureAtTheOpening(policy: RiskPolicy, a: Account, order: ApprovedOrder, opening: OpeningPrice)
    requires ValidPolicy(policy) && Sanctioned(policy, a, order)
    requires CashAfter(a, order, FillPrice(a, order, opening)) >= 0.0 || order.reduceOnly
    ensures ExposureReasons(policy, order, StateOf(AfterFill(a, order, opening, FillPrice(a, order, opening)), order.symbol)) == []
       <==> FitsAtTheOpening(policy, a, order, opening)
  {
    hide AfterFill, StateOf, LimitReasons, NewQuantity, CashAfter, FillPrice, CurrentQuantity, ExposureHead, PositionFaults, SymbolFault,
         ValidPolicy, AtTheOpening, StrictlyReduces;
    if !order.reduceOnly {
      if NewQuantity(a, order) != 0.0 {
        OpeningExposure(policy, a, order, opening);
      } else {
        FlatIsOpen(a, order, opening, FillPrice(a, order, opening));
        DustReconciles(policy, order, StateOf(AfterFill(a, order, opening, FillPrice(a, order, opening)), order.symbol),
                       CashAfter(a, order, FillPrice(a, order, opening)));
      }
    }
  }

  /** What the broker says of an order inside its window: the slippage gate, then the cash gate. */
  lemma GatesDecide(a: Account, order: ApprovedOrder, opening: OpeningPrice)
    requires ValidAccount(a) && order.referencePrice > 0.0 && order.quantity > 0.0 && opening.price > 0.0
    requires RejectionReason(a, order, opening, order.authorizedAt).None? && FillPrice(a, order, opening) > 0.0
    requires a.feeBps == order.maxFeeBps
    requires order.reduceOnly ==> StrictlyReduces(CurrentQuantity(a, order.symbol), NewQuantity(a, order))
    ensures var fillPrice := FillPrice(a, order, opening);
      var adverse := AdverseSlippage(order.side, fillPrice, order.referencePrice);
      var e := Executed(a, order, opening, order.authorizedAt);
      && e.report.Some?
      && (if adverse > order.maxSlippageBps + NOTIONAL_TOLERANCE then
            e.report.value.outcome == Rejected(SlippageExceeded) && e.account == a
          else if CashAfter(a, order, fillPrice) < 0.0 && !order.reduceOnly then
            e.report.value.outcome == Rejected(InsufficientCash) && e.account == a
          else
            e.report.value == FillReport(a, order, opening, fillPrice, adverse) && e.account == AfterFill(a, order, opening, fillPrice))
  {
    hide AdverseSlippage, CashAfter, FillPrice, FillFee, BuildState, PositionsAfter, RejectionReason, NewQuantity, StrictlyReduces,
         CurrentQuantity, ValidAccount;
    CommitGate(a, order, opening, FillPrice(a, order, opening));
  }

  lemma ReportIsFilled(a: Account, order: ApprovedOrder, opening: OpeningPrice, paid: real, slippage: real)
    ensures var report := FillReport(a, order, opening, paid, slippage);
      report.outcome == Filled(opening.barOpenedAt, paid) && report.submittedAt == order.authorizedAt
    ensures AfterFill(a, order, opening, paid).cash == CashAfter(a, order, paid)
  {
  }

  lemma WithinTheBound(a: Account, order: ApprovedOrder, opening: OpeningPrice, fillPrice: real)
    requires order.referencePrice > 0.0 && a.feeBps == order.maxFeeBps
    requires AdverseSlippage(order.side, fillPrice, order.referencePrice) <= order.maxSlippageBps + NOTIONAL_TOLERANCE
    ensures PriceReasons(order, FillReport(a, order, opening, fillPrice, AdverseSlippage(order.side, fillPrice, order.referencePrice))) == []
  {
    assert RealizedSlippage(order, fillPrice) == AdverseSlippage(order.side, fillPrice, order.referencePrice);
  }

  /** The verdict on a sanctioned order at any opening in its window. */
  lemma SanctionedOpening(policy: RiskPolicy, a: Account, order: ApprovedOrder, opening: OpeningPrice)
    requires ValidPolicy(policy) && ValidAccount(a) && Sanctioned(policy, a, order)
    requires a.feeBps == order.maxFeeBps && OpensInWindow(order, opening) && opening.price > 0.0
    requires order.authorizedAt <= order.earliestFillAt
    requires order.authorization !in a.processed && a.valuedAt <= opening.barOpenedAt
    requires FillPrice(a, order, opening) > 0.0
    ensures var e := Executed(a, order, opening, order.authorizedAt);
      e.report.Some? && OpeningOutcome(policy, a, order, opening, e)
  {
    hide Executed, Compliant, ExposureReasons, PriceReasons, BalanceReasons, TermReasons, TimeReasons, ReduceFault, CashAfter,
         FillPrice, FillFee, BuildState, PositionsAfter, AdverseSlippage, AfterFill, FillReport, StateOf, LimitReasons, NewQuantity,
         CurrentQuantity, AtTheOpening, FitsAtTheOpening, StrictlyReduces, Snapped;
    var fillPrice := FillPrice(a, order, opening);
    NothingToReject(a, order, opening);
    GatesDecide(a, order, opening);
    var slippage := AdverseSlippage(order.side, fillPrice, order.referencePrice);
    var report, b := FillReport(a, order, opening, fillPrice, slippage), AfterFill(a, order, opening, fillPrice);
    ReportIsFilled(a, order, opening, fillPrice, slippage);
    if PassesGates(a, order, opening) {
      WithinTheBound(a, order, opening, fillPrice);
      BalanceReconciles(a, order, opening, fillPrice, slippage);
      SmallReasons(a, order, opening, fillPrice, slippage);
      PartsDecide(policy, order, report, StateOf(a, order.symbol), StateOf(b, order.symbol));
      ExposureAtTheOpening(policy, a, order, opening);
    }
  }

  /** The broker's two price gates: the slippage is within the bound, and the fill can be paid for. */
  predicate PassesGates(a: Account, order: ApprovedOrder, opening: OpeningPrice)
    requires order.referencePrice > 0.0
  {
    var fillPrice := FillPrice(a, order, opening);
    && AdverseSlippage(order.side, fillPrice, order.referencePrice) <= order.maxSlippageBps + NOTIONAL_TOLERANCE
    && (CashAfter(a, order, fillPrice) >= 0.0 || order.reduceOnly)
  }

  /** The three things that can happen at an opening, told apart by price alone. */
  ghost predicate OpeningOutcome(policy: RiskPolicy, a: Account, order: ApprovedOrder, opening: OpeningPrice, e: Execution)
    requires order.referencePrice > 0.0 && e.report.Some?
  {
    var fillPrice := FillPrice(a, order, opening);
    if AdverseSlippage(order.side, fillPrice, order.referencePrice) > order.maxSlippageBps + NOTIONAL_TOLERANCE then
      e.report.value.outcome == Rejected(SlippageExceeded) && e.account == a
    else if CashAfter(a, order, fillPrice) < 0.0 && !order.reduceOnly then
      e.report.value.outcome == Rejected(InsufficientCash) && e.account == a
    else
      && e.report.value.outcome == Filled(opening.barOpenedAt, fillPrice)
      && (Compliant(policy, order, e.report.value, StateOf(a, order.symbol), StateOf(e.account, order.symbol)) <==>
          FitsAtTheOpening(policy, a, order, opening))
  }

  /** What becomes of an approved order at every opening in its window, whatever its side, size and
      price, and whatever its account was marked at: it is rejected for slippage exactly when the
      opening is worse than the reference by more than the authorized bound and tolerance, rejected for
      cash exactly when it then cannot be paid, and otherwise filled; and the fill is accepted exactly
      when the order reduces, or is dust that leaves some cash, or the governor's limits hold of the
      position at the opening price. */
  lemma OpeningDecides(
    policy: RiskPolicy, d: Decision, snapshot: Snapshot, volatility: Option<real>, a: Account, at: int,
    order: ApprovedOrder, later: Account, opening: OpeningPrice)
    requires snapshot.bars != [] && snapshot.LastPrice() > 0.0 && d.targetExposure.Some?
    requires ValidPolicy(policy) && ValidAccount(a) && ValidAccount(later) && HoldsOnly(a, d.symbol) && SameHoldings(a, later)
    requires ApprovedBy(policy, d, snapshot, volatility, a, at, order)
    requires OpensInWindow(order, opening) && opening.price > 0.0
    requires order.authorization !in later.processed && later.valuedAt <= opening.barOpenedAt
    ensures order.referencePrice > 0.0 && Executed(later, order, opening, order.authorizedAt).report.Some?
    ensures OpeningOutcome(policy, later, order, opening, Executed(later, order, opening, order.authorizedAt))
  {
    hide Executed, OpeningOutcome, ApprovedBy, PlanOf, ProspectOf, OrderFor, StateOf, LimitReasons, RestrictionReasons, ValidAccount,
         ValidPolicy, Sanctioned, CurrentQuantity, TargetOf, FillPrice;
    var price := snapshot.LastPrice();
    ApprovalFacts(policy, d, snapshot, volatility, a, at, order);
    ApprovalSanctions(policy, d, snapshot, volatility, a, at, order);
    var plan := PlanOf(policy, TargetOf(policy, d, a), a, d.symbol, price);
    OrderTerms(policy, d, snapshot, plan, CostsOf(a), at);
    SameQuantity(a, later, d.symbol);
    StaysSanctioned(policy, a, later, order);
    SanctionedIsPositive(policy, later, order);
    FillIsPositive(plan, a, later, order, opening, price);
    SanctionedOpening(policy, later, order, opening);
  }

  lemma SanctionedIsPositive(policy: RiskPolicy, a: Account, order: ApprovedOrder)
    requires Sanctioned(policy, a, order)
    ensures order.referencePrice > 0.0 && order.quantity > 0.0
  {
    hide StrictlyReduces;
  }

  lemma SameQuantity(a: Account, b: Account, symbol: int)
    requires SameHoldings(a, b)
    ensures CurrentQuantity(a, symbol) == CurrentQuantity(b, symbol)
    ensures a.cash == b.cash && a.feeBps == b.feeBps && a.slippageBps == b.slippageBps
  {
  }

  lemma FillIsPositive(plan: Plan, a: Account, later: Account, order: ApprovedOrder, opening: OpeningPrice, price: real)
    requires price > 0.0 && opening.price > 0.0 && order.side == plan.side && later.slippageBps == a.slippageBps
    requires ProspectOf(plan, CostsOf(a), StateOf(a, order.symbol), price).worstPrice > 0.0
    ensures FillPrice(later, order, opening) > 0.0
  {
    hide StateOf, Abs;
    var k := 1.0 + SignedFill(order.side, 1.0) * a.slippageBps / BPS;
    assert price * k > 0.0;
    assert k <= 0.0 ==> price * -k >= 0.0;
    assert opening.price * k > 0.0;
  }

  // ---- the opening at the reference price ----

  /** Approved implies filled at the reference price, whatever the account was marked at; and the fill
      is accepted exactly when the order fits there. */
  lemma ReferenceDecides(
    policy: RiskPolicy, d: Decision, snapshot: Snapshot, volatility: Option<real>, a: Account, at: int,
    order: ApprovedOrder, later: Account, opening: OpeningPrice)
    requires snapshot.bars != [] && snapshot.LastPrice() > 0.0 && d.targetExposure.Some?
    requires ValidPolicy(policy) && ValidAccount(a) && ValidAccount(later) && HoldsOnly(a, d.symbol) && SameHoldings(a, later)
    requires ApprovedBy(policy, d, snapshot, volatility, a, at, order)
    requires OpensInWindow(order, opening) && opening.price == snapshot.LastPrice()
    requires order.authorization !in later.processed && later.valuedAt <= opening.barOpenedAt
    ensures order.referencePrice > 0.0
    ensures var e := Executed(later, order, opening, order.authorizedAt);
      && e.report.Some? && e.report.value.outcome.Filled?
      && (Compliant(policy, order, e.report.value, StateOf(later, d.symbol), StateOf(e.account, d.symbol)) <==>
          FitsAtTheOpening(policy, later, order, opening))
  {
    hide *;
    OpeningDecides(policy, d, snapshot, volatility, a, at, order, later, opening);
    ApprovedIsFilled(policy, d, snapshot, volatility, a, at, order, later, opening);
    ApprovalSanctions(policy, d, snapshot, volatility, a, at, order);
    FilledOutcome(policy, later, order, opening, Executed(later, order, opening, order.authorizedAt));
  }

  lemma FilledOutcome(policy: RiskPolicy, a: Account, order: ApprovedOrder, opening: OpeningPrice, e: Execution)
    requires order.referencePrice > 0.0 && e.report.Some? && OpeningOutcome(policy, a, order, opening, e)
    ensures e.report.value.outcome.Filled? <==> PassesGates(a, order, opening)
    ensures e.report.value.outcome.Filled? ==>
      (Compliant(policy, order, e.report.value, StateOf(a, order.symbol), StateOf(e.account, order.symbol)) <==>
       FitsAtTheOpening(policy, a, order, opening))
  {
    hide FitsAtTheOpening, Compliant, StateOf, AdverseSlippage, FillPrice, CashAfter;
  }

  // ---- a buy that opens at a better price ----

  /** What a limit says of a position it allows, it says of a smaller one with more cash. */
  lemma SmallerFits(fraction: real, x: real, y: real, cash: real, more: real, slack: real)
    requires 0.0 <= fraction <= 1.0 && y <= x && cash <= more && x <= fraction * (cash + x) + slack
    ensures y <= fraction * (more + y) + slack
  {
    assert (1.0 - fraction) * (x - y) >= 0.0;
    assert fraction * (more - cash) >= 0.0;
  }

  lemma ReserveFits(fraction: real, x: real, y: real, cash: real, more: real)
    requires 0.0 <= fraction <= 1.0 && y <= x && cash <= more && cash >= fraction * (cash + x)
    ensures more >= fraction * (more + y)
  {
    assert (1.0 - fraction) * (more - cash) >= 0.0;
    assert fraction * (x - y) >= 0.0;
  }

  /** The converse of `LimitFacts`. */
  lemma LimitsHold(policy: RiskPolicy, p: Prospect)
    requires p.equity > 0.0 && p.cash >= p.equity * policy.minimumCashFraction
    requires p.gross <= p.equity * policy.maxGrossFraction
    requires Abs(p.symbolNotional) <= p.equity * policy.maxPositionFraction + NOTIONAL_TOLERANCE
    ensures LimitReasons(policy, p) == []
  {
  }

  /** The price paid for a buy. */
  function Paid(price: real, bps: real): real { price * (1.0 + bps / BPS) }

  lemma PaidRatio(paid: real, reference: real, k: real)
    requires reference > 0.0 && paid <= reference * k
    ensures paid / reference <= k
  {
    var q := paid / reference;
    assert q * reference == paid;
    assert q > k ==> (q - k) * reference > 0.0;
  }

  /** What a buy costs, fee included. */
  function Cost(quantity: real, paid: real, feeBps: real): real { quantity * paid + quantity * paid * feeBps / BPS }

  lemma CashOfBuy(a: Account, order: ApprovedOrder, fillPrice: real)
    requires order.side.Buy?
    ensures CashAfter(a, order, fillPrice) == a.cash - Cost(order.quantity, fillPrice, a.feeBps)
  {
  }

  lemma FillOfBuy(a: Account, order: ApprovedOrder, opening: OpeningPrice)
    requires order.side.Buy?
    ensures FillPrice(a, order, opening) == Paid(opening.price, a.slippageBps)
  {
  }

  lemma MinimumCash(policy: RiskPolicy)
    requires ValidPolicy(policy)
    ensures 0.0 <= policy.minimumCashFraction <= 1.0 && 0.0 < policy.maxPositionFraction <= policy.maxGrossFraction <= 1.0
  {
  }

  lemma RatesInRange(a: Account)
    requires ValidAccount(a)
    ensures 0.0 <= a.feeBps && 0.0 <= a.slippageBps
  {
  }

  /** Limits that hold of a long position hold of a smaller one with more cash. */
  lemma CheaperStaysInLimits(policy: RiskPolicy, p: Prospect, n: Prospect)
    requires ValidPolicy(policy) && LimitReasons(policy, p) == []
    requires p.equity == p.cash + p.symbolNotional && p.gross == Abs(p.symbolNotional)
    requires n.equity == n.cash + n.symbolNotional && n.gross == Abs(n.symbolNotional)
    requires 0.0 < n.symbolNotional <= p.symbolNotional && n.cash >= p.cash
    ensures LimitReasons(policy, n) == []
  {
    hide LimitReasons, ValidPolicy;
    LimitFacts(policy, p);
    MinimumCash(policy);
    Fraction(p.equity, policy.minimumCashFraction);
    ReserveFits(policy.minimumCashFraction, p.symbolNotional, n.symbolNotional, p.cash, n.cash);
    SmallerFits(policy.maxGrossFraction, p.symbolNotional, n.symbolNotional, p.cash, n.cash, 0.0);
    SmallerFits(policy.maxPositionFraction, p.symbolNotional, n.symbolNotional, p.cash, n.cash, NOTIONAL_TOLERANCE);
    LimitsHold(policy, n);
  }

  lemma PaidLess(price: real, dearer: real, bps: real)
    requires 0.0 < price <= dearer && bps >= 0.0
    ensures 0.0 < Paid(price, bps) <= Paid(dearer, bps)
    ensures price < dearer ==> Paid(price, bps) < Paid(dearer, bps)
  {
    var k := 1.0 + bps / BPS;
    assert k > 0.0;
    assert (dearer - price) * k >= 0.0;
    assert price < dearer ==> (dearer - price) * k > 0.0;
    assert price * k > 0.0;
  }

  lemma CostsLess(quantity: real, paid: real, more: real, feeBps: real)
    requires quantity > 0.0 && 0.0 < paid <= more && feeBps >= 0.0
    ensures Cost(quantity, paid, feeBps) <= Cost(quantity, more, feeBps)
    ensures paid < more ==> Cost(quantity, paid, feeBps) < Cost(quantity, more, feeBps)
  {
    var step := quantity * more - quantity * paid;
    assert step == quantity * (more - paid);
    assert paid < more ==> quantity * (more - paid) > 0.0;
    assert quantity * (more - paid) >= 0.0;
    assert quantity * more * feeBps / BPS - quantity * paid * feeBps / BPS == step * (feeBps / BPS);
    assert step * (feeBps / BPS) >= 0.0;
  }

  lemma AdverseIsLess(fillPrice: real, dearer: real, reference: real)
    requires reference > 0.0 && fillPrice <= dearer
    ensures AdverseSlippage(Buy, fillPrice, reference) <= AdverseSlippage(Buy, dearer, reference)
  {
    PaidRatio(fillPrice, reference, dearer / reference);
  }

  /** The numbers of a buy at two openings: the cheaper one leaves more cash. */
  lemma CheaperNumbers(a: Account, order: ApprovedOrder, opening: OpeningPrice, dearer: OpeningPrice)
    requires ValidAccount(a) && order.side.Buy? && order.quantity > 0.0 && 0.0 < opening.price <= dearer.price
    ensures 0.0 < FillPrice(a, order, opening) <= FillPrice(a, order, dearer)
    ensures var cash, less := CashAfter(a, order, FillPrice(a, order, opening)), CashAfter(a, order, FillPrice(a, order, dearer));
      cash >= less && (opening.price < dearer.price ==> cash > less)
  {
    hide FillPrice, CashAfter, Paid, Cost;
    RatesInRange(a);
    PaidLess(opening.price, dearer.price, a.slippageBps);
    FillOfBuy(a, order, opening);
    FillOfBuy(a, order, dearer);
    CashOfBuy(a, order, FillPrice(a, order, opening));
    CashOfBuy(a, order, FillPrice(a, order, dearer));
    CostsLess(order.quantity, FillPrice(a, order, opening), FillPrice(a, order, dearer), a.feeBps);
  }

  /** The gates a buy passes it also passes at every cheaper opening. */
  lemma CheaperPasses(a: Account, order: ApprovedOrder, opening: OpeningPrice, dearer: OpeningPrice)
    requires ValidAccount(a) && order.side.Buy? && order.quantity > 0.0 && order.referencePrice > 0.0
    requires 0.0 < opening.price <= dearer.price && PassesGates(a, order, dearer)
    ensures PassesGates(a, order, opening)
  {
    hide FillPrice, CashAfter, AdverseSlippage;
    CheaperNumbers(a, order, opening, dearer);
    AdverseIsLess(FillPrice(a, order, opening), FillPrice(a, order, dearer), order.referencePrice);
  }

  lemma SmallerNotional(quantity: real, price: real, dearer: real)
    requires quantity > 0.0 && 0.0 < price <= dearer
    ensures 0.0 < quantity * price <= quantity * dearer
  {
    assert quantity * (dearer - price) >= 0.0;
  }

  lemma BuysAreLong(a: Account, order: ApprovedOrder)
    requires order.side.Buy? && order.quantity > 0.0 && CurrentQuantity(a, order.symbol) >= 0.0
    ensures NewQuantity(a, order) >= 0.0
  {
  }

  /** A buy out of a flat or long account that fits at one opening fits at every cheaper one: the prices
      at which its fill is accepted reach from zero up to some limit. */
  lemma CheaperFits(policy: RiskPolicy, a: Account, order: ApprovedOrder, opening: OpeningPrice, dearer: OpeningPrice)
    requires ValidPolicy(policy) && ValidAccount(a) && order.side.Buy? && order.quantity > 0.0
    requires CurrentQuantity(a, order.symbol) >= 0.0 && 0.0 < opening.price <= dearer.price
    requires FitsAtTheOpening(policy, a, order, dearer)
    ensures FitsAtTheOpening(policy, a, order, opening)
  {
    hide ValidPolicy, ValidAccount, LimitReasons, NewQuantity, CurrentQuantity, CashAfter, FillPrice;
    CheaperNumbers(a, order, opening, dearer);
    BuysAreLong(a, order);
    if !order.reduceOnly && NewQuantity(a, order) != 0.0 {
      SmallerNotional(NewQuantity(a, order), opening.price, dearer.price);
      CheaperStaysInLimits(policy, AtTheOpening(a, order, dearer), AtTheOpening(a, order, opening));
    }
  }

  /** Marked at the reference price, the governor's prospect is the position at that price. */
  lemma MarkedFits(policy: RiskPolicy, plan: Plan, prospect: Prospect, a: Account, order: ApprovedOrder, opening: OpeningPrice)
    requires VerdictInputs(policy, plan, prospect, order) && opening.price == order.referencePrice
    requires NewQuantity(a, order) == plan.prospective
    requires CashAfter(a, order, FillPrice(a, order, opening)) == prospect.cash
    requires plan.prospective == plan.current + SignedFill(plan.side, plan.quantity)
    ensures order.reduceOnly || LimitReasons(policy, AtTheOpening(a, order, opening)) == []
  {
    hide LimitReasons, NewQuantity, CashAfter, FillPrice, StrictlyReduces, Snapped;
    if !order.reduceOnly {
      LimitFacts(policy, prospect);
      LimitsHold(policy, AtTheOpening(a, order, opening));
    }
  }

  /** Marked at the reference price, an approved buy fits at every cheaper opening: dust leaves cash
      there, and anything else already fits at the reference. */
  lemma MarkedBuyFits(
    policy: RiskPolicy, plan: Plan, prospect: Prospect, a: Account, order: ApprovedOrder, opening: OpeningPrice, dearer: OpeningPrice)
    requires ValidPolicy(policy) && ValidAccount(a) && VerdictInputs(policy, plan, prospect, order)
    requires order.side.Buy? && plan.side.Buy? && CurrentQuantity(a, order.symbol) >= 0.0
    requires 0.0 < opening.price < dearer.price == order.referencePrice
    requires NewQuantity(a, order) == plan.prospective
    requires CashAfter(a, order, FillPrice(a, order, dearer)) == prospect.cash >= 0.0
    ensures FitsAtTheOpening(policy, a, order, opening)
  {
    hide LimitReasons, NewQuantity, CurrentQuantity, CashAfter, FillPrice, StrictlyReduces, AtTheOpening, ValidPolicy, ValidAccount;
    if plan.prospective == 0.0 {
      CheaperNumbers(a, order, opening, dearer);
    } else {
      MarkedFits(policy, plan, prospect, a, order, dearer);
      CheaperFits(policy, a, order, opening, dearer);
    }
  }

  /** What becomes of an approved buy out of a flat or long account at every opening below the reference
      price: it is filled, and the fill is accepted exactly when the order fits there. It always does
      when the account was marked at the reference price, and at any mark when it fits at the reference. */
  lemma CheaperBuyReconciles(
    policy: RiskPolicy, d: Decision, snapshot: Snapshot, volatility: Option<real>, a: Account, at: int,
    order: ApprovedOrder, later: Account, opening: OpeningPrice)
    requires snapshot.bars != [] && snapshot.LastPrice() > 0.0 && d.targetExposure.Some?
    requires ValidPolicy(policy) && ValidAccount(a) && ValidAccount(later) && HoldsOnly(a, d.symbol) && SameHoldings(a, later)
    requires ApprovedBy(policy, d, snapshot, volatility, a, at, order)
    requires order.side.Buy? && CurrentQuantity(a, d.symbol) >= 0.0
    requires OpensInWindow(order, opening) && 0.0 < opening.price < snapshot.LastPrice()
    requires order.authorization !in later.processed && later.valuedAt <= opening.barOpenedAt
    ensures order.referencePrice > 0.0
    ensures var e := Executed(later, order, opening, order.authorizedAt);
      && e.report.Some? && e.report.value.outcome.Filled?
      && (Compliant(policy, order, e.report.value, StateOf(later, d.symbol), StateOf(e.account, d.symbol)) <==>
          FitsAtTheOpening(policy, later, order, opening))
      && (MarkedAt(a, d.symbol, snapshot.LastPrice())
          || FitsAtTheOpening(policy, later, order, opening.(price := order.referencePrice)) ==>
            Compliant(policy, order, e.report.value, StateOf(later, d.symbol), StateOf(e.account, d.symbol)))
  {
    hide *;
    var price := snapshot.LastPrice();
    ApprovalSanctions(policy, d, snapshot, volatility, a, at, order);
    SanctionedIsPositive(policy, a, order);
    SameQuantity(a, later, d.symbol);
    var dearer := opening.(price := price);
    StillInWindow(order, opening, price);
    ReferenceDecides(policy, d, snapshot, volatility, a, at, order, later, dearer);
    OpeningDecides(policy, d, snapshot, volatility, a, at, order, later, dearer);
    FilledOutcome(policy, later, order, dearer, Executed(later, order, dearer, order.authorizedAt));
    CheaperPasses(later, order, opening, dearer);
    OpeningDecides(policy, d, snapshot, volatility, a, at, order, later, opening);
    FilledOutcome(policy, later, order, opening, Executed(later, order, opening, order.authorizedAt));
    if FitsAtTheOpening(policy, later, order, dearer) {
      CheaperFits(policy, later, order, opening, dearer);
    } else if MarkedAt(a, d.symbol, price) {
      MarkedApproval(policy, d, snapshot, volatility, a, at, order, later, opening, dearer);
    }
  }

  lemma StillInWindow(order: ApprovedOrder, opening: OpeningPrice, price: real)
    requires OpensInWindow(order, opening)
    ensures OpensInWindow(order, opening.(price := price))
  {
  }

  lemma MarkedApproval(
    policy: RiskPolicy, d: Decision, snapshot: Snapshot, volatility: Option<real>, a: Account, at: int,
    order: ApprovedOrder, later: Account, opening: OpeningPrice, dearer: OpeningPrice)
    requires snapshot.bars != [] && snapshot.LastPrice() > 0.0 && d.targetExposure.Some?
    requires ValidPolicy(policy) && ValidAccount(a) && ValidAccount(later) && SameHoldings(a, later)
    requires MarkedAt(a, d.symbol, snapshot.LastPrice()) && ApprovedBy(policy, d, snapshot, volatility, a, at, order)
    requires order.side.Buy? && CurrentQuantity(later, d.symbol) >= 0.0
    requires 0.0 < opening.price < dearer.price == order.referencePrice == snapshot.LastPrice()
    ensures FitsAtTheOpening(policy, later, order, opening)
  {
    hide *;
    var price := snapshot.LastPrice();
    ApprovalFacts(policy, d, snapshot, volatility, a, at, order);
    var plan := PlanOf(policy, TargetOf(policy, d, a), a, d.symbol, price);
    var prospect := ProspectOf(plan, CostsOf(a), StateOf(a, d.symbol), price);
    OrderTerms(policy, d, snapshot, plan, CostsOf(a), at);
    ApprovedInputs(policy, d, snapshot, volatility, a, at, order, plan, prospect);
    SameRatesAndSymbols(a, later, d.symbol);
    SameState(a, later, d.symbol, plan, price);
    InputsSnap(policy, plan, prospect, order);
    AccountPlan(policy, TargetOf(policy, d, a), a, d.symbol, price);
    FillNumbers(later, plan, order, dearer, price);
    if plan.reducing {
      ReducingFits(policy, later, order, opening);
    } else {
      EnoughCash(policy, prospect);
      MarkedBuyFits(policy, plan, prospect, later, order, opening, dearer);
    }
  }

  lemma InputsSnap(policy: RiskPolicy, plan: Plan, prospect: Prospect, order: ApprovedOrder)
    requires VerdictInputs(policy, plan, prospect, order)
    ensures plan.prospective == Snapped(plan.current + SignedFill(plan.side, plan.quantity)) && order.reduceOnly == plan.reducing
  {
  }

  lemma ReducingFits(policy: RiskPolicy, a: Account, order: ApprovedOrder, opening: OpeningPrice)
    requires order.reduceOnly
    ensures FitsAtTheOpening(policy, a, order, opening)
  {
  }

  lemma EnoughCash(policy: RiskPolicy, prospect: Prospect)
    requires ValidPolicy(policy) && LimitReasons(policy, prospect) == []
    ensures prospect.cash >= 0.0
  {
    LimitFacts(policy, prospect);
    Fraction(prospect.equity, policy.minimumCashFraction);
  }

  // ---- the slippage gate in prices ----

  /** The slippage gate in prices: a buy is turned away exactly when it would pay more than the reference
      price with the bound and the tolerance on top, a sale when it would fetch less. */
  lemma SlippageGateInPrices(side: OrderSide, fillPrice: real, reference: real, bound: real)
    requires reference > 0.0 && bound >= 0.0
    ensures AdverseSlippage(side, fillPrice, reference) > bound + NOTIONAL_TOLERANCE <==>
      if side.Buy? then fillPrice > reference * (1.0 + (bound + NOTIONAL_TOLERANCE) / BPS)
      else fillPrice < reference * (1.0 - (bound + NOTIONAL_TOLERANCE) / BPS)
  {
    var q, x := fillPrice / reference, (bound + NOTIONAL_TOLERANCE) / BPS;
    assert q * reference == fillPrice;
    QuotientAgainst(q, reference, fillPrice, 1.0 + x);
    QuotientAgainst(q, reference, fillPrice, 1.0 - x);
  }

  lemma QuotientAgainst(q: real, y: real, z: real, limit: real)
    requires y > 0.0 && q * y == z
    ensures q > limit <==> z > y * limit
    ensures q < limit <==> z < y * limit
  {
    assert z - y * limit == (q - limit) * y;
    assert q > limit ==> (q - limit) * y > 0.0;
    assert q < limit ==> (limit - q) * y > 0.0;
  }

  /** On an execution: an approved order is turned away for slippage at exactly those openings. */
  lemma WorseOpeningIsRejected(
    policy: RiskPolicy, d: Decision, snapshot: Snapshot, volatility: Option<real>, a: Account, at: int,
    order: ApprovedOrder, later: Account, opening: OpeningPrice)
    requires snapshot.bars != [] && snapshot.LastPrice() > 0.0 && d.targetExposure.Some?
    requires ValidPolicy(policy) && ValidAccount(a) && ValidAccount(later) && HoldsOnly(a, d.symbol) && SameHoldings(a, later)
    requires ApprovedBy(policy, d, snapshot, volatility, a, at, order)
    requires OpensInWindow(order, opening) && opening.price > 0.0
    requires order.authorization !in later.processed && later.valuedAt <= opening.barOpenedAt
    ensures order.referencePrice > 0.0
    ensures var e, bps := Executed(later, order, opening, order.authorizedAt), a.slippageBps;
      && e.report.Some?
      && (e.report.value.outcome == Rejected(SlippageExceeded) <==>
          if order.side.Buy? then
            opening.price * (1.0 + bps / BPS) > snapshot.LastPrice() * (1.0 + (bps + NOTIONAL_TOLERANCE) / BPS)
          else opening.price * (1.0 - bps / BPS) < snapshot.LastPrice() * (1.0 - (bps + NOTIONAL_TOLERANCE) / BPS))
  {
    hide *;
    var price := snapshot.LastPrice();
    OpeningDecides(policy, d, snapshot, volatility, a, at, order, later, opening);
    ApprovalFacts(policy, d, snapshot, volatility, a, at, order);
    OrderTerms(policy, d, snapshot, PlanOf(policy, TargetOf(policy, d, a), a, d.symbol, price), CostsOf(a), at);
    SameRatesAndSymbols(a, later, d.symbol);
    RatesInRange(a);
    GateOutcome(policy, later, order, opening, Executed(later, order, opening, order.authorizedAt));
    SlippageGateInPrices(order.side, FillPrice(later, order, opening), price, order.maxSlippageBps);
    FillInPrices(later, order, opening);
  }

  lemma GateOutcome(policy: RiskPolicy, a: Account, order: ApprovedOrder, opening: OpeningPrice, e: Execution)
    requires order.referencePrice > 0.0 && e.report.Some? && OpeningOutcome(policy, a, order, opening, e)
    ensures e.report.value.outcome == Rejected(SlippageExceeded) <==>
      AdverseSlippage(order.side, FillPrice(a, order, opening), order.referencePrice) > order.maxSlippageBps + NOTIONAL_TOLERANCE
  {
    hide FitsAtTheOpening, Compliant, StateOf, AdverseSlippage, FillPrice, CashAfter;
  }

  lemma FillInPrices(a: Account, order: ApprovedOrder, opening: OpeningPrice)
    ensures FillPrice(a, order, opening) ==
      opening.price * if order.side.Buy? then 1.0 + a.slippageBps / BPS else 1.0 - a.slippageBps / BPS
  {
  }

  // ---- a short sale that opens at a better price ----

  const HALF_POLICY := RiskPolicy(0.0, 0.5, 0.5, 1000.0, 0.0, 1.0, 10, 10, 10, 0.0, 0.0, true, [])
  const ONE_BAR := Bar(0, 1, 1, 100.0, 100.0, 100.0, 100.0, 1.0)
  const ONE_SNAPSHOT := Snapshot(1, 1, 1, 1, [ONE_BAR])
  const SHORT_DECISION := Decision(
    DecisionId(ONE_SNAPSHOT.Id(), [], TargetExposure, Some(-1.0)), 1, 1, ONE_SNAPSHOT.Id(), 1, Flat, None, Some(-1.0),
    TargetExposure, -1.0, 1.0, 1, 10, [])
  const FLAT_ACCOUNT := Account(100.0, map[], 1, {}, 0.0, 0.0)
  const HIGH_OPENING := OpeningPrice(1, 1, 120.0, 2, 2)

  const SHORT_PLAN := Plan(0.0, 0.0, -50.0, -50.0, 50.0, Sell, false, 0.5, -0.5, false)

  function ShortOrder(): ApprovedOrder
  {
    OrderFor(HALF_POLICY, SHORT_DECISION, ONE_SNAPSHOT, SHORT_PLAN, CostsOf(FLAT_ACCOUNT), 1)
  }

  lemma ShortIsPlanned()
    ensures ONE_SNAPSHOT.LastPrice() == 100.0
    ensures StateOf(FLAT_ACCOUNT, 1) == Portfolio(100.0, 100.0, 1, [])
    ensures PlanFor(HALF_POLICY, TargetNotional(HALF_POLICY, -1.0, 100.0), None, 100.0) == SHORT_PLAN
  {
    assert TargetNotional(HALF_POLICY, -1.0, 100.0) == -50.0;
  }

  lemma ShortIsCausal()
    ensures CausalReasons(HALF_POLICY, SHORT_DECISION, ONE_SNAPSHOT, Portfolio(100.0, 100.0, 1, []), 1) == []
  {
  }

  function ShortProspect(): Prospect
  {
    ProspectOf(SHORT_PLAN, CostsOf(FLAT_ACCOUNT), Portfolio(100.0, 100.0, 1, []), 100.0)
  }

  lemma ShortProspectIs()
    ensures ShortProspect() == Prospect(100.0, 150.0, 100.0, -50.0, 50.0)
  {
  }

  lemma ShortIsWithinLimits()
    ensures ShortProspect().worstPrice == 100.0 && LimitReasons(HALF_POLICY, ShortProspect()) == []
    ensures RestrictionReasons(HALF_POLICY, SHORT_DECISION, Some(0.1), Portfolio(100.0, 100.0, 1, []), -0.5) == []
  {
    hide ShortProspect, LimitReasons;
    ShortProspectIs();
    LimitsHold(HALF_POLICY, ShortProspect());
    assert Volatilities(Some(0.1), []) == [0.1];
  }

  lemma ShortIsApproved()
    ensures ONE_SNAPSHOT.bars != [] && ONE_SNAPSHOT.LastPrice() > 0.0
    ensures ApprovedBy(HALF_POLICY, SHORT_DECISION, ONE_SNAPSHOT, Some(0.1), FLAT_ACCOUNT, 1, ShortOrder())
  {
    hide CausalReasons, PlanFor, ProspectOf, LimitReasons, RestrictionReasons, TargetNotional;
    ShortIsPlanned();
    ShortIsCausal();
    ShortIsWithinLimits();
    assert FindPosition([], 1) == None;
  }

  /** The terms of the order that opens this position. */
  predicate ShortPlanned(o: ApprovedOrder)
  {
    && o.side == Sell && o.quantity == 0.5 && o.referencePrice == 100.0 && !o.reduceOnly
    && o.symbol == 1 && o.timeframe == 1 && o.maxFeeBps == 0.0 && o.maxSlippageBps == 0.0
    && o.authorizedAt == o.earliestFillAt == 1 && o.expiresAt >= 2
  }

  lemma ShortNumbers(o: ApprovedOrder, price: real)
    requires ShortPlanned(o) && price >= 100.0
    ensures var a, opening := FLAT_ACCOUNT, OpeningPrice(1, 1, price, 2, 2);
      && OpensInWindow(o, opening) && RejectionReason(a, o, opening, 1).None?
      && FillPrice(a, o, opening) == price
      && AdverseSlippage(Sell, price, 100.0) == 0.0
      && CashAfter(a, o, price) == 100.0 + 0.5 * price
      && PositionsAfter(a, o, opening, price) == map[1 := PaperPosition(-0.5, price, price, 2)]
  {
    assert NewQuantity(FLAT_ACCOUNT, o) == -0.5;
    assert AverageEntry(None, -0.5, price, -0.5) == (0.0 + 0.5 * price) / 0.5;
  }

  lemma ShortIsFilled(o: ApprovedOrder, price: real)
    requires ShortPlanned(o) && price >= 100.0
    ensures var opening := OpeningPrice(1, 1, price, 2, 2);
      var e := Executed(FLAT_ACCOUNT, o, opening, 1);
      && e.report == Some(FillReport(FLAT_ACCOUNT, o, opening, price, 0.0)) && e.account == AfterFill(FLAT_ACCOUNT, o, opening, price)
      && e.account.cash == 100.0 + 0.5 * price && e.account.positions == map[1 := PaperPosition(-0.5, price, price, 2)]
      && e.account.valuedAt == 2 && e.account.feeBps == 0.0 && e.account.slippageBps == 0.0
  {
    hide BuildState, AdverseSlippage, CashAfter, PositionsAfter, FillPrice, RejectionReason, FillFee;
    ShortNumbers(o, price);
    CommitGate(FLAT_ACCOUNT, o, OpeningPrice(1, 1, price, 2, 2), price);
  }

  lemma TooLarge(o: ApprovedOrder, report: ExecutionReport, after: Account, price: real)
    requires o.referencePrice > 0.0 && !o.reduceOnly && price > 100.0
    requires after.cash == 100.0 + 0.5 * price && after.positions == map[1 := PaperPosition(-0.5, price, price, 2)]
    ensures !Compliant(HALF_POLICY, o, report, StateOf(FLAT_ACCOUNT, 1), StateOf(after, 1))
  {
    hide TermReasons, PriceReasons, TimeReasons, BalanceReasons, ReduceFault, PositionFaults, SymbolFault;
    StateNumbers(after, 1, price);
    var state := StateOf(after, 1);
    assert state.equity == 100.0 && state.GrossExposure() == 0.5 * price;
    assert ExposureHead(HALF_POLICY, o, state) != [];
  }

  lemma JustFits(o: ApprovedOrder)
    requires ShortPlanned(o)
    ensures var opening := OpeningPrice(1, 1, 100.0, 2, 2);
      Compliant(HALF_POLICY, o, FillReport(FLAT_ACCOUNT, o, opening, 100.0, 0.0),
                StateOf(FLAT_ACCOUNT, 1), StateOf(AfterFill(FLAT_ACCOUNT, o, opening, 100.0), 1))
  {
    hide Compliant, AdverseSlippage, CashAfter, PositionsAfter, FillPrice, RejectionReason, LimitReasons, ExposureReasons;
    var opening := OpeningPrice(1, 1, 100.0, 2, 2);
    ShortNumbers(o, 100.0);
    FillReconciles(HALF_POLICY, FLAT_ACCOUNT, o, opening, 100.0);
    var after := AfterFill(FLAT_ACCOUNT, o, opening, 100.0);
    StateNumbers(after, 1, 100.0);
    ShortProspectIs();
    ShortIsWithinLimits();
    ExposureReconciles(HALF_POLICY, o, StateOf(after, 1), ShortProspect(), -0.5);
  }

  /** The price moved in the seller's favour, the fill is made, and it fails the reconciliation: the
      position is larger at the opening than the limit allows. So for short sales approval does not
      cover better prices, and a replay that meets such an opening stops. */
  lemma BetterShortCanFail()
    ensures ValidPolicy(HALF_POLICY) && ValidAccount(FLAT_ACCOUNT) && HoldsOnly(FLAT_ACCOUNT, 1)
    ensures ONE_SNAPSHOT.bars != [] && ONE_SNAPSHOT.LastPrice() > 0.0
    ensures ApprovedBy(HALF_POLICY, SHORT_DECISION, ONE_SNAPSHOT, Some(0.1), FLAT_ACCOUNT, 1, ShortOrder())
    ensures ShortOrder().referencePrice > 0.0
    ensures OpensInWindow(ShortOrder(), HIGH_OPENING) && HIGH_OPENING.price > ShortOrder().referencePrice
    ensures var e := Executed(FLAT_ACCOUNT, ShortOrder(), HIGH_OPENING, 1);
      && e.report.Some? && e.report.value.outcome.Filled?
      && !Compliant(HALF_POLICY, ShortOrder(), e.report.value, StateOf(FLAT_ACCOUNT, 1), StateOf(e.account, 1))
  {
    hide Compliant, ApprovedBy, Executed;
    ShortIsApproved();
    ShortIsFilled(ShortOrder(), 120.0);
    var e := Executed(FLAT_ACCOUNT, ShortOrder(), HIGH_OPENING, 1);
    TooLarge(ShortOrder(), e.report.value, e.account, 120.0);
  }
}
