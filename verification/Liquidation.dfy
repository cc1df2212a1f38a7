/** Closing a position at a constant price: repeated evaluation and execution with target
    exposure zero. */
module Liquidation {
  import opened Sequences
  import opened Trading
  import opened Paper
  import opened Governor
  import opened OrderFlow

  /** One round: the account is marked, the governor asked, and an approved order executed at
      the next opening. */
  datatype Round = Round(decision: Decision, snapshot: Snapshot, volatility: Option<real>, at: int, opening: OpeningPrice)

  function MarkedTo(a: Account, price: real, at: int): Account
  {
    a.(positions := map s | s in a.positions :: a.positions[s].(mark := price, markObservedAt := at), valuedAt := at)
  }

  function AfterRound(policy: RiskPolicy, a: Account, price: real, r: Round): Account
    requires r.snapshot.bars != [] && r.snapshot.LastPrice() > 0.0
  {
    var m := MarkedTo(a, price, r.at);
    match Evaluate(policy, r.decision, r.snapshot, r.volatility, StateOf(m, r.decision.symbol), CostsOf(m), r.at)
    case Vetoed(_) => m
    case Approved(order) => if order.referencePrice > 0.0 then Executed(m, order, r.opening, r.at).account else m
  }

  /** Fresh inputs at the constant price, asking for zero exposure of `symbol`. Nothing is said of
      confidence, volatility, permitted symbols, cash, equity or exposure. */
  ghost predicate FreshRound(policy: RiskPolicy, a: Account, symbol: int, price: real, r: Round)
  {
    && r.snapshot.bars != [] && r.snapshot.LastPrice() == price
    && r.decision.symbol == symbol && r.decision.targetExposure == Some(0.0)
    && Actionable(r.decision.action)
    && r.opening.symbol == symbol && r.opening.timeframe == r.decision.timeframe && r.opening.price == price
    && r.opening.observedAt == r.opening.barOpenedAt >= r.at
    && r.opening.barOpenedAt <= r.decision.expiresAt && r.opening.barOpenedAt <= r.at + policy.orderValidity
    && CausalReasons(policy, r.decision, r.snapshot, StateOf(MarkedTo(a, price, r.at), symbol), r.at) == []
    && (forall id :: id in a.processed ==> id.evaluatedAt < r.at)
  }

  /** What the policy and the cost rates must allow for any order to pass. */
  ghost predicate Tradable(policy: RiskPolicy, a: Account, price: real)
  {
    && price > 0.0
    && a.feeBps <= policy.maxFeeBps && a.slippageBps <= policy.maxSlippageBps && a.slippageBps < BPS
    && policy.maxOrderNotional > NOTIONAL_TOLERANCE
    && policy.maxOrderNotional / price > QUANTITY_TOLERANCE
  }

  lemma MarkedKeeps(a: Account, symbol: int, price: real, at: int)
    requires ValidAccount(a) && HoldsOnly(a, symbol) && price > 0.0
    ensures var m := MarkedTo(a, price, at);
      && ValidAccount(m) && HoldsOnly(m, symbol) && MarkedAt(m, symbol, price)
      && CurrentQuantity(m, symbol) == CurrentQuantity(a, symbol)
      && (symbol in m.positions <==> symbol in a.positions)
      && m.feeBps == a.feeBps && m.slippageBps == a.slippageBps && m.valuedAt == at && m.processed == a.processed
  {
  }

  /** A reducing plan passes whatever the restrictions and limits say. */
  lemma ReducingPasses(policy: RiskPolicy, m: Account, symbol: int, price: real, r: Round, plan: Plan)
    requires r.snapshot.bars != [] && r.snapshot.LastPrice() == price > 0.0
    requires r.decision.symbol == symbol && r.decision.targetExposure == Some(0.0) && Actionable(r.decision.action)
    requires CausalReasons(policy, r.decision, r.snapshot, StateOf(m, symbol), r.at) == []
    requires m.feeBps <= policy.maxFeeBps && m.slippageBps <= policy.maxSlippageBps
    requires plan == PlanOf(policy, TargetOf(policy, r.decision, m), m, symbol, price)
    requires plan.orderNotional > NOTIONAL_TOLERANCE && plan.reducing
    requires ProspectOf(plan, CostsOf(m), StateOf(m, symbol), price).worstPrice > 0.0
    requires r.decision.expiresAt >= r.at && policy.orderValidity >= 0
    ensures Evaluate(policy, r.decision, r.snapshot, r.volatility, StateOf(m, symbol), CostsOf(m), r.at)
         == Approved(OrderFor(policy, r.decision, r.snapshot, plan, CostsOf(m), r.at))
  {
    hide CausalReasons, PlanFor, ProspectOf, LimitReasons, RestrictionReasons, StateOf, TargetNotional;
  }

  lemma WorstPricePositive(m: Account, plan: Plan, portfolio: Portfolio, price: real)
    requires price > 0.0 && 0.0 <= m.slippageBps < BPS
    ensures ProspectOf(plan, CostsOf(m), portfolio, price).worstPrice > 0.0
  {
    var k := if plan.side.Buy? then 1.0 + m.slippageBps / BPS else 1.0 - m.slippageBps / BPS;
    assert k > 0.0;
    assert price * k > 0.0;
  }

  lemma ZeroTarget(policy: RiskPolicy, d: Decision, m: Account)
    requires d.targetExposure == Some(0.0)
    ensures TargetOf(policy, d, m) == 0.0
  {
    assert 0.0 * StateOf(m, d.symbol).equity == 0.0;
  }

  lemma NotionalSign(q: real, price: real)
    requires price > 0.0
    ensures Abs(q * price) == Abs(q) * price
    ensures (q > 0.0 <==> q * price > 0.0) && (q < 0.0 <==> q * price < 0.0)
  {
  }

  /** The size of a liquidating plan and what it leaves. */
  lemma LiquidatingPlan(policy: RiskPolicy, plan: Plan, price: real)
    requires price > 0.0 && WellPlanned(plan, policy, price, true) && plan.target == 0.0
    requires policy.maxOrderNotional > NOTIONAL_TOLERANCE && policy.maxOrderNotional / price > QUANTITY_TOLERANCE
    requires Abs(plan.current) > QUANTITY_TOLERANCE && Abs(plan.current) * price > NOTIONAL_TOLERANCE
    ensures plan.orderNotional > NOTIONAL_TOLERANCE && plan.reducing
    ensures plan.prospective == 0.0
         || Abs(plan.prospective) * price == Abs(plan.current) * price - policy.maxOrderNotional > NOTIONAL_TOLERANCE
    ensures Abs(plan.current) * price <= policy.maxOrderNotional + NOTIONAL_TOLERANCE ==> plan.prospective == 0.0
  {
    NotionalSign(plan.current, price);
    if Abs(plan.current) * price <= policy.maxOrderNotional + NOTIONAL_TOLERANCE {
      FlatteningCloses(plan, policy, price);
    } else {
      LargeLiquidation(policy, plan, price);
    }
  }

  lemma LargeLiquidation(policy: RiskPolicy, plan: Plan, price: real)
    requires price > 0.0 && WellPlanned(plan, policy, price, true) && plan.target == 0.0
    requires policy.maxOrderNotional > 0.0 && policy.maxOrderNotional / price > QUANTITY_TOLERANCE
    requires Abs(plan.current) > QUANTITY_TOLERANCE
    requires Abs(plan.current) * price > policy.maxOrderNotional + NOTIONAL_TOLERANCE
    requires Abs(plan.current * price) == Abs(plan.current) * price
    requires (plan.current > 0.0 <==> plan.current * price > 0.0) && (plan.current < 0.0 <==> plan.current * price < 0.0)
    ensures plan.orderNotional == policy.maxOrderNotional && plan.reducing
    ensures plan.prospective == 0.0
         || Abs(plan.prospective) * price == Abs(plan.current) * price - policy.maxOrderNotional > NOTIONAL_TOLERANCE
  {
    assert plan.orderNotional == policy.maxOrderNotional && !plan.flattening;
    assert plan.quantity == policy.maxOrderNotional / price;
    StepDown(plan.current, plan.quantity, policy.maxOrderNotional, price);
    var raw := plan.current + SignedFill(plan.side, plan.quantity);
    assert Abs(raw) == Abs(plan.current) - plan.quantity && SameSign(plan.current, raw);
  }

  lemma StepDown(current: real, quantity: real, notional: real, price: real)
    requires price > 0.0 && quantity == notional / price
    requires Abs(current) * price > notional + NOTIONAL_TOLERANCE
    ensures quantity < Abs(current)
    ensures (Abs(current) - quantity) * price == Abs(current) * price - notional
  {
    Quotient(quantity, notional, price);
    assert (Abs(current) - quantity) * price == Abs(current) * price - quantity * price;
    PositiveProduct(Abs(current) - quantity, price);
  }

  lemma PositiveProduct(x: real, y: real)
    requires y > 0.0 && x * y > 0.0
    ensures x > 0.0
  {
  }

  // ---- one round ----

  /** The plan of a round that starts above the dust threshold. */
  lemma RoundPlan(policy: RiskPolicy, m: Account, symbol: int, price: real, d: Decision, plan: Plan)
    requires Tradable(policy, m, price) && ValidAccount(m) && MarkedAt(m, symbol, price)
    requires d.symbol == symbol && d.targetExposure == Some(0.0)
    requires Abs(CurrentQuantity(m, symbol)) * price > NOTIONAL_TOLERANCE
    requires plan == PlanOf(policy, TargetOf(policy, d, m), m, symbol, price)
    ensures plan.current == CurrentQuantity(m, symbol) && symbol in m.positions
    ensures WellPlanned(plan, policy, price, true)
    ensures plan.orderNotional > NOTIONAL_TOLERANCE && plan.reducing
    ensures plan.prospective == 0.0
         || Abs(plan.prospective) * price == Abs(plan.current) * price - policy.maxOrderNotional > NOTIONAL_TOLERANCE
    ensures Abs(plan.current) * price <= policy.maxOrderNotional + NOTIONAL_TOLERANCE ==> plan.prospective == 0.0
  {
    hide PlanOf, WellPlanned, TargetOf;
    Held(m, symbol, price);
    ZeroTarget(policy, d, m);
    AccountPlan(policy, 0.0, m, symbol, price);
    PlanTarget(policy, 0.0, m, symbol, price);
    LiquidatingPlan(policy, plan, price);
  }

  lemma Held(m: Account, symbol: int, price: real)
    requires ValidAccount(m) && Abs(CurrentQuantity(m, symbol)) * price > NOTIONAL_TOLERANCE
    ensures symbol in m.positions && Abs(CurrentQuantity(m, symbol)) > QUANTITY_TOLERANCE
  {
  }

  lemma PlanTarget(policy: RiskPolicy, target: real, m: Account, symbol: int, price: real)
    requires price > 0.0
    ensures PlanOf(policy, target, m, symbol, price).target == target
  {
  }

  ghost predicate SameRates(a: Account, b: Account)
  {
    a.feeBps == b.feeBps && a.slippageBps == b.slippageBps
  }

  /** The fill of a round's order against the marked account. */
  lemma RoundFill(policy: RiskPolicy, m: Account, symbol: int, price: real, r: Round, plan: Plan, order: ApprovedOrder)
    requires ValidPolicy(policy) && Tradable(policy, m, price) && ValidAccount(m) && HoldsOnly(m, symbol)
    requires MarkedAt(m, symbol, price) && symbol in m.positions
    requires r.snapshot.bars != [] && r.snapshot.LastPrice() == price && r.decision.symbol == symbol
    requires r.opening.symbol == symbol && r.opening.timeframe == r.decision.timeframe && r.opening.price == price
    requires r.opening.observedAt == r.opening.barOpenedAt >= r.at == m.valuedAt
    requires r.opening.barOpenedAt <= r.decision.expiresAt && r.opening.barOpenedAt <= r.at + policy.orderValidity
    requires forall id :: id in m.processed ==> id.evaluatedAt < r.at
    requires plan.current == CurrentQuantity(m, symbol) && WellPlanned(plan, policy, price, true)
    requires plan.orderNotional > NOTIONAL_TOLERANCE && plan.reducing
    requires order == OrderFor(policy, r.decision, r.snapshot, plan, CostsOf(m), r.at)
    ensures order.referencePrice > 0.0
    ensures var e := Executed(m, order, r.opening, r.at);
      && e.report.Some? && e.report.value.outcome.Filled?
      && ValidAccount(e.account) && HoldsOnly(e.account, symbol)
      && CurrentQuantity(e.account, symbol) == plan.prospective
      && SameRates(e.account, m)
  {
    hide ProspectOf, WellPlanned, LimitReasons, StateOf, FillPrice, CashAfter, Executed, ValidAccount, ValidPolicy;
    OrderTerms(policy, r.decision, r.snapshot, plan, CostsOf(m), r.at);
    var prospect := ProspectOf(plan, CostsOf(m), StateOf(m, symbol), price);
    RatesBelowAll(policy, m, price);
    WorstPricePositive(m, plan, StateOf(m, symbol), price);
    PlannedProspective(plan, policy, price);
    FillNumbers(m, plan, order, r.opening, price);
    AccountBasics(policy, m, symbol);
    SizedPlan(plan, policy, price, true);
    PlannedIsFilled(policy, plan, prospect, m, order, r.opening);
    ExecutionKeepsAccount(m, order, r.opening, r.at);
    RatesKept(m, order, r.opening, r.at);
    HoldingsKept(m, order, r.opening, prospect.worstPrice);
  }

  lemma RatesBelowAll(policy: RiskPolicy, m: Account, price: real)
    requires Tradable(policy, m, price) && ValidAccount(m)
    ensures 0.0 <= m.slippageBps < BPS
  {
  }

  lemma PlannedProspective(plan: Plan, policy: RiskPolicy, price: real)
    requires price > 0.0 && WellPlanned(plan, policy, price, true)
    ensures plan.prospective == Snapped(plan.current + SignedFill(plan.side, plan.quantity))
  {
  }

  lemma RatesKept(a: Account, order: ApprovedOrder, opening: OpeningPrice, at: int)
    requires order.referencePrice > 0.0
    ensures SameRates(Executed(a, order, opening, at).account, a)
  {
  }

  lemma HoldingsKept(a: Account, order: ApprovedOrder, opening: OpeningPrice, fillPrice: real)
    requires HoldsOnly(a, order.symbol)
    ensures var after := PositionsAfter(a, order, opening, fillPrice);
      && after.Keys <= {order.symbol}
      && (if order.symbol in after then after[order.symbol].quantity else 0.0) == NewQuantity(a, order)
  {
  }

  /** Above the dust threshold a fresh round always approves and fills, and takes a whole
      order's notional off the position or closes it: no confidence, volatility, symbol or
      limit check can stop it. */
  lemma RoundLiquidates(policy: RiskPolicy, a: Account, symbol: int, price: real, r: Round)
    requires ValidPolicy(policy) && Tradable(policy, a, price) && ValidAccount(a) && HoldsOnly(a, symbol)
    requires FreshRound(policy, a, symbol, price, r)
    requires Abs(CurrentQuantity(a, symbol)) * price > NOTIONAL_TOLERANCE
    ensures var m := MarkedTo(a, price, r.at);
      var verdict := Evaluate(policy, r.decision, r.snapshot, r.volatility, StateOf(m, symbol), CostsOf(m), r.at);
      && verdict.Approved? && verdict.order.referencePrice > 0.0 && verdict.order.reduceOnly
      && Executed(m, verdict.order, r.opening, r.at).report.Some?
      && Executed(m, verdict.order, r.opening, r.at).report.value.outcome.Filled?
    ensures var b := AfterRound(policy, a, price, r);
      && ValidAccount(b) && HoldsOnly(b, symbol) && Tradable(policy, b, price)
      && (CurrentQuantity(b, symbol) == 0.0
          || Abs(CurrentQuantity(b, symbol)) * price
               == Abs(CurrentQuantity(a, symbol)) * price - policy.maxOrderNotional > NOTIONAL_TOLERANCE)
      && (Abs(CurrentQuantity(a, symbol)) * price <= policy.maxOrderNotional + NOTIONAL_TOLERANCE ==>
            CurrentQuantity(b, symbol) == 0.0)
  {
    hide Evaluate, Executed, ValidAccount, WellPlanned, CausalReasons, PlanOf, ProspectOf, OrderFor, StateOf, CurrentQuantity,
         MarkedTo, ValidPolicy;
    var m := MarkedTo(a, price, r.at);
    MarkedKeeps(a, symbol, price, r.at);
    var plan := PlanOf(policy, TargetOf(policy, r.decision, m), m, symbol, price);
    RoundPlan(policy, m, symbol, price, r.decision, plan);
    RatesBelowAll(policy, m, price);
    WorstPricePositive(m, plan, StateOf(m, symbol), price);
    ValidityPositive(policy);
    ReducingPasses(policy, m, symbol, price, r, plan);
    var order := OrderFor(policy, r.decision, r.snapshot, plan, CostsOf(m), r.at);
    RoundFill(policy, m, symbol, price, r, plan, order);
    OrderTerms(policy, r.decision, r.snapshot, plan, CostsOf(m), r.at);
  }

  lemma ValidityPositive(policy: RiskPolicy)
    requires ValidPolicy(policy)
    ensures policy.orderValidity > 0
  {
  }

  /** At or below the threshold the governor sees a position already at its target: the round
      changes nothing but the mark. */
  lemma DustRound(policy: RiskPolicy, a: Account, symbol: int, price: real, r: Round)
    requires Tradable(policy, a, price) && ValidAccount(a) && HoldsOnly(a, symbol)
    requires FreshRound(policy, a, symbol, price, r)
    requires Abs(CurrentQuantity(a, symbol)) * price <= NOTIONAL_TOLERANCE
    ensures var m := MarkedTo(a, price, r.at);
      Evaluate(policy, r.decision, r.snapshot, r.volatility, StateOf(m, symbol), CostsOf(m), r.at) == Vetoed([AlreadyAtTarget])
    ensures AfterRound(policy, a, price, r) == MarkedTo(a, price, r.at)
  {
    hide CausalReasons, PlanFor, ProspectOf, LimitReasons, RestrictionReasons, StateOf, TargetNotional, MarkedTo, CurrentQuantity,
         ValidAccount;
    var m := MarkedTo(a, price, r.at);
    MarkedKeeps(a, symbol, price, r.at);
    ZeroTarget(policy, r.decision, m);
    DustPlan(policy, m, symbol, price);
  }

  lemma DustPlan(policy: RiskPolicy, m: Account, symbol: int, price: real)
    requires price > 0.0 && MarkedAt(m, symbol, price)
    requires Abs(CurrentQuantity(m, symbol)) * price <= NOTIONAL_TOLERANCE
    ensures PlanOf(policy, 0.0, m, symbol, price).orderNotional <= NOTIONAL_TOLERANCE
  {
    hide *;
    AccountPlan(policy, 0.0, m, symbol, price);
    PlanTarget(policy, 0.0, m, symbol, price);
    DustNotional(policy, PlanOf(policy, 0.0, m, symbol, price), price, symbol in m.positions);
  }

  lemma DustNotional(policy: RiskPolicy, plan: Plan, price: real, held: bool)
    requires price > 0.0 && WellPlanned(plan, policy, price, held) && plan.target == 0.0
    requires Abs(plan.current) * price <= NOTIONAL_TOLERANCE
    ensures plan.orderNotional <= NOTIONAL_TOLERANCE
  {
    NotionalSign(plan.current, price);
  }

  // ---- every sequence of rounds ----

  function RunRounds(policy: RiskPolicy, a: Account, price: real, rounds: seq<Round>): Account
    requires forall r :: r in rounds ==> r.snapshot.bars != [] && r.snapshot.LastPrice() > 0.0
    decreases |rounds|
  {
    if rounds == [] then a else RunRounds(policy, AfterRound(policy, a, price, rounds[0]), price, rounds[1..])
  }

  /** Every round is fresh for the account it meets. */
  ghost predicate AllFresh(policy: RiskPolicy, a: Account, symbol: int, price: real, rounds: seq<Round>)
    decreases |rounds|
  {
    rounds == []
    || (price > 0.0 && FreshRound(policy, a, symbol, price, rounds[0])
        && AllFresh(policy, AfterRound(policy, a, price, rounds[0]), symbol, price, rounds[1..]))
  }

  lemma {:induction false} FreshPrices(policy: RiskPolicy, a: Account, symbol: int, price: real, rounds: seq<Round>)
    requires AllFresh(policy, a, symbol, price, rounds)
    ensures forall r :: r in rounds ==> r.snapshot.bars != [] && r.snapshot.LastPrice() > 0.0
    decreases |rounds|
  {
    if rounds != [] {
      FreshPrices(policy, AfterRound(policy, a, price, rounds[0]), symbol, price, rounds[1..]);
      assert rounds == [rounds[0]] + rounds[1..];
    }
  }

  /** A position within the dust threshold never moves again, whatever the number of rounds. */
  lemma {:induction false} DustStays(policy: RiskPolicy, a: Account, symbol: int, price: real, rounds: seq<Round>)
    requires Tradable(policy, a, price) && ValidAccount(a) && HoldsOnly(a, symbol)
    requires AllFresh(policy, a, symbol, price, rounds)
    requires forall r :: r in rounds ==> r.snapshot.bars != [] && r.snapshot.LastPrice() > 0.0
    requires Abs(CurrentQuantity(a, symbol)) * price <= NOTIONAL_TOLERANCE
    ensures CurrentQuantity(RunRounds(policy, a, price, rounds), symbol) == CurrentQuantity(a, symbol)
    decreases |rounds|
  {
    hide MarkedTo, AfterRound, FreshRound, ValidAccount, HoldsOnly, CurrentQuantity;
    if rounds != [] {
      DustRound(policy, a, symbol, price, rounds[0]);
      MarkedKeeps(a, symbol, price, rounds[0].at);
      DustStays(policy, MarkedTo(a, price, rounds[0].at), symbol, price, rounds[1..]);
    }
  }

  /** Enough rounds, each worth one whole order, flatten any position above the threshold. */
  lemma {:induction false} RoundsFlatten(policy: RiskPolicy, a: Account, symbol: int, price: real, rounds: seq<Round>)
    requires ValidPolicy(policy) && Tradable(policy, a, price) && ValidAccount(a) && HoldsOnly(a, symbol)
    requires AllFresh(policy, a, symbol, price, rounds)
    requires forall r :: r in rounds ==> r.snapshot.bars != [] && r.snapshot.LastPrice() > 0.0
    requires Abs(CurrentQuantity(a, symbol)) * price > NOTIONAL_TOLERANCE
    requires Abs(CurrentQuantity(a, symbol)) * price <= |rounds| as real * policy.maxOrderNotional + NOTIONAL_TOLERANCE
    ensures CurrentQuantity(RunRounds(policy, a, price, rounds), symbol) == 0.0
    decreases |rounds|
  {
    hide AfterRound, FreshRound, ValidAccount, HoldsOnly, CurrentQuantity, Evaluate, Executed, MarkedTo;
    assert |rounds| > 0;
    RoundLiquidates(policy, a, symbol, price, rounds[0]);
    var b := AfterRound(policy, a, price, rounds[0]);
    if CurrentQuantity(b, symbol) == 0.0 {
      DustStays(policy, b, symbol, price, rounds[1..]);
    } else {
      OneFewer(|rounds|, policy.maxOrderNotional);
      RoundsFlatten(policy, b, symbol, price, rounds[1..]);
    }
  }

  lemma OneFewer(n: nat, step: real)
    requires n > 0
    ensures (n - 1) as real * step == n as real * step - step
  {
  }

  /** Liquidation at a constant price, long or short: with at least `ceil(|notional| / maximum)`
      fresh rounds the position is closed exactly, unless it started as dust, nonzero and within
      the notional tolerance, which is never closed at all. */
  lemma LiquidationTerminates(policy: RiskPolicy, a: Account, symbol: int, price: real, rounds: seq<Round>)
    requires ValidPolicy(policy) && Tradable(policy, a, price) && ValidAccount(a) && HoldsOnly(a, symbol)
    requires AllFresh(policy, a, symbol, price, rounds)
    requires Abs(CurrentQuantity(a, symbol)) * price <= |rounds| as real * policy.maxOrderNotional
    ensures forall r :: r in rounds ==> r.snapshot.bars != [] && r.snapshot.LastPrice() > 0.0
    ensures symbol !in RunRounds(policy, a, price, rounds).positions
       <==> symbol !in a.positions || Abs(CurrentQuantity(a, symbol)) * price > NOTIONAL_TOLERANCE
  {
    FreshPrices(policy, a, symbol, price, rounds);
    if Abs(CurrentQuantity(a, symbol)) * price > NOTIONAL_TOLERANCE {
      RoundsFlatten(policy, a, symbol, price, rounds);
    } else {
      DustStays(policy, a, symbol, price, rounds);
    }
    RunsStayValid(policy, a, symbol, price, rounds);
    assert Quantified(a, symbol) && Quantified(RunRounds(policy, a, price, rounds), symbol);
  }

  ghost predicate Quantified(a: Account, symbol: int)
  {
    symbol !in a.positions <==> CurrentQuantity(a, symbol) == 0.0
  }

  lemma {:induction false} RunsStayValid(policy: RiskPolicy, a: Account, symbol: int, price: real, rounds: seq<Round>)
    requires ValidPolicy(policy) && Tradable(policy, a, price) && ValidAccount(a) && HoldsOnly(a, symbol)
    requires AllFresh(policy, a, symbol, price, rounds)
    requires forall r :: r in rounds ==> r.snapshot.bars != [] && r.snapshot.LastPrice() > 0.0
    ensures ValidAccount(RunRounds(policy, a, price, rounds))
    decreases |rounds|
  {
    hide AfterRound, FreshRound, ValidAccount, HoldsOnly, CurrentQuantity, Evaluate, Executed, MarkedTo;
    if rounds != [] {
      if Abs(CurrentQuantity(a, symbol)) * price > NOTIONAL_TOLERANCE {
        RoundLiquidates(policy, a, symbol, price, rounds[0]);
      } else {
        DustRound(policy, a, symbol, price, rounds[0]);
        MarkedKeeps(a, symbol, price, rounds[0].at);
      }
      RunsStayValid(policy, AfterRound(policy, a, price, rounds[0]), symbol, price, rounds[1..]);
    }
  }
}
