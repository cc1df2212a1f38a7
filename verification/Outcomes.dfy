/** Round-trip profit and loss, and the books it must balance with. */
module Outcomes {
  import opened Trading

  datatype RoundTrips = RoundTrips(
    quantity: real, averageEntry: real, openCosts: real, gross: real, net: real, wins: nat, losses: nat)

  const NO_TRIPS := RoundTrips(0.0, 0.0, 0.0, 0.0, 0.0, 0, 0)

  /** `isclose(remaining, 0, abs_tol=1e-12)`: with zero as one side the relative part adds nothing. */
  predicate NearZero(x: real) { Abs(x) <= QUANTITY_TOLERANCE }

  predicate Extends(t: RoundTrips, signed: real)
  {
    t.quantity == 0.0 || SameSign(t.quantity, signed)
  }

  function AverageCost(held: real, average: real, added: real, price: real, total: real): real
    requires total != 0.0
  {
    (held * average + added * price) / total
  }

  function GrossOn(closed: real, price: real, average: real, direction: real): real
  {
    closed * (price - average) * direction
  }

  function CostShare(costs: real, part: real, whole: real): real
    requires whole != 0.0
  {
    costs * part / whole
  }

  function OpeningFraction(remaining: real, quantity: real): real
    requires quantity != 0.0
  {
    Abs(remaining) / quantity
  }

  function Opened(t: RoundTrips, signed: real, quantity: real, price: real, costs: real): RoundTrips
    requires t.quantity + signed != 0.0
  {
    t.(averageEntry := AverageCost(Abs(t.quantity), t.averageEntry, quantity, price, Abs(t.quantity + signed)),
       quantity := t.quantity + signed,
       openCosts := t.openCosts + costs)
  }

  function Closed(t: RoundTrips, signed: real, quantity: real, price: real, costs: real): RoundTrips
    requires t.quantity != 0.0 && quantity > 0.0
  {
    var previous := Abs(t.quantity);
    var closed := Min(previous, quantity);
    var direction := if t.quantity > 0.0 then 1.0 else -1.0;
    var gross := GrossOn(closed, price, t.averageEntry, direction);
    var entryCosts := CostShare(t.openCosts, closed, previous);
    var exitCosts := CostShare(costs, closed, quantity);
    var net := gross - entryCosts - exitCosts;
    var remaining := t.quantity + signed;
    var booked := t.(gross := t.gross + gross, net := t.net + net,
                     wins := if net > QUANTITY_TOLERANCE then t.wins + 1 else t.wins,
                     losses := if net < -QUANTITY_TOLERANCE then t.losses + 1 else t.losses);
    if NearZero(remaining) then booked.(quantity := 0.0, averageEntry := 0.0, openCosts := 0.0)
    else if SameSign(remaining, t.quantity) then booked.(quantity := remaining, openCosts := t.openCosts - entryCosts)
    else booked.(quantity := remaining, averageEntry := price, openCosts := costs * OpeningFraction(remaining, quantity))
  }

  function Applied(t: RoundTrips, side: OrderSide, quantity: real, price: real, costs: real): RoundTrips
    requires quantity > 0.0
  {
    var signed := SignedFill(side, quantity);
    if Extends(t, signed) then Opened(t, signed, quantity, price, costs)
    else Closed(t, signed, quantity, price, costs)
  }

  /** The source's `_RoundTripOutcomes`, updated in place. */
  class RoundTripOutcomes {
    var quantity: real
    var averageEntry: real
    var openCosts: real
    var gross: real
    var net: real
    var wins: nat
    var losses: nat

    constructor ()
      ensures State() == NO_TRIPS
    {
      quantity, averageEntry, openCosts, gross, net, wins, losses := 0.0, 0.0, 0.0, 0.0, 0.0, 0, 0;
    }

    function State(): RoundTrips
      reads this
    {
      RoundTrips(quantity, averageEntry, openCosts, gross, net, wins, losses)
    }

    method Apply(order: ApprovedOrder, marketPrice: real, fee: real, slippageCost: real)
      requires order.quantity > 0.0
      modifies this
      ensures State() == Applied(old(State()), order.side, order.quantity, marketPrice, fee + slippageCost)
    {
      var signed := SignedFill(order.side, order.quantity);
      if quantity == 0.0 || SameSign(quantity, signed) {
        Open(signed, order.quantity, marketPrice, fee + slippageCost);
      } else {
        Close(signed, order.quantity, marketPrice, fee + slippageCost);
      }
    }

    /** The first half of the source's `apply`: a fill that opens or adds. */
    method Open(signed: real, filled: real, marketPrice: real, costs: real)
      requires quantity + signed != 0.0
      modifies this
      ensures State() == Opened(old(State()), signed, filled, marketPrice, costs)
    {
      var previous := Abs(quantity);
      var newQuantity := quantity + signed;
      averageEntry := AverageCost(previous, averageEntry, filled, marketPrice, Abs(newQuantity));
      quantity := newQuantity;
      openCosts := openCosts + costs;
    }

    /** The second half: a fill that closes, in part, exactly, or past zero. */
    method Close(signed: real, filled: real, marketPrice: real, costs: real)
      requires quantity != 0.0 && filled > 0.0
      modifies this
      ensures State() == Closed(old(State()), signed, filled, marketPrice, costs)
    {
      var previous := Abs(quantity);
      var closed := Min(previous, filled);
      var direction := if quantity > 0.0 then 1.0 else -1.0;
      var grossHere := GrossOn(closed, marketPrice, averageEntry, direction);
      var entryCosts := CostShare(openCosts, closed, previous);
      var exitCosts := CostShare(costs, closed, filled);
      var netHere := grossHere - entryCosts - exitCosts;
      gross := gross + grossHere;
      net := net + netHere;
      if netHere > QUANTITY_TOLERANCE {
        wins := wins + 1;
      } else if netHere < -QUANTITY_TOLERANCE {
        losses := losses + 1;
      }
      var remaining := quantity + signed;
      if NearZero(remaining) {
        quantity, averageEntry, openCosts := 0.0, 0.0, 0.0;
      } else if SameSign(remaining, quantity) {
        quantity := remaining;
        openCosts := openCosts - entryCosts;
      } else {
        var fraction := OpeningFraction(remaining, filled);
        quantity := remaining;
        averageEntry := marketPrice;
        openCosts := costs * fraction;
      }
    }
  }

  // ---- the books: account, round trips and running totals together ----

  datatype Fill = Fill(side: OrderSide, quantity: real, price: real)

  predicate ValidFill(f: Fill) { f.quantity > 0.0 && f.price > 0.0 }

  datatype Rates = Rates(feeBps: real, slippageBps: real)

  predicate ValidRates(r: Rates) { 0.0 <= r.feeBps <= BPS && 0.0 <= r.slippageBps <= BPS }

  datatype Books = Books(cash: real, held: real, trips: RoundTrips, fees: real, slippage: real)

  function PaidPrice(f: Fill, r: Rates): real
  {
    f.price * (1.0 + SignedFill(f.side, 1.0) * r.slippageBps / BPS)
  }

  function FeeOf(f: Fill, r: Rates): real { f.quantity * PaidPrice(f, r) * r.feeBps / BPS }

  function SlippageOf(f: Fill, r: Rates): real { f.quantity * Abs(PaidPrice(f, r) - f.price) }

  function CostsOfFill(f: Fill, r: Rates): real { FeeOf(f, r) + SlippageOf(f, r) }

  function CashMove(f: Fill, r: Rates): real
  {
    var notional := f.quantity * PaidPrice(f, r);
    if f.side.Buy? then -notional - FeeOf(f, r) else notional - FeeOf(f, r)
  }

  function Booked(b: Books, f: Fill, r: Rates): Books
    requires ValidFill(f)
  {
    Books(b.cash + CashMove(f, r),
          Snapped(b.held + SignedFill(f.side, f.quantity)),
          Applied(b.trips, f.side, f.quantity, f.price, CostsOfFill(f, r)),
          b.fees + FeeOf(f, r),
          b.slippage + SlippageOf(f, r))
  }

  function NewBooks(startingCash: real): Books { Books(startingCash, 0.0, NO_TRIPS, 0.0, 0.0) }

  /** Cash and open position at market cost, against starting cash and realized profit. */
  function Residual(b: Books, startingCash: real): real
  {
    b.cash + b.trips.quantity * b.trips.averageEntry + b.trips.openCosts - startingCash - b.trips.net
  }

  /** Costs charged to round trips, open or closed, against costs paid. */
  function CostResidual(b: Books): real
  {
    b.trips.gross - b.trips.net + b.trips.openCosts - b.fees - b.slippage
  }

  // ---- one fill ----

  /** A fill that closes all but a remainder too small to keep. */
  predicate Snaps(t: RoundTrips, f: Fill)
  {
    var signed := SignedFill(f.side, f.quantity);
    !Extends(t, signed) && NearZero(t.quantity + signed) && t.quantity + signed != 0.0
  }

  /** What a remainder is worth, and its share of the costs. */
  function Carried(remaining: real, value: real, costs: real, whole: real): real
    requires whole > 0.0
  {
    -(remaining * value) - costs * (Abs(remaining) / whole)
  }

  /** The value a snapped remainder carries out of the books. */
  function Drift(t: RoundTrips, f: Fill, costs: real): real
    requires ValidFill(f)
  {
    if !Snaps(t, f) then 0.0
    else
      var remaining := t.quantity + SignedFill(f.side, f.quantity);
      if Abs(t.quantity) >= f.quantity
      then Carried(remaining, t.averageEntry, t.openCosts, Abs(t.quantity))
      else Carried(remaining, f.price, costs, f.quantity)
  }

  /** The costs a snapped remainder carries out of the books. */
  function CostDrift(t: RoundTrips, f: Fill, costs: real): real
    requires ValidFill(f)
  {
    if !Snaps(t, f) then 0.0
    else
      var remaining := t.quantity + SignedFill(f.side, f.quantity);
      if Abs(t.quantity) >= f.quantity
      then -(t.openCosts * (Abs(remaining) / Abs(t.quantity)))
      else -(costs * (Abs(remaining) / f.quantity))
  }

  /** Slippage and fee are exactly what the fill costs beyond its market value. */
  lemma CashPaysMarketAndCosts(f: Fill, r: Rates)
    requires ValidFill(f) && ValidRates(r)
    ensures CashMove(f, r) == -(SignedFill(f.side, f.quantity) * f.price) - CostsOfFill(f, r)
    ensures SlippageOf(f, r) >= 0.0
  {
    var s := r.slippageBps / BPS;
    assert f.price * s >= 0.0;
    if f.side.Buy? {
      assert PaidPrice(f, r) - f.price == f.price * s;
    } else {
      assert PaidPrice(f, r) - f.price == -(f.price * s);
    }
    assert f.quantity * (PaidPrice(f, r) - f.price) == f.quantity * PaidPrice(f, r) - f.quantity * f.price;
  }

  lemma OpenedBalance(t: RoundTrips, signed: real, quantity: real, price: real, costs: real)
    requires quantity > 0.0 && Abs(signed) == quantity && Extends(t, signed)
    ensures t.quantity + signed != 0.0
    ensures var u := Opened(t, signed, quantity, price, costs);
      u.quantity * u.averageEntry == t.quantity * t.averageEntry + signed * price
  {
    var total := t.quantity + signed;
    var cost := Abs(t.quantity) * t.averageEntry + quantity * price;
    var average := cost / Abs(total);
    assert average * Abs(total) == cost;
    if total > 0.0 {
      assert Abs(t.quantity) == t.quantity && signed == quantity;
    } else {
      assert Abs(t.quantity) == -t.quantity && signed == -quantity;
      assert total * average == -(average * Abs(total));
    }
  }

  lemma Share(costs: real, part: real, whole: real)
    requires whole > 0.0
    ensures costs * part / whole == costs * (part / whole)
    ensures costs * whole / whole == costs
  {
  }

  lemma ShareSplit(costs: real, part: real, rest: real, whole: real)
    requires whole > 0.0 && part + rest == whole
    ensures costs * (part / whole) + costs * (rest / whole) == costs
  {
    assert part / whole + rest / whole == 1.0;
    assert costs * (part / whole) + costs * (rest / whole) == costs * (part / whole + rest / whole);
  }

  // ---- closing fills ----

  /** `signed` runs against the position, `d` is the position's direction. */
  ghost predicate Opposes(t: RoundTrips, signed: real, quantity: real, d: real)
  {
    && quantity > 0.0
    && (d == 1.0 || d == -1.0)
    && t.quantity != 0.0 && t.quantity == d * Abs(t.quantity) && signed == -(d * quantity)
  }

  lemma OppositeFill(t: RoundTrips, side: OrderSide, quantity: real) returns (d: real)
    requires quantity > 0.0 && !Extends(t, SignedFill(side, quantity))
    ensures Opposes(t, SignedFill(side, quantity), quantity, d)
  {
    d := if t.quantity > 0.0 then 1.0 else -1.0;
  }

  function NetOf(t: RoundTrips, closed: real, quantity: real, price: real, costs: real, d: real): real
    requires t.quantity != 0.0 && quantity > 0.0
  {
    GrossOn(closed, price, t.averageEntry, d) - CostShare(t.openCosts, closed, Abs(t.quantity)) - CostShare(costs, closed, quantity)
  }

  lemma DirectionIs(t: RoundTrips, signed: real, quantity: real, d: real)
    requires Opposes(t, signed, quantity, d)
    ensures d == if t.quantity > 0.0 then 1.0 else -1.0
  {
  }

  lemma ClosedMoves(t: RoundTrips, signed: real, quantity: real, price: real, costs: real, d: real)
    requires Opposes(t, signed, quantity, d)
    ensures var u := Closed(t, signed, quantity, price, costs);
      var closed := Min(Abs(t.quantity), quantity);
      && u.net == t.net + NetOf(t, closed, quantity, price, costs, d)
      && u.gross == t.gross + GrossOn(closed, price, t.averageEntry, d)
  {
    hide GrossOn, CostShare, OpeningFraction, NearZero, SameSign, Min;
    DirectionIs(t, signed, quantity, d);
  }

  lemma GrossSplits(closed: real, price: real, average: real, d: real)
    ensures GrossOn(closed, price, average, d) == closed * price * d - closed * average * d
  {
    assert closed * (price - average) == closed * price - closed * average;
  }

  /** Profit on the closed part: what came in, less what it cost, less both cost shares. */
  lemma PartialProfit(t: RoundTrips, quantity: real, price: real, costs: real, d: real)
    requires quantity > 0.0 && t.quantity != 0.0
    ensures NetOf(t, quantity, quantity, price, costs, d)
         == GrossOn(quantity, price, t.averageEntry, d) - t.openCosts * (quantity / Abs(t.quantity)) - costs
    ensures GrossOn(quantity, price, t.averageEntry, d) == quantity * price * d - quantity * t.averageEntry * d
  {
    GrossSplits(quantity, price, t.averageEntry, d);
    Share(t.openCosts, quantity, Abs(t.quantity));
    Share(costs, quantity, quantity);
  }

  lemma FullProfit(t: RoundTrips, quantity: real, price: real, costs: real, d: real)
    requires quantity > 0.0 && t.quantity != 0.0
    ensures var held := Abs(t.quantity);
      NetOf(t, held, quantity, price, costs, d)
        == GrossOn(held, price, t.averageEntry, d) - t.openCosts - costs * (held / quantity)
      && GrossOn(held, price, t.averageEntry, d) == held * price * d - held * t.averageEntry * d
  {
    GrossSplits(Abs(t.quantity), price, t.averageEntry, d);
    Share(t.openCosts, Abs(t.quantity), Abs(t.quantity));
    Share(costs, Abs(t.quantity), quantity);
  }

  /** How one application moves the first residual, given what the fill does to cash. */
  function Move(t: RoundTrips, u: RoundTrips, signed: real, price: real, costs: real): real
  {
    -(signed * price) - costs + u.quantity * u.averageEntry - t.quantity * t.averageEntry
    + u.openCosts - t.openCosts - (u.net - t.net)
  }

  function CostMove(t: RoundTrips, u: RoundTrips, costs: real): real
  {
    (u.gross - t.gross) - (u.net - t.net) + u.openCosts - t.openCosts - costs
  }

  lemma OpenedMoves(t: RoundTrips, signed: real, quantity: real, price: real, costs: real)
    requires quantity > 0.0 && Abs(signed) == quantity && Extends(t, signed)
    ensures t.quantity + signed != 0.0
    ensures var u := Opened(t, signed, quantity, price, costs);
      Move(t, u, signed, price, costs) == 0.0 && CostMove(t, u, costs) == 0.0
  {
    OpenedBalance(t, signed, quantity, price, costs);
  }

  /** Part of the position is closed and the rest is kept at its entry price. */
  lemma KeptMoves(t: RoundTrips, signed: real, quantity: real, price: real, costs: real, d: real)
    requires Opposes(t, signed, quantity, d) && !NearZero(t.quantity + signed) && SameSign(t.quantity + signed, t.quantity)
    ensures var u := Closed(t, signed, quantity, price, costs);
      Move(t, u, signed, price, costs) == 0.0 && CostMove(t, u, costs) == 0.0
  {
    var u := Closed(t, signed, quantity, price, costs);
    assert Min(Abs(t.quantity), quantity) == quantity;
    ClosedMoves(t, signed, quantity, price, costs, d);
    PartialProfit(t, quantity, price, costs, d);
    Share(t.openCosts, quantity, Abs(t.quantity));
    KeptArithmetic(t.quantity, signed, quantity, t.averageEntry, price, d);
  }

  lemma KeptArithmetic(held: real, signed: real, quantity: real, average: real, price: real, d: real)
    requires signed == -(d * quantity)
    ensures (held + signed) * average == held * average - quantity * average * d
    ensures -(signed * price) == quantity * price * d
  {
  }

  /** The position is closed past zero and reopened at the market price. */
  lemma FlippedMoves(t: RoundTrips, signed: real, quantity: real, price: real, costs: real, d: real)
    requires Opposes(t, signed, quantity, d) && !NearZero(t.quantity + signed) && !SameSign(t.quantity + signed, t.quantity)
    ensures var u := Closed(t, signed, quantity, price, costs);
      Move(t, u, signed, price, costs) == 0.0 && CostMove(t, u, costs) == 0.0
  {
    var held := Abs(t.quantity);
    var remaining := t.quantity + signed;
    assert quantity > held && Abs(remaining) == quantity - held;
    ClosedMoves(t, signed, quantity, price, costs, d);
    FullProfit(t, quantity, price, costs, d);
    ShareSplit(costs, held, Abs(remaining), quantity);
    FlippedArithmetic(t.quantity, held, signed, quantity, t.averageEntry, price, d);
  }

  lemma FlippedArithmetic(position: real, held: real, signed: real, quantity: real, average: real, price: real, d: real)
    requires signed == -(d * quantity) && position == d * held
    ensures (position + signed) * price == held * price * d - quantity * price * d
    ensures position * average == held * average * d
    ensures -(signed * price) == quantity * price * d
  {
  }

  lemma SnapsToNothing(t: RoundTrips, signed: real, quantity: real, price: real, costs: real)
    requires t.quantity != 0.0 && quantity > 0.0 && NearZero(t.quantity + signed)
    ensures var u := Closed(t, signed, quantity, price, costs);
      u.quantity == 0.0 && u.averageEntry == 0.0 && u.openCosts == 0.0
  {
    hide GrossOn, CostShare;
  }

  /** The position is closed but for a remainder of it that is thrown away. */
  lemma SnappedKeepMoves(t: RoundTrips, signed: real, quantity: real, price: real, costs: real, d: real)
    requires Opposes(t, signed, quantity, d) && NearZero(t.quantity + signed) && Abs(t.quantity) >= quantity
    ensures var u, held, remaining := Closed(t, signed, quantity, price, costs), Abs(t.quantity), t.quantity + signed;
      && Move(t, u, signed, price, costs) == Carried(remaining, t.averageEntry, t.openCosts, held)
      && CostMove(t, u, costs) == -(t.openCosts * (Abs(remaining) / held))
  {
    hide Closed, NetOf, GrossOn, CostShare;
    SnapsToNothing(t, signed, quantity, price, costs);
    var held, remaining := Abs(t.quantity), t.quantity + signed;
    assert Abs(remaining) == held - quantity;
    ClosedMoves(t, signed, quantity, price, costs, d);
    PartialProfit(t, quantity, price, costs, d);
    ShareSplit(t.openCosts, quantity, Abs(remaining), held);
    KeptArithmetic(t.quantity, signed, quantity, t.averageEntry, price, d);
  }

  /** The position is closed past zero, but what is past zero is thrown away. */
  lemma SnappedPastMoves(t: RoundTrips, signed: real, quantity: real, price: real, costs: real, d: real)
    requires Opposes(t, signed, quantity, d) && NearZero(t.quantity + signed) && Abs(t.quantity) < quantity
    ensures var u, remaining := Closed(t, signed, quantity, price, costs), t.quantity + signed;
      && Move(t, u, signed, price, costs) == Carried(remaining, price, costs, quantity)
      && CostMove(t, u, costs) == -(costs * (Abs(remaining) / quantity))
  {
    hide Closed, NetOf, GrossOn, CostShare;
    SnapsToNothing(t, signed, quantity, price, costs);
    var held, remaining := Abs(t.quantity), t.quantity + signed;
    assert Abs(remaining) == quantity - held;
    ClosedMoves(t, signed, quantity, price, costs, d);
    FullProfit(t, quantity, price, costs, d);
    ShareSplit(costs, held, Abs(remaining), quantity);
    FlippedArithmetic(t.quantity, held, signed, quantity, t.averageEntry, price, d);
  }

  lemma ExactCloseIsFree(average: real, costs: real, whole: real)
    requires whole > 0.0
    ensures Carried(0.0, average, costs, whole) == 0.0
  {
  }

  /** One application moves each residual by exactly its drift. */
  lemma AppliedMoves(t: RoundTrips, f: Fill, costs: real)
    requires ValidFill(f)
    ensures var signed := SignedFill(f.side, f.quantity);
      var u := Applied(t, f.side, f.quantity, f.price, costs);
      Move(t, u, signed, f.price, costs) == Drift(t, f, costs) && CostMove(t, u, costs) == CostDrift(t, f, costs)
  {
    var signed := SignedFill(f.side, f.quantity);
    if Extends(t, signed) {
      OpenedMoves(t, signed, f.quantity, f.price, costs);
    } else {
      ClosingMoves(t, f, costs);
    }
  }

  lemma ClosingMoves(t: RoundTrips, f: Fill, costs: real)
    requires ValidFill(f) && !Extends(t, SignedFill(f.side, f.quantity))
    ensures var signed := SignedFill(f.side, f.quantity);
      var u := Closed(t, signed, f.quantity, f.price, costs);
      Move(t, u, signed, f.price, costs) == Drift(t, f, costs) && CostMove(t, u, costs) == CostDrift(t, f, costs)
  {
    hide Closed, Move, CostMove, Opposes, Carried;
    var signed := SignedFill(f.side, f.quantity);
    var d := OppositeFill(t, f.side, f.quantity);
    var remaining := t.quantity + signed;
    if NearZero(remaining) {
      if Abs(t.quantity) >= f.quantity {
        SnappedKeepMoves(t, signed, f.quantity, f.price, costs, d);
        ExactCloseIsFree(t.averageEntry, t.openCosts, Abs(t.quantity));
      } else {
        SnappedPastMoves(t, signed, f.quantity, f.price, costs, d);
      }
    } else if SameSign(remaining, t.quantity) {
      KeptMoves(t, signed, f.quantity, f.price, costs, d);
    } else {
      FlippedMoves(t, signed, f.quantity, f.price, costs, d);
    }
  }

  // ---- every sequence of fills ----

  function RunBooks(b: Books, fills: seq<Fill>, r: Rates): Books
    requires forall f :: f in fills ==> ValidFill(f)
  {
    if fills == [] then b
    else Booked(RunBooks(b, fills[..|fills| - 1], r), fills[|fills| - 1], r)
  }

  function TotalDrift(b: Books, fills: seq<Fill>, r: Rates): real
    requires forall f :: f in fills ==> ValidFill(f)
  {
    if fills == [] then 0.0
    else
      var before, last := fills[..|fills| - 1], fills[|fills| - 1];
      TotalDrift(b, before, r) + Drift(RunBooks(b, before, r).trips, last, CostsOfFill(last, r))
  }

  function TotalCostDrift(b: Books, fills: seq<Fill>, r: Rates): real
    requires forall f :: f in fills ==> ValidFill(f)
  {
    if fills == [] then 0.0
    else
      var before, last := fills[..|fills| - 1], fills[|fills| - 1];
      TotalCostDrift(b, before, r) + CostDrift(RunBooks(b, before, r).trips, last, CostsOfFill(last, r))
  }

  lemma BookedMoves(b: Books, f: Fill, r: Rates, startingCash: real)
    requires ValidFill(f) && ValidRates(r)
    ensures Residual(Booked(b, f, r), startingCash)
         == Residual(b, startingCash) + Drift(b.trips, f, CostsOfFill(f, r))
    ensures CostResidual(Booked(b, f, r)) == CostResidual(b) + CostDrift(b.trips, f, CostsOfFill(f, r))
  {
    hide Drift, CostDrift, Applied, CashMove;
    CashPaysMarketAndCosts(f, r);
    AppliedMoves(b.trips, f, CostsOfFill(f, r));
  }

  /** Over every sequence of fills, of any size and on either side: cash plus the position at
      market cost plus open costs is starting cash plus realized profit, up to exactly what
      snapped remainders carried away; and likewise for the costs. */
  lemma {:induction false} ProfitIsConserved(startingCash: real, fills: seq<Fill>, r: Rates)
    requires ValidRates(r) && forall f :: f in fills ==> ValidFill(f)
    ensures Residual(RunBooks(NewBooks(startingCash), fills, r), startingCash)
         == TotalDrift(NewBooks(startingCash), fills, r)
    ensures CostResidual(RunBooks(NewBooks(startingCash), fills, r))
         == TotalCostDrift(NewBooks(startingCash), fills, r)
  {
    if fills != [] {
      var before, last := fills[..|fills| - 1], fills[|fills| - 1];
      ProfitIsConserved(startingCash, before, r);
      BookedMoves(RunBooks(NewBooks(startingCash), before, r), last, r, startingCash);
    }
  }

  /** The `k`th fill snaps a nonzero remainder. */
  predicate SnapsAt(b: Books, fills: seq<Fill>, r: Rates, k: nat)
    requires k < |fills| && forall f :: f in fills ==> ValidFill(f)
  {
    Snaps(RunBooks(b, fills[..k], r).trips, fills[k])
  }

  lemma {:induction false} NoSnapNoDrift(b: Books, fills: seq<Fill>, r: Rates)
    requires forall f :: f in fills ==> ValidFill(f)
    requires forall k :: 0 <= k < |fills| ==> !SnapsAt(b, fills, r, k)
    ensures TotalDrift(b, fills, r) == 0.0 && TotalCostDrift(b, fills, r) == 0.0
  {
    hide Booked, CostsOfFill, Extends, NearZero, ValidFill;
    if fills != [] {
      var n := |fills| - 1;
      forall k | 0 <= k < n
        ensures !SnapsAt(b, fills[..n], r, k)
      {
        assert fills[..n][..k] == fills[..k];
        assert !SnapsAt(b, fills, r, k);
      }
      NoSnapNoDrift(b, fills[..n], r);
      assert !SnapsAt(b, fills, r, n);
    }
  }

  /** Without snapped remainders both identities are exact. */
  lemma ConservedExactly(startingCash: real, fills: seq<Fill>, r: Rates)
    requires ValidRates(r) && forall f :: f in fills ==> ValidFill(f)
    requires forall k :: 0 <= k < |fills| ==> !SnapsAt(NewBooks(startingCash), fills, r, k)
    ensures var b := RunBooks(NewBooks(startingCash), fills, r);
      && b.cash + b.trips.quantity * b.trips.averageEntry + b.trips.openCosts == startingCash + b.trips.net
      && b.trips.gross - b.trips.net + b.trips.openCosts == b.fees + b.slippage
  {
    ProfitIsConserved(startingCash, fills, r);
    NoSnapNoDrift(NewBooks(startingCash), fills, r);
  }

  // ---- how large one drift can be ----

  lemma ScaledRemainder(x: real, value: real)
    requires Abs(x) <= QUANTITY_TOLERANCE
    ensures Abs(x * value) <= QUANTITY_TOLERANCE * Abs(value)
  {
    assert Abs(x * value) == Abs(x) * Abs(value);
    assert (QUANTITY_TOLERANCE - Abs(x)) * Abs(value) >= 0.0;
  }

  lemma ScaledShare(costs: real, part: real, whole: real)
    requires whole > 0.0 && 0.0 <= part <= QUANTITY_TOLERANCE
    ensures Abs(costs * (part / whole)) <= QUANTITY_TOLERANCE * (Abs(costs) / whole)
  {
    assert costs * (part / whole) == part * (costs / whole);
    ScaledRemainder(part, costs / whole);
    assert Abs(costs / whole) == Abs(costs) / whole;
  }

  /** The flat tolerance at a unit value and a unit cost. */
  function DriftBound(value: real, costs: real, whole: real): real
    requires whole > 0.0
  {
    QUANTITY_TOLERANCE * Abs(value) + QUANTITY_TOLERANCE * (Abs(costs) / whole)
  }

  lemma RemainderAndShare(drift: real, remaining: real, value: real, costs: real, whole: real)
    requires whole > 0.0 && Abs(remaining) <= QUANTITY_TOLERANCE
    requires drift == Carried(remaining, value, costs, whole)
    ensures Abs(drift) <= DriftBound(value, costs, whole)
  {
    var x, y := remaining * value, costs * (Abs(remaining) / whole);
    ScaledRemainder(remaining, value);
    ScaledShare(costs, Abs(remaining), whole);
    TwoParts(drift, x, y, QUANTITY_TOLERANCE * Abs(value), QUANTITY_TOLERANCE * (Abs(costs) / whole));
  }

  /** The flat tolerance at a unit cost. */
  function CostBound(costs: real, whole: real): real
    requires whole > 0.0
  {
    QUANTITY_TOLERANCE * (Abs(costs) / whole)
  }

  lemma ShareOfRemainder(drift: real, remaining: real, costs: real, whole: real)
    requires whole > 0.0 && Abs(remaining) <= QUANTITY_TOLERANCE
    requires drift == -(costs * (Abs(remaining) / whole))
    ensures Abs(drift) <= CostBound(costs, whole)
  {
    ScaledShare(costs, Abs(remaining), whole);
  }

  lemma NoCostDrift(drift: real, costs: real, whole: real)
    requires whole > 0.0 && drift == 0.0
    ensures Abs(drift) <= CostBound(costs, whole)
  {
    assert Abs(costs) / whole >= 0.0;
  }

  lemma TwoParts(drift: real, x: real, y: real, boundX: real, boundY: real)
    requires drift == -x - y && Abs(x) <= boundX && Abs(y) <= boundY
    ensures Abs(drift) <= boundX + boundY
  {
  }

  lemma NoDrift(drift: real, value: real, costs: real, whole: real)
    requires whole > 0.0 && drift == 0.0
    ensures Abs(drift) <= DriftBound(value, costs, whole)
  {
    assert Abs(costs) / whole >= 0.0;
  }

  lemma DriftShape(t: RoundTrips, f: Fill, costs: real)
    requires ValidFill(f) && t.quantity != 0.0
    ensures Abs(t.quantity) > 0.0
    ensures var remaining := t.quantity + SignedFill(f.side, f.quantity);
      && (!Snaps(t, f) ==> Drift(t, f, costs) == 0.0)
      && (Snaps(t, f) ==> Abs(remaining) <= QUANTITY_TOLERANCE)
      && (Snaps(t, f) && Abs(t.quantity) >= f.quantity ==>
            Drift(t, f, costs) == Carried(remaining, t.averageEntry, t.openCosts, Abs(t.quantity)))
      && (Snaps(t, f) && Abs(t.quantity) < f.quantity ==>
            Drift(t, f, costs) == Carried(remaining, f.price, costs, f.quantity))
  {
  }

  lemma CostDriftShape(t: RoundTrips, f: Fill, costs: real)
    requires ValidFill(f) && t.quantity != 0.0
    ensures Abs(t.quantity) > 0.0
    ensures var remaining := t.quantity + SignedFill(f.side, f.quantity);
      && (!Snaps(t, f) ==> CostDrift(t, f, costs) == 0.0)
      && (Snaps(t, f) && Abs(t.quantity) >= f.quantity ==>
            CostDrift(t, f, costs) == -(t.openCosts * (Abs(remaining) / Abs(t.quantity))))
      && (Snaps(t, f) && Abs(t.quantity) < f.quantity ==>
            CostDrift(t, f, costs) == -(costs * (Abs(remaining) / f.quantity)))
  {
  }

  lemma QuantityIsPositive(f: Fill)
    requires ValidFill(f)
    ensures f.quantity > 0.0
  {
  }

  /** A snapped fill that leaves part of the position moves the first identity by at most the
      flat tolerance times that part's entry price and unit cost, and the second by at most the
      tolerance times the unit cost. */
  lemma KeptDriftIsSmall(t: RoundTrips, f: Fill, costs: real)
    requires ValidFill(f) && t.quantity != 0.0 && Abs(t.quantity) >= f.quantity
    ensures Abs(t.quantity) > 0.0 && Abs(Drift(t, f, costs)) <= DriftBound(t.averageEntry, t.openCosts, Abs(t.quantity))
    ensures Abs(CostDrift(t, f, costs)) <= CostBound(t.openCosts, Abs(t.quantity))
  {
    hide *;
    DriftShape(t, f, costs);
    CostDriftShape(t, f, costs);
    var remaining := t.quantity + SignedFill(f.side, f.quantity);
    if Snaps(t, f) {
      RemainderAndShare(Drift(t, f, costs), remaining, t.averageEntry, t.openCosts, Abs(t.quantity));
      ShareOfRemainder(CostDrift(t, f, costs), remaining, t.openCosts, Abs(t.quantity));
    } else {
      NoCostDrift(CostDrift(t, f, costs), t.openCosts, Abs(t.quantity));
      NoDrift(Drift(t, f, costs), t.averageEntry, t.openCosts, Abs(t.quantity));
    }
  }

  /** The same for a snapped fill past zero, with the fill's own price and unit cost. */
  lemma PastDriftIsSmall(t: RoundTrips, f: Fill, costs: real)
    requires ValidFill(f) && t.quantity != 0.0 && Abs(t.quantity) < f.quantity
    ensures Abs(Drift(t, f, costs)) <= DriftBound(f.price, costs, f.quantity)
    ensures Abs(CostDrift(t, f, costs)) <= CostBound(costs, f.quantity)
  {
    hide *;
    QuantityIsPositive(f);
    DriftShape(t, f, costs);
    CostDriftShape(t, f, costs);
    var remaining := t.quantity + SignedFill(f.side, f.quantity);
    if Snaps(t, f) {
      RemainderAndShare(Drift(t, f, costs), remaining, f.price, costs, f.quantity);
      ShareOfRemainder(CostDrift(t, f, costs), remaining, costs, f.quantity);
    } else {
      NoCostDrift(CostDrift(t, f, costs), costs, f.quantity);
      NoDrift(Drift(t, f, costs), f.price, costs, f.quantity);
    }
  }

  // ---- the account's quantity and the round trips' ----

  /** A fill out of a flat position that is too small for the account to keep. */
  predicate DustOpen(t: RoundTrips, f: Fill) { t.quantity == 0.0 && f.quantity <= QUANTITY_TOLERANCE }

  ghost predicate InStep(b: Books)
  {
    b.held == b.trips.quantity && (b.held == 0.0 || Abs(b.held) > QUANTITY_TOLERANCE)
  }

  predicate DustAt(b: Books, fills: seq<Fill>, r: Rates, k: nat)
    requires k < |fills| && forall f :: f in fills ==> ValidFill(f)
  {
    DustOpen(RunBooks(b, fills[..k], r).trips, fills[k])
  }

  lemma AppliedQuantity(t: RoundTrips, f: Fill, costs: real)
    requires ValidFill(f)
    ensures var raw := t.quantity + SignedFill(f.side, f.quantity);
      Applied(t, f.side, f.quantity, f.price, costs).quantity ==
        if Extends(t, SignedFill(f.side, f.quantity)) then raw else Snapped(raw)
  {
  }

  /** One fill keeps account and round trips in step unless it is a dust opening, and a dust
      opening always parts them. */
  lemma StaysInStep(b: Books, f: Fill, r: Rates)
    requires ValidFill(f) && InStep(b)
    ensures InStep(Booked(b, f, r)) <==> !DustOpen(b.trips, f)
    ensures DustOpen(b.trips, f) ==> Booked(b, f, r).held != Booked(b, f, r).trips.quantity
  {
    hide Applied;
    AppliedQuantity(b.trips, f, CostsOfFill(f, r));
  }

  lemma {:induction false} InStepWithoutDust(startingCash: real, fills: seq<Fill>, r: Rates, n: nat)
    requires n <= |fills| && forall f :: f in fills ==> ValidFill(f)
    requires forall k :: 0 <= k < n ==> !DustAt(NewBooks(startingCash), fills, r, k)
    ensures InStep(RunBooks(NewBooks(startingCash), fills[..n], r))
  {
    if n > 0 {
      InStepWithoutDust(startingCash, fills, r, n - 1);
      assert !DustAt(NewBooks(startingCash), fills, r, n - 1);
      assert fills[..n][..n - 1] == fills[..n - 1];
      StaysInStep(RunBooks(NewBooks(startingCash), fills[..n - 1], r), fills[n - 1], r);
    }
  }

  lemma {:induction false} FirstDust(startingCash: real, fills: seq<Fill>, r: Rates, n: nat) returns (k: nat)
    requires n <= |fills| && forall f :: f in fills ==> ValidFill(f)
    requires exists i :: 0 <= i < n && DustAt(NewBooks(startingCash), fills, r, i)
    ensures k < n && DustAt(NewBooks(startingCash), fills, r, k)
    ensures forall i :: 0 <= i < k ==> !DustAt(NewBooks(startingCash), fills, r, i)
  {
    if exists i :: 0 <= i < n - 1 && DustAt(NewBooks(startingCash), fills, r, i) {
      k := FirstDust(startingCash, fills, r, n - 1);
    } else {
      k := n - 1;
    }
  }

  /** The account holds what the round trips say after every fill, exactly when no fill opens a
      position too small to keep. */
  lemma QuantitiesAgree(startingCash: real, fills: seq<Fill>, r: Rates)
    requires forall f :: f in fills ==> ValidFill(f)
    ensures (forall n :: 0 <= n <= |fills| ==>
               RunBooks(NewBooks(startingCash), fills[..n], r).held == RunBooks(NewBooks(startingCash), fills[..n], r).trips.quantity)
       <==> (forall k :: 0 <= k < |fills| ==> !DustAt(NewBooks(startingCash), fills, r, k))
  {
    var b := NewBooks(startingCash);
    if forall k :: 0 <= k < |fills| ==> !DustAt(b, fills, r, k) {
      forall n | 0 <= n <= |fills|
        ensures RunBooks(b, fills[..n], r).held == RunBooks(b, fills[..n], r).trips.quantity
      {
        InStepWithoutDust(startingCash, fills, r, n);
      }
    } else {
      var k := FirstDust(startingCash, fills, r, |fills|);
      InStepWithoutDust(startingCash, fills, r, k);
      StaysInStep(RunBooks(b, fills[..k], r), fills[k], r);
      assert fills[..k + 1][..k] == fills[..k];
      assert RunBooks(b, fills[..k + 1], r) == Booked(RunBooks(b, fills[..k], r), fills[k], r);
    }
  }

  /** There are such fills: a first buy of at most the flat tolerance leaves the account flat and the
      round trips open. */
  lemma DustOpeningParts(startingCash: real, quantity: real, price: real, r: Rates)
    requires 0.0 < quantity <= QUANTITY_TOLERANCE && price > 0.0
    ensures var b := RunBooks(NewBooks(startingCash), [Fill(Buy, quantity, price)], r);
      b.held == 0.0 && b.trips.quantity == quantity
  {
    var fills := [Fill(Buy, quantity, price)];
    assert fills[..0] == [];
    AppliedQuantity(NO_TRIPS, fills[0], CostsOfFill(fills[0], r));
  }

  // ---- flat books ----

  ghost predicate NothingOpen(t: RoundTrips) { t.quantity == 0.0 ==> t.openCosts == 0.0 }

  lemma ApplyingKeepsNothingOpen(t: RoundTrips, f: Fill, costs: real)
    requires ValidFill(f)
    ensures NothingOpen(Applied(t, f.side, f.quantity, f.price, costs))
  {
  }

  lemma {:induction false} FlatHasNoOpenCosts(startingCash: real, fills: seq<Fill>, r: Rates)
    requires forall f :: f in fills ==> ValidFill(f)
    ensures NothingOpen(RunBooks(NewBooks(startingCash), fills, r).trips)
  {
    if fills != [] {
      var before, last := fills[..|fills| - 1], fills[|fills| - 1];
      ApplyingKeepsNothingOpen(RunBooks(NewBooks(startingCash), before, r).trips, last, CostsOfFill(last, r));
    }
  }

  /** Flat books, reached without snapped remainders or dust openings, have turned starting cash
      plus realized profit into cash, and charged every cost to a round trip. */
  lemma FlatBooksBalance(startingCash: real, fills: seq<Fill>, r: Rates)
    requires ValidRates(r) && forall f :: f in fills ==> ValidFill(f)
    requires forall k :: 0 <= k < |fills| ==>
      !SnapsAt(NewBooks(startingCash), fills, r, k) && !DustAt(NewBooks(startingCash), fills, r, k)
    requires RunBooks(NewBooks(startingCash), fills, r).held == 0.0
    ensures var b := RunBooks(NewBooks(startingCash), fills, r);
      b.cash == startingCash + b.trips.net && b.trips.gross - b.trips.net == b.fees + b.slippage
  {
    hide RunBooks, SnapsAt, DustAt, ValidFill, ValidRates;
    ConservedExactly(startingCash, fills, r);
    FlatHasNoOpenCosts(startingCash, fills, r);
    InStepWithoutDust(startingCash, fills, r, |fills|);
    assert fills[..|fills|] == fills;
    NothingHeld(RunBooks(NewBooks(startingCash), fills, r));
  }

  lemma NothingHeld(b: Books)
    requires InStep(b) && NothingOpen(b.trips) && b.held == 0.0
    ensures b.trips.quantity * b.trips.averageEntry == 0.0 && b.trips.openCosts == 0.0
  {
  }
}
