/** The paper broker: an account that fills approved orders at the next bar's opening price. */
module Paper {
  import opened Sequences
  import opened Trading

  datatype PaperPosition = PaperPosition(quantity: real, averageEntry: real, mark: real, markObservedAt: int)

  datatype Account = Account(
    cash: real,
    positions: map<int, PaperPosition>,
    valuedAt: int,
    processed: set<AuthorizationId>,
    feeBps: real,
    slippageBps: real)

  predicate ValidPaperPosition(p: PaperPosition)
  {
    p.quantity != 0.0 && p.averageEntry > 0.0 && p.mark > 0.0
  }

  /** What every account keeps: positions above the flat tolerance, with positive prices. */
  ghost predicate ValidAccount(a: Account)
  {
    && 0.0 <= a.feeBps <= BPS && 0.0 <= a.slippageBps <= BPS
    && (forall s :: s in a.positions ==>
          ValidPaperPosition(a.positions[s]) && Abs(a.positions[s].quantity) > QUANTITY_TOLERANCE)
  }

  function PublicPositions(positions: map<int, PaperPosition>, symbols: seq<int>): (r: seq<Position>)
    requires forall i :: 0 <= i < |symbols| ==> symbols[i] in positions
    ensures |r| == |symbols|
  {
    if symbols == [] then []
    else
      var p := positions[symbols[0]];
      [Position(symbols[0], p.quantity, p.averageEntry, p.mark, p.markObservedAt)]
      + PublicPositions(positions, symbols[1..])
  }

  /** The public state, sorted by symbol; `None` when a position breaks its contract. */
  function BuildState(cash: real, positions: map<int, PaperPosition>, valuedAt: int): Option<Portfolio>
  {
    if exists s :: s in positions && !ValidPaperPosition(positions[s]) then None
    else
      var symbols := SortedInts(positions.Keys);
      assert forall i :: 0 <= i < |symbols| ==> symbols[i] in symbols;
      var visible := PublicPositions(positions, symbols);
      Some(Portfolio(cash, cash + SumNotional(visible), valuedAt, visible))
  }

  function CurrentQuantity(a: Account, symbol: int): real
  {
    if symbol in a.positions then a.positions[symbol].quantity else 0.0
  }

  function RejectionReason(a: Account, order: ApprovedOrder, opening: OpeningPrice, submittedAt: int): Option<Rejection>
  {
    if order.authorization in a.processed then Some(DuplicateAuthorization)
    else if order.symbol != opening.symbol || order.timeframe != opening.timeframe then Some(OpeningMismatch)
    else if submittedAt < order.authorizedAt then Some(SubmittedEarly)
    else if submittedAt > opening.barOpenedAt then Some(Retroactive)
    else if opening.observedAt != opening.barOpenedAt then Some(NotObservedAtOpen)
    else if opening.barOpenedAt < order.earliestFillAt then Some(BeforeWindow)
    else if opening.barOpenedAt > order.expiresAt then Some(AuthorizationExpired)
    else if opening.barOpenedAt < a.valuedAt then Some(BeforeAccountTime)
    else None
  }

  function AverageEntry(current: Option<PaperPosition>, signedFill: real, fillPrice: real, newQuantity: real): real
    requires newQuantity != 0.0
  {
    if current.None? || SameSign(current.value.quantity, signedFill) then
      var existing := if current.None? then 0.0 else Abs(current.value.quantity);
      var cost := if current.None? then 0.0 else existing * current.value.averageEntry;
      (cost + Abs(signedFill) * fillPrice) / Abs(newQuantity)
    else if SameSign(current.value.quantity, newQuantity) then current.value.averageEntry
    else fillPrice
  }

  function FillPrice(a: Account, order: ApprovedOrder, opening: OpeningPrice): real
  {
    opening.price * (1.0 + SignedFill(order.side, 1.0) * a.slippageBps / BPS)
  }

  function AdverseSlippage(side: OrderSide, fillPrice: real, reference: real): real
    requires reference != 0.0
  {
    Max(0.0, SignedFill(side, 1.0) * (fillPrice / reference - 1.0) * BPS)
  }

  function FillFee(a: Account, order: ApprovedOrder, fillPrice: real): real
  {
    order.quantity * fillPrice * a.feeBps / BPS
  }

  function CashAfter(a: Account, order: ApprovedOrder, fillPrice: real): real
  {
    var notional, fee := order.quantity * fillPrice, FillFee(a, order, fillPrice);
    a.cash + (if order.side.Buy? then -notional - fee else notional - fee)
  }

  function NewQuantity(a: Account, order: ApprovedOrder): real
  {
    Snapped(CurrentQuantity(a, order.symbol) + SignedFill(order.side, order.quantity))
  }

  function PositionsAfter(a: Account, order: ApprovedOrder, opening: OpeningPrice, fillPrice: real): map<int, PaperPosition>
  {
    var quantity := NewQuantity(a, order);
    if quantity == 0.0 then a.positions - {order.symbol}
    else
      var current := if order.symbol in a.positions then Some(a.positions[order.symbol]) else None;
      var entry := AverageEntry(current, SignedFill(order.side, order.quantity), fillPrice, quantity);
      a.positions[order.symbol := PaperPosition(quantity, entry, opening.price, opening.observedAt)]
  }

  /** `None` stands for a validation error raised before anything was committed. */
  datatype Execution = Execution(account: Account, report: Option<ExecutionReport>)

  function RejectedReport(order: ApprovedOrder, submittedAt: int, reason: Rejection): ExecutionReport
  {
    ExecutionReport(order.authorization, order.symbol, order.side, order.quantity, submittedAt, Rejected(reason), 0.0, 0.0)
  }

  function Executed(a: Account, order: ApprovedOrder, opening: OpeningPrice, submittedAt: int): Execution
    requires order.referencePrice > 0.0
  {
    var reason := RejectionReason(a, order, opening, submittedAt);
    var fillPrice := FillPrice(a, order, opening);
    var adverse := AdverseSlippage(order.side, fillPrice, order.referencePrice);
    if reason.Some? then Execution(a, Some(RejectedReport(order, submittedAt, reason.value)))
    else if adverse > order.maxSlippageBps + NOTIONAL_TOLERANCE then
      Execution(a, Some(RejectedReport(order, submittedAt, SlippageExceeded)))
    else if a.feeBps > order.maxFeeBps + NOTIONAL_TOLERANCE then
      Execution(a, Some(RejectedReport(order, submittedAt, FeeExceeded)))
    else if CashAfter(a, order, fillPrice) < 0.0 && !order.reduceOnly then
      Execution(a, Some(RejectedReport(order, submittedAt, InsufficientCash)))
    else if order.reduceOnly && !StrictlyReduces(CurrentQuantity(a, order.symbol), NewQuantity(a, order)) then
      Execution(a, Some(RejectedReport(order, submittedAt, NotReducing)))
    else
      var positions := PositionsAfter(a, order, opening, fillPrice);
      if BuildState(CashAfter(a, order, fillPrice), positions, opening.barOpenedAt).None? || fillPrice <= 0.0 then
        Execution(a, None)
      else
        Execution(
          a.(cash := CashAfter(a, order, fillPrice), positions := positions, valuedAt := opening.barOpenedAt,
             processed := a.processed + {order.authorization}),
          Some(ExecutionReport(
            order.authorization, order.symbol, order.side, order.quantity, submittedAt,
            Filled(opening.barOpenedAt, fillPrice), FillFee(a, order, fillPrice), adverse)))
  }

  // ---- marking ----

  function MarkedPosition(p: PaperPosition, o: PriceObservation): PaperPosition
  {
    p.(mark := o.price, markObservedAt := o.observedAt)
  }

  function ObservationOf(observations: seq<PriceObservation>, symbol: int): (r: Option<PriceObservation>)
    ensures r.Some? ==> r.value in observations && r.value.symbol == symbol
    ensures r.None? ==> forall o :: o in observations ==> o.symbol != symbol
  {
    if observations == [] then None
    else if observations[0].symbol == symbol then Some(observations[0])
    else ObservationOf(observations[1..], symbol)
  }

  predicate DistinctSymbols(observations: seq<PriceObservation>)
  {
    forall i, j :: 0 <= i < j < |observations| ==> observations[i].symbol != observations[j].symbol
  }

  predicate CanMark(a: Account, observations: seq<PriceObservation>, valuedAt: int)
  {
    && valuedAt >= a.valuedAt
    && DistinctSymbols(observations)
    && (forall s :: s in a.positions ==>
          ObservationOf(observations, s).Some? && ObservationOf(observations, s).value.observedAt <= valuedAt)
  }

  function Marked(a: Account, observations: seq<PriceObservation>, valuedAt: int): Account
    requires CanMark(a, observations, valuedAt)
  {
    a.(positions := map s | s in a.positions :: MarkedPosition(a.positions[s], ObservationOf(observations, s).value),
       valuedAt := valuedAt)
  }

  lemma NotMarkable(a: Account, observations: seq<PriceObservation>, at: int, s: int)
    requires s in a.positions
    requires ObservationOf(observations, s).None? || ObservationOf(observations, s).value.observedAt > at
    ensures !CanMark(a, observations, at)
  {
  }

  /** Every position marked, the marking is done, and the account it leaves is valid. */
  lemma MarkingIsComplete(a: Account, observations: seq<PriceObservation>, at: int, candidate: map<int, PaperPosition>)
    requires ValidAccount(a) && DistinctSymbols(observations) && at >= a.valuedAt
    requires forall o :: o in observations ==> o.price > 0.0
    requires candidate.Keys == a.positions.Keys
    requires forall s :: s in a.positions ==>
      && ObservationOf(observations, s).Some? && ObservationOf(observations, s).value.observedAt <= at
      && candidate[s] == MarkedPosition(a.positions[s], ObservationOf(observations, s).value)
    ensures CanMark(a, observations, at)
    ensures a.(positions := candidate, valuedAt := at) == Marked(a, observations, at)
    ensures ValidAccount(Marked(a, observations, at))
  {
    hide ObservationOf, DistinctSymbols;
    assert candidate == Marked(a, observations, at).positions;
    forall s | s in candidate
      ensures ValidPaperPosition(candidate[s]) && Abs(candidate[s].quantity) > QUANTITY_TOLERANCE
    {
      assert ObservationOf(observations, s).value in observations;
    }
  }

  // ---- the broker itself ----

  class PaperExecutionAdapter {
    var cash: real
    var positions: map<int, PaperPosition>
    var valuedAt: int
    var processed: set<AuthorizationId>
    const feeBps: real
    const slippageBps: real

    constructor (startingCash: real, openedAt: int, slippageBps: real, feeBps: real)
      requires startingCash > 0.0 && 0.0 <= slippageBps <= BPS && 0.0 <= feeBps <= BPS
      ensures State() == Account(startingCash, map[], openedAt, {}, feeBps, slippageBps)
      ensures ValidAccount(State())
    {
      this.cash, this.positions, this.valuedAt, this.processed := startingCash, map[], openedAt, {};
      this.slippageBps, this.feeBps := slippageBps, feeBps;
    }

    function State(): Account
      reads this
    {
      Account(cash, positions, valuedAt, processed, feeBps, slippageBps)
    }

    function CostBounds(): CostBounds
    {
      Trading.CostBounds.CostBounds(feeBps, slippageBps)
    }

    /** Rejections and validation errors leave the account exactly as it was. */
    method Execute(order: ApprovedOrder, opening: OpeningPrice, submittedAt: int)
      returns (report: Option<ExecutionReport>)
      requires order.referencePrice > 0.0
      modifies this
      ensures Execution(State(), report) == Executed(old(State()), order, opening, submittedAt)
    {
      hide FillPrice, AdverseSlippage, FillFee, CashAfter, NewQuantity, PositionsAfter, BuildState, RejectionReason, StrictlyReduces,
           CurrentQuantity;
      var reason := RejectionReason(State(), order, opening, submittedAt);
      if reason.Some? {
        return Some(RejectedReport(order, submittedAt, reason.value));
      }
      var fillPrice := FillPrice(State(), order, opening);
      var adverse := AdverseSlippage(order.side, fillPrice, order.referencePrice);
      if adverse > order.maxSlippageBps + NOTIONAL_TOLERANCE {
        return Some(RejectedReport(order, submittedAt, SlippageExceeded));
      }
      var fee := FillFee(State(), order, fillPrice);
      if feeBps > order.maxFeeBps + NOTIONAL_TOLERANCE {
        return Some(RejectedReport(order, submittedAt, FeeExceeded));
      }
      var candidateCash := CashAfter(State(), order, fillPrice);
      if candidateCash < 0.0 && !order.reduceOnly {
        return Some(RejectedReport(order, submittedAt, InsufficientCash));
      }
      var newQuantity := NewQuantity(State(), order);
      if order.reduceOnly && !StrictlyReduces(CurrentQuantity(State(), order.symbol), newQuantity) {
        return Some(RejectedReport(order, submittedAt, NotReducing));
      }
      var candidate := Candidate(order, opening, fillPrice, newQuantity);
      var built := BuildState(candidateCash, candidate, opening.barOpenedAt);
      if built.None? || fillPrice <= 0.0 {
        return None;
      }
      cash := candidateCash;
      positions := candidate;
      valuedAt := opening.barOpenedAt;
      processed := processed + {order.authorization};
      return Some(ExecutionReport(
        order.authorization, order.symbol, order.side, order.quantity, submittedAt,
        Filled(opening.barOpenedAt, fillPrice), fee, adverse));
    }

    /** The positions a fill would leave, worked out on a copy. */
    method Candidate(order: ApprovedOrder, opening: OpeningPrice, fillPrice: real, newQuantity: real)
      returns (candidate: map<int, PaperPosition>)
      requires newQuantity == NewQuantity(State(), order)
      ensures candidate == PositionsAfter(State(), order, opening, fillPrice)
    {
      hide AverageEntry, NewQuantity;
      candidate := positions;
      var current := if order.symbol in positions then Some(positions[order.symbol]) else None;
      if newQuantity == 0.0 {
        candidate := candidate - {order.symbol};
      } else {
        var entry := AverageEntry(current, SignedFill(order.side, order.quantity), fillPrice, newQuantity);
        candidate := candidate[order.symbol := PaperPosition(newQuantity, entry, opening.price, opening.observedAt)];
      }
    }

    /** `ok` is false when the source raises; nothing is committed then. */
    method MarkToMarket(observations: seq<PriceObservation>, at: int)
      returns (ok: bool)
      requires ValidAccount(State())
      requires forall o :: o in observations ==> o.price > 0.0
      modifies this
      ensures ok == CanMark(old(State()), observations, at)
      ensures ok ==> State() == Marked(old(State()), observations, at) && ValidAccount(State())
      ensures !ok ==> State() == old(State())
    {
      if at < valuedAt || !DistinctSymbols(observations) {
        return false;
      }
      if exists s :: s in positions && ObservationOf(observations, s).None? {
        var s :| s in positions && ObservationOf(observations, s).None?;
        NotMarkable(State(), observations, at, s);
        return false;
      }
      hide MarkedPosition, ValidPaperPosition, DistinctSymbols, ObservationOf, Marked, CanMark;
      var candidate := MarkLoop(observations, at);
      if candidate.None? {
        return false;
      }
      MarkingIsComplete(State(), observations, at, candidate.value);
      positions := candidate.value;
      valuedAt := at;
      return true;
    }

    /** The loop of the source's `mark_to_market` over a copy of the positions. */
    method MarkLoop(observations: seq<PriceObservation>, at: int)
      returns (candidate: Option<map<int, PaperPosition>>)
      requires forall s :: s in positions ==> ObservationOf(observations, s).Some?
      ensures candidate.None? ==> !CanMark(State(), observations, at)
      ensures candidate.Some? ==> candidate.value.Keys == positions.Keys
      ensures candidate.Some? ==> forall s :: s in positions ==>
        && ObservationOf(observations, s).value.observedAt <= at
        && candidate.value[s] == MarkedPosition(positions[s], ObservationOf(observations, s).value)
    {
      hide MarkedPosition, ObservationOf, CanMark;
      var marked := positions;
      var remaining := positions.Keys;
      while remaining != {}
        invariant remaining <= positions.Keys == marked.Keys
        invariant forall s :: s in remaining ==> marked[s] == positions[s]
        invariant forall s :: s in positions && s !in remaining ==>
          && ObservationOf(observations, s).value.observedAt <= at
          && marked[s] == MarkedPosition(positions[s], ObservationOf(observations, s).value)
        decreases |remaining|
      {
        MemberOf(remaining);
        var symbol :| symbol in remaining;
        var observation := ObservationOf(observations, symbol).value;
        if observation.observedAt > at {
          NotMarkable(State(), observations, at, symbol);
          return None;
        }
        marked := marked[symbol := MarkedPosition(marked[symbol], observation)];
        remaining := remaining - {symbol};
      }
      return Some(marked);
    }
  }

  // ---- what every operation keeps ----

  lemma AverageEntryPositive(current: Option<PaperPosition>, signedFill: real, fillPrice: real, newQuantity: real)
    requires newQuantity != 0.0 && signedFill != 0.0 && fillPrice > 0.0
    requires current.Some? ==> current.value.averageEntry > 0.0
    ensures AverageEntry(current, signedFill, fillPrice, newQuantity) > 0.0
  {
    if current.None? || SameSign(current.value.quantity, signedFill) {
      var existing := if current.None? then 0.0 else Abs(current.value.quantity);
      var cost := if current.None? then 0.0 else existing * current.value.averageEntry;
      assert cost >= 0.0;
      assert Abs(signedFill) * fillPrice > 0.0;
      PositiveQuotient(cost + Abs(signedFill) * fillPrice, Abs(newQuantity));
    }
  }

  lemma PositiveQuotient(x: real, y: real)
    requires x > 0.0 && y > 0.0
    ensures x / y > 0.0
  {
  }

  /** An account stays valid whatever is executed against it, filled or not, and only a fill
      changes it. */
  lemma ExecutionKeepsAccount(a: Account, order: ApprovedOrder, opening: OpeningPrice, submittedAt: int)
    requires ValidAccount(a) && order.referencePrice > 0.0
    ensures var e := Executed(a, order, opening, submittedAt);
      && ValidAccount(e.account)
      && (e.report.None? || e.report.value.outcome.Rejected? ==> e.account == a)
  {
    var e := Executed(a, order, opening, submittedAt);
    if e.report.Some? && e.report.value.outcome.Filled? {
      forall s | s in e.account.positions
        ensures ValidPaperPosition(e.account.positions[s]) && Abs(e.account.positions[s].quantity) > QUANTITY_TOLERANCE
      {
        if s != order.symbol {
          assert e.account.positions[s] == a.positions[s];
        }
      }
    }
  }
}
