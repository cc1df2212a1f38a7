/** The records exchanged by council, governor, paper broker and replay engine. Prices,
    quantities and cash are reals, times are integer ticks, and the hashed identities of the
    source are structural identifiers: equal exactly when the hashed material is equal. */
module Trading {
  import opened Sequences

  const QUANTITY_TOLERANCE: real := 0.000000000001
  const NOTIONAL_TOLERANCE: real := 0.000000001
  const EXPOSURE_TOLERANCE: real := 0.000000000001
  const BPS: real := 10000.0

  datatype OrderSide = Buy | Sell
  datatype Direction = Short | Flat | Long
  datatype ActionIntent = TargetExposure | Abstain | NoAction | ReduceOnly
  datatype SignalType = Alpha | VolatilityType | Regime
  datatype SignalValidity = ValidSignal | InsufficientSignal | InvalidSignal

  datatype Bar = Bar(
    openedAt: int, closedAt: int, availableAt: int,
    open: real, high: real, low: real, close: real, volume: real)

  predicate ValidBar(b: Bar)
  {
    && b.openedAt < b.closedAt <= b.availableAt
    && b.open > 0.0 && b.high > 0.0 && b.low > 0.0 && b.close > 0.0 && b.volume >= 0.0
    && b.low <= b.open <= b.high && b.low <= b.close <= b.high
  }

  predicate OpensBefore(x: Bar, y: Bar) { x.openedAt < y.openedAt }

  predicate OpensAt(bars: seq<Bar>, t: int) { exists b :: b in bars && b.openedAt == t }

  datatype SnapshotId = SnapshotId(symbol: int, timeframe: int, asOf: int, bars: seq<Bar>)

  datatype Snapshot = Snapshot(symbol: int, timeframe: int, asOf: int, observedAt: int, bars: seq<Bar>)
  {
    function Id(): SnapshotId { SnapshotId(symbol, timeframe, asOf, bars) }
    function Last(): Bar requires bars != [] { bars[|bars| - 1] }
    function LastPrice(): real requires bars != [] { Last().close }
  }

  datatype Volatility = Volatility(observedAt: int, source: SnapshotId, value: Option<real>)

  datatype Signal = Signal(
    agentId: int, agentVersion: int, signalType: SignalType,
    symbol: int, timeframe: int, source: SnapshotId, sourceAsOf: int,
    direction: Direction, expectedReturn: Option<real>, targetExposure: Option<real>,
    action: ActionIntent, validity: SignalValidity, confidence: real, horizonBars: nat,
    generatedAt: int, expiresAt: int, volatility: Option<Volatility>)

  predicate Actionable(a: ActionIntent) { a.TargetExposure? || a.ReduceOnly? }

  /** The contract every agent's signal meets when it is built. */
  predicate ValidSignalContract(s: Signal)
  {
    && 0.0 <= s.confidence <= 1.0
    && (s.targetExposure.Some? ==> -1.0 <= s.targetExposure.value <= 1.0)
    && s.horizonBars > 0
    && s.expiresAt >= s.generatedAt
    && (Actionable(s.action) <==> s.targetExposure.Some?)
    && (!s.validity.ValidSignal? ==> s.action.Abstain?)
    && (s.signalType.Alpha? && s.validity.ValidSignal? <==> s.expectedReturn.Some?)
    && DirectionAgrees(s.direction, s.expectedReturn)
    && (s.volatility.Some? && s.volatility.value.value.Some? ==> s.volatility.value.value.value >= 0.0)
  }

  predicate DirectionAgrees(d: Direction, expected: Option<real>)
  {
    match d
    case Long => expected.Some? ==> expected.value >= 0.0
    case Short => expected.Some? ==> expected.value <= 0.0
    case Flat => expected.Some? ==> expected.value == 0.0
  }

  /** What a decision's identity records of each signal. */
  datatype SignalKey = SignalKey(
    agentId: int, agentVersion: int, generatedAt: int, action: ActionIntent, validity: SignalValidity,
    direction: Direction, expectedReturn: Option<real>, targetExposure: Option<real>, confidence: real, horizonBars: nat)

  datatype DecisionId = DecisionId(source: SnapshotId, signals: seq<SignalKey>, action: ActionIntent, target: Option<real>)

  datatype Decision = Decision(
    id: DecisionId, symbol: int, timeframe: int, source: SnapshotId, sourceAsOf: int,
    direction: Direction, expectedReturn: Option<real>, targetExposure: Option<real>,
    action: ActionIntent, conviction: real, confidence: real,
    decidedAt: int, expiresAt: int, signals: seq<Signal>)

  predicate ValidDecision(d: Decision)
  {
    && -1.0 <= d.conviction <= 1.0 && 0.0 <= d.confidence <= 1.0
    && (d.targetExposure.Some? ==> -1.0 <= d.targetExposure.value <= 1.0)
    && (Actionable(d.action) <==> d.targetExposure.Some?)
    && d.expiresAt >= d.decidedAt
    && DirectionAgrees(d.direction, d.expectedReturn)
  }

  datatype Position = Position(symbol: int, quantity: real, averageEntry: real, mark: real, markObservedAt: int)
  {
    function Notional(): real { quantity * mark }
    function Unrealized(): real { quantity * (mark - averageEntry) }
  }

  datatype Portfolio = Portfolio(cash: real, equity: real, valuedAt: int, positions: seq<Position>)
  {
    function GrossExposure(): real { SumGross(positions) }
  }

  function Abs(x: real): (r: real)
    ensures r >= 0.0 && (r == x || r == -x)
  {
    if x < 0.0 then -x else x
  }

  function Max(x: real, y: real): real { if x < y then y else x }
  function Min(x: real, y: real): real { if x < y then x else y }

  function SumNotional(positions: seq<Position>): real
  {
    if positions == [] then 0.0 else positions[0].Notional() + SumNotional(positions[1..])
  }

  function SumGross(positions: seq<Position>): (r: real)
    ensures r >= 0.0
  {
    if positions == [] then 0.0 else Abs(positions[0].Notional()) + SumGross(positions[1..])
  }

  function SumUnrealized(positions: seq<Position>): real
  {
    if positions == [] then 0.0 else positions[0].Unrealized() + SumUnrealized(positions[1..])
  }

  function FindPosition(positions: seq<Position>, symbol: int): (r: Option<Position>)
    ensures r.Some? ==> r.value in positions && r.value.symbol == symbol
  {
    if positions == [] then None
    else if positions[0].symbol == symbol then Some(positions[0])
    else FindPosition(positions[1..], symbol)
  }

  datatype CostBounds = CostBounds(feeBps: real, slippageBps: real)

  datatype AuthorizationId = AuthorizationId(
    decision: DecisionId, side: OrderSide, quantity: real, price: real, evaluatedAt: int)

  datatype ApprovedOrder = ApprovedOrder(
    authorization: AuthorizationId, decision: DecisionId, source: SnapshotId,
    symbol: int, timeframe: int, side: OrderSide, quantity: real, referencePrice: real,
    authorizedAt: int, earliestFillAt: int, expiresAt: int,
    maxFeeBps: real, maxSlippageBps: real, reduceOnly: bool)

  predicate ValidOrder(o: ApprovedOrder)
  {
    && o.quantity > 0.0 && o.referencePrice > 0.0
    && o.authorizedAt <= o.earliestFillAt <= o.expiresAt
    && 0.0 <= o.maxFeeBps <= BPS && 0.0 <= o.maxSlippageBps <= BPS
  }

  datatype OpeningPrice = OpeningPrice(symbol: int, timeframe: int, price: real, barOpenedAt: int, observedAt: int)

  datatype PriceObservation = PriceObservation(symbol: int, price: real, observedAt: int)

  datatype Rejection =
    | DuplicateAuthorization | OpeningMismatch | SubmittedEarly | Retroactive | NotObservedAtOpen
    | BeforeWindow | AuthorizationExpired | BeforeAccountTime
    | SlippageExceeded | FeeExceeded | InsufficientCash | NotReducing

  datatype ReportOutcome =
    | Filled(filledAt: int, fillPrice: real)
    | Rejected(reason: Rejection)

  datatype ExecutionReport = ExecutionReport(
    authorization: AuthorizationId, symbol: int, side: OrderSide, quantity: real,
    submittedAt: int, outcome: ReportOutcome, fee: real, slippageBps: real)

  /** `math.isclose(a, b, rel_tol=1e-12, abs_tol=1e-9)`. */
  predicate IsClose(a: real, b: real)
  {
    Abs(a - b) <= Max(QUANTITY_TOLERANCE * Max(Abs(a), Abs(b)), NOTIONAL_TOLERANCE)
  }

  function Snapped(quantity: real): (r: real)
    ensures r == 0.0 || Abs(r) > QUANTITY_TOLERANCE
    ensures Abs(r - quantity) <= QUANTITY_TOLERANCE
    ensures Abs(quantity) > QUANTITY_TOLERANCE ==> r == quantity
  {
    if Abs(quantity) <= QUANTITY_TOLERANCE then 0.0 else quantity
  }

  /** The source's `x * y > 0`. */
  predicate SameSign(x: real, y: real)
  {
    (x > 0.0 && y > 0.0) || (x < 0.0 && y < 0.0)
  }

  lemma SameSignIsPositiveProduct(x: real, y: real)
    ensures SameSign(x, y) <==> x * y > 0.0
  {
    if SameSign(x, -y) {
      assert x * -y > 0.0;
    }
  }

  /** The reduction test the governor and the paper broker share word for word. */
  predicate StrictlyReduces(current: real, prospective: real)
  {
    if Abs(current) <= QUANTITY_TOLERANCE then false
    else if Abs(prospective) <= QUANTITY_TOLERANCE then true
    else SameSign(current, prospective) && Abs(prospective) < Abs(current) - QUANTITY_TOLERANCE
  }

  function SignedFill(side: OrderSide, quantity: real): real
  {
    if side.Buy? then quantity else -quantity
  }
}
