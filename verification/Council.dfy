/** The council: one decision from the signals of all specialists. */
module Council {
  import opened Sequences
  import opened Trading

  datatype CouncilConfig = CouncilConfig(weights: map<int, real>, minimumConfidence: real, minimumConviction: real)

  predicate ValidCouncilConfig(c: CouncilConfig)
  {
    && (forall a :: a in c.weights ==> c.weights[a] >= 0.0)
    && 0.0 <= c.minimumConfidence <= 1.0 && 0.0 <= c.minimumConviction <= 1.0
  }

  datatype CouncilError =
    | NoSignals | RepeatedAgent | WrongMarket | WrongSource | GeneratedEarly | GeneratedLate | AlreadyExpired
    | VolatilitySource | VolatilityLate

  datatype Aggregation = Decided(decision: Decision) | Refused(error: CouncilError)

  function Weight(c: CouncilConfig, s: Signal): real
  {
    if s.agentId in c.weights then c.weights[s.agentId] else 1.0
  }

  predicate ById(x: Signal, y: Signal) { x.agentId <= y.agentId }

  function AgentIds(signals: seq<Signal>): set<int>
  {
    set s | s in signals :: s.agentId
  }

  predicate UniqueAgents(signals: seq<Signal>)
  {
    |AgentIds(signals)| == |signals|
  }

  function SourceFault(snapshot: Snapshot, s: Signal): Option<CouncilError>
  {
    if s.symbol != snapshot.symbol || s.timeframe != snapshot.timeframe then Some(WrongMarket)
    else if s.source != snapshot.Id() || s.sourceAsOf != snapshot.asOf then Some(WrongSource)
    else if s.generatedAt < snapshot.observedAt then Some(GeneratedEarly)
    else if s.generatedAt > snapshot.observedAt then Some(GeneratedLate)
    else if s.expiresAt < snapshot.observedAt then Some(AlreadyExpired)
    else if s.volatility.Some? && s.volatility.value.source != snapshot.Id() then Some(VolatilitySource)
    else if s.volatility.Some? && s.volatility.value.observedAt > snapshot.asOf then Some(VolatilityLate)
    else None
  }

  function FirstFault(snapshot: Snapshot, signals: seq<Signal>): (r: Option<CouncilError>)
    ensures r.None? <==> forall s :: s in signals ==> SourceFault(snapshot, s).None?
  {
    if signals == [] then None
    else if SourceFault(snapshot, signals[0]).Some? then
      assert signals[0] in signals;
      SourceFault(snapshot, signals[0])
    else
      assert signals == [signals[0]] + signals[1..];
      FirstFault(snapshot, signals[1..])
  }

  predicate IsAlpha(s: Signal)
  {
    s.signalType.Alpha? && s.validity.ValidSignal? && Actionable(s.action)
  }

  function AlphaOf(signals: seq<Signal>): seq<Signal> { Filter(signals, IsAlpha) }

  function Total(signals: seq<Signal>, term: Signal -> real): real
  {
    if signals == [] then 0.0 else Total(signals[..|signals| - 1], term) + term(signals[|signals| - 1])
  }

  function Times(f: Signal -> real, g: Signal -> real): Signal -> real { s => f(s) * g(s) }

  function WeightTerm(c: CouncilConfig): Signal -> real { s => Weight(c, s) }

  function ConfidenceTerm(): Signal -> real { (s: Signal) => s.confidence }

  function TargetTerm(): Signal -> real { (s: Signal) => if s.targetExposure.Some? then s.targetExposure.value else 0.0 }

  function ReturnTerm(): Signal -> real { (s: Signal) => if s.expectedReturn.Some? then s.expectedReturn.value else 0.0 }

  function EffectiveTerm(c: CouncilConfig): Signal -> real { Times(WeightTerm(c), ConfidenceTerm()) }

  function Capacity(c: CouncilConfig, alpha: seq<Signal>): real { Total(alpha, WeightTerm(c)) }

  function Effective(c: CouncilConfig, alpha: seq<Signal>): real { Total(alpha, EffectiveTerm(c)) }

  function Conviction(c: CouncilConfig, alpha: seq<Signal>): real
  {
    if Capacity(c, alpha) == 0.0 then 0.0
    else if Effective(c, alpha) == 0.0 then Total(alpha, Times(WeightTerm(c), TargetTerm())) / Capacity(c, alpha)
    else Total(alpha, Times(EffectiveTerm(c), TargetTerm())) / Effective(c, alpha)
  }

  function ExpectedReturn(c: CouncilConfig, alpha: seq<Signal>): Option<real>
  {
    if Effective(c, alpha) == 0.0 || Capacity(c, alpha) == 0.0 then None
    else Some(Total(alpha, Times(EffectiveTerm(c), ReturnTerm())) / Effective(c, alpha))
  }

  function Confidence(c: CouncilConfig, alpha: seq<Signal>): real
  {
    if Effective(c, alpha) == 0.0 || Capacity(c, alpha) == 0.0 then 0.0 else Effective(c, alpha) / Capacity(c, alpha)
  }

  predicate ExplicitlyFlat(s: Signal) { Abs(TargetTerm()(s)) <= EXPOSURE_TOLERANCE }

  predicate AllFlat(alpha: seq<Signal>) { alpha != [] && forall s :: s in alpha ==> ExplicitlyFlat(s) }

  predicate AllReduceOnly(alpha: seq<Signal>) { alpha != [] && forall s :: s in alpha ==> s.action.ReduceOnly? }

  datatype Verdict = Verdict(action: ActionIntent, target: Option<real>)

  function VerdictOf(c: CouncilConfig, alpha: seq<Signal>): Verdict
  {
    if alpha == [] then Verdict(Abstain, None)
    else if !AllFlat(alpha) && !AllReduceOnly(alpha)
         && (Confidence(c, alpha) < c.minimumConfidence || Abs(Conviction(c, alpha)) < c.minimumConviction) then
      Verdict(NoAction, None)
    else
      Verdict(if AllReduceOnly(alpha) then ReduceOnly else TargetExposure,
              Some(if AllFlat(alpha) then 0.0 else Conviction(c, alpha)))
  }

  function DirectionOf(expected: Option<real>): Direction
  {
    if expected.Some? && expected.value > 0.0 then Long
    else if expected.Some? && expected.value < 0.0 then Short
    else Flat
  }

  function FirstExpiry(signals: seq<Signal>): (r: int)
    requires signals != []
    ensures forall s :: s in signals ==> r <= s.expiresAt
    ensures exists s :: s in signals && r == s.expiresAt
  {
    if |signals| == 1 then
      assert signals[0] in signals;
      signals[0].expiresAt
    else
      var rest := FirstExpiry(signals[1..]);
      assert signals == [signals[0]] + signals[1..];
      if signals[0].expiresAt <= rest then signals[0].expiresAt else rest
  }

  function KeyOf(s: Signal): SignalKey
  {
    SignalKey(s.agentId, s.agentVersion, s.generatedAt, s.action, s.validity, s.direction,
              s.expectedReturn, s.targetExposure, s.confidence, s.horizonBars)
  }

  function KeysOf(signals: seq<Signal>): (r: seq<SignalKey>)
    ensures |r| == |signals|
    ensures forall i :: 0 <= i < |r| ==> r[i] == KeyOf(signals[i])
  {
    seq(|signals|, i requires 0 <= i < |signals| => KeyOf(signals[i]))
  }

  function DecisionFrom(c: CouncilConfig, snapshot: Snapshot, ordered: seq<Signal>): Decision
    requires ordered != []
  {
    var alpha := AlphaOf(ordered);
    var verdict := VerdictOf(c, alpha);
    Decision(
      DecisionId(snapshot.Id(), KeysOf(ordered), verdict.action, verdict.target),
      snapshot.symbol, snapshot.timeframe, snapshot.Id(), snapshot.asOf,
      DirectionOf(ExpectedReturn(c, alpha)), ExpectedReturn(c, alpha), verdict.target, verdict.action,
      Conviction(c, alpha), Confidence(c, alpha), snapshot.observedAt, FirstExpiry(ordered), ordered)
  }

  function Aggregate(c: CouncilConfig, snapshot: Snapshot, signals: seq<Signal>): Aggregation
  {
    var ordered := StableSort(signals, ById);
    if ordered == [] then Refused(NoSignals)
    else if !UniqueAgents(ordered) then Refused(RepeatedAgent)
    else
      var fault := FirstFault(snapshot, ordered);
      if fault.Some? then Refused(fault.value) else Decided(DecisionFrom(c, snapshot, ordered))
  }

  // ---- permutations ----

  lemma IdOrderIsTotal()
    ensures TotalPreorder(ById)
  {
  }

  lemma SameAgents(a: seq<Signal>, b: seq<Signal>)
    requires multiset(a) == multiset(b)
    ensures AgentIds(a) == AgentIds(b) && |a| == |b|
  {
    SameMembers(a, b);
    assert |multiset(a)| == |a| && |multiset(b)| == |b|;
  }

  lemma {:induction false} UniqueMeansNoTies(signals: seq<Signal>)
    ensures |AgentIds(signals)| <= |signals|
    ensures UniqueAgents(signals) ==> NoTies(signals, ById)
  {
    if signals != [] {
      var rest, last := signals[..|signals| - 1], signals[|signals| - 1];
      UniqueMeansNoTies(rest);
      assert signals == rest + [last];
      assert AgentIds(signals) == AgentIds(rest) + {last.agentId};
      if UniqueAgents(signals) {
        assert last.agentId !in AgentIds(rest);
        forall i, j | 0 <= i < j < |signals|
          ensures !(ById(signals[i], signals[j]) && ById(signals[j], signals[i]))
        {
          if j == |rest| {
            assert signals[i] in rest;
          }
        }
      }
    }
  }

  /** The decision, or the refusal, does not depend on the order the signals arrive in. */
  lemma OrderOfSignalsIsIrrelevant(c: CouncilConfig, snapshot: Snapshot, a: seq<Signal>, b: seq<Signal>)
    requires multiset(a) == multiset(b)
    ensures Aggregate(c, snapshot, a) == Aggregate(c, snapshot, b)
  {
    var x, y := StableSort(a, ById), StableSort(b, ById);
    SameAgents(a, b);
    SameAgents(x, a);
    SameAgents(y, b);
    if UniqueAgents(a) {
      UniqueMeansNoTies(a);
      UniqueMeansNoTies(b);
      IdOrderIsTotal();
      SortStrict(a, ById);
      SortStrict(b, ById);
      SameMembers(x, y);
      SortedUnique(x, y, Strict(ById));
    }
  }

  // ---- weighted means ----

  lemma {:induction false} TotalsAreOrdered(signals: seq<Signal>, f: Signal -> real, g: Signal -> real)
    requires forall s :: s in signals ==> f(s) <= g(s)
    ensures Total(signals, f) <= Total(signals, g)
  {
    if signals != [] {
      var n := |signals| - 1;
      assert signals[n] in signals;
      TotalsAreOrdered(signals[..n], f, g);
    }
  }

  function Scaled(k: real, f: Signal -> real): Signal -> real { s => k * f(s) }

  lemma {:induction false} TotalScales(signals: seq<Signal>, k: real, f: Signal -> real)
    ensures Total(signals, Scaled(k, f)) == k * Total(signals, f)
  {
    if signals != [] {
      var n := |signals| - 1;
      TotalScales(signals[..n], k, f);
      assert k * Total(signals, f) == k * Total(signals[..n], f) + k * f(signals[n]);
    }
  }

  lemma ProductBounds(w: real, x: real, lo: real, hi: real)
    requires w >= 0.0 && lo <= x <= hi
    ensures lo * w <= w * x <= hi * w
  {
    assert w * (x - lo) >= 0.0 && w * (hi - x) >= 0.0;
  }

  /** A weighted total lies between the least and the greatest value times the total weight. */
  lemma WeightedBounds(signals: seq<Signal>, weight: Signal -> real, value: Signal -> real, lo: real, hi: real)
    requires forall s :: s in signals ==> weight(s) >= 0.0 && lo <= value(s) <= hi
    ensures lo * Total(signals, weight) <= Total(signals, Times(weight, value)) <= hi * Total(signals, weight)
  {
    forall s | s in signals
      ensures Scaled(lo, weight)(s) <= Times(weight, value)(s) <= Scaled(hi, weight)(s)
    {
      ProductBounds(weight(s), value(s), lo, hi);
    }
    TotalsAreOrdered(signals, Scaled(lo, weight), Times(weight, value));
    TotalsAreOrdered(signals, Times(weight, value), Scaled(hi, weight));
    TotalScales(signals, lo, weight);
    TotalScales(signals, hi, weight);
  }

  lemma QuotientBounds(lo: real, x: real, hi: real, w: real)
    requires w > 0.0 && lo * w <= x <= hi * w
    ensures lo <= x / w <= hi
  {
    var q := x / w;
    assert q * w == x;
    assert q < lo ==> (lo - q) * w > 0.0;
    assert q > hi ==> (q - hi) * w > 0.0;
  }

  ghost predicate ContractMet(signals: seq<Signal>)
  {
    forall s :: s in signals ==> ValidSignalContract(s)
  }

  lemma Weights(c: CouncilConfig, alpha: seq<Signal>)
    requires ValidCouncilConfig(c) && ContractMet(alpha)
    ensures forall s :: s in alpha ==> WeightTerm(c)(s) >= 0.0 && EffectiveTerm(c)(s) >= 0.0
    ensures 0.0 <= Effective(c, alpha) <= Capacity(c, alpha)
  {
    forall s | s in alpha
      ensures WeightTerm(c)(s) >= 0.0 && EffectiveTerm(c)(s) >= 0.0
      ensures 0.0 <= ConfidenceTerm()(s) <= 1.0
    {
      assert ValidSignalContract(s);
      ProductBounds(Weight(c, s), s.confidence, 0.0, 1.0);
    }
    WeightedBounds(alpha, WeightTerm(c), ConfidenceTerm(), 0.0, 1.0);
  }

  /** With any weight at all, conviction lies between the least and the greatest alpha target. */
  lemma ConvictionIsAMean(c: CouncilConfig, alpha: seq<Signal>, lo: real, hi: real)
    requires ValidCouncilConfig(c) && ContractMet(alpha)
    requires forall s :: s in alpha ==> lo <= TargetTerm()(s) <= hi
    ensures Capacity(c, alpha) > 0.0 ==> lo <= Conviction(c, alpha) <= hi
    ensures Capacity(c, alpha) == 0.0 ==> Conviction(c, alpha) == 0.0
  {
    hide ContractMet, ValidCouncilConfig, Total, WeightTerm, EffectiveTerm, TargetTerm, Times;
    Weights(c, alpha);
    if Capacity(c, alpha) > 0.0 {
      if Effective(c, alpha) == 0.0 {
        WeightedBounds(alpha, WeightTerm(c), TargetTerm(), lo, hi);
        QuotientBounds(lo, Total(alpha, Times(WeightTerm(c), TargetTerm())), hi, Capacity(c, alpha));
      } else {
        WeightedBounds(alpha, EffectiveTerm(c), TargetTerm(), lo, hi);
        QuotientBounds(lo, Total(alpha, Times(EffectiveTerm(c), TargetTerm())), hi, Effective(c, alpha));
      }
    }
  }

  lemma ConfidenceIsAFraction(c: CouncilConfig, alpha: seq<Signal>)
    requires ValidCouncilConfig(c) && ContractMet(alpha)
    ensures 0.0 <= Confidence(c, alpha) <= 1.0
  {
    Weights(c, alpha);
    if Effective(c, alpha) != 0.0 {
      QuotientBounds(0.0, Effective(c, alpha), 1.0, Capacity(c, alpha));
    }
  }

  lemma TargetsInRange(signals: seq<Signal>)
    requires ContractMet(signals)
    ensures forall s :: s in signals ==> -1.0 <= TargetTerm()(s) <= 1.0
  {
    forall s | s in signals
      ensures -1.0 <= TargetTerm()(s) <= 1.0
    {
      assert ValidSignalContract(s);
    }
  }

  /** Every decision meets its contract, whatever valid signals it is built from, and the only
      refusals are an empty round, a repeated agent and a signal that is not about this snapshot. */
  lemma DecisionsMeetTheirContract(c: CouncilConfig, snapshot: Snapshot, signals: seq<Signal>)
    requires ValidCouncilConfig(c) && ContractMet(signals)
    ensures Aggregate(c, snapshot, signals).Decided?
       <==> signals != [] && UniqueAgents(signals) && forall s :: s in signals ==> SourceFault(snapshot, s).None?
    ensures Aggregate(c, snapshot, signals).Decided? ==>
      var d := Aggregate(c, snapshot, signals).decision;
      && ValidDecision(d) && d.decidedAt == snapshot.observedAt && d.source == snapshot.Id()
      && multiset(d.signals) == multiset(signals)
      && (forall s :: s in signals ==> d.decidedAt <= d.expiresAt <= s.expiresAt)
  {
    hide DecisionFrom, SourceFault, ValidDecision, ValidCouncilConfig, ContractMet, AgentIds;
    var ordered := StableSort(signals, ById);
    SortMembers(signals, ById);
    SameAgents(signals, ordered);
    if Aggregate(c, snapshot, signals).Decided? {
      ContractKept(signals, ordered);
      ExpiresAfter(snapshot, ordered);
      DecisionParts(c, snapshot, ordered);
    }
  }

  lemma ContractKept(signals: seq<Signal>, ordered: seq<Signal>)
    requires ContractMet(signals) && forall s :: s in ordered ==> s in signals
    ensures ContractMet(ordered) && ContractMet(AlphaOf(ordered))
  {
  }

  lemma DecisionParts(c: CouncilConfig, snapshot: Snapshot, ordered: seq<Signal>)
    requires ValidCouncilConfig(c) && ordered != [] && ContractMet(ordered) && ContractMet(AlphaOf(ordered))
    requires FirstExpiry(ordered) >= snapshot.observedAt
    ensures var d := DecisionFrom(c, snapshot, ordered);
      && ValidDecision(d) && d.decidedAt == snapshot.observedAt && d.source == snapshot.Id()
      && d.signals == ordered && d.expiresAt == FirstExpiry(ordered)
  {
    hide ValidCouncilConfig, ContractMet, Conviction, Confidence, ExpectedReturn, AlphaOf, KeysOf, VerdictOf, DirectionOf, DirectionAgrees;
    var alpha := AlphaOf(ordered);
    ConvictionInRange(c, alpha);
    ConfidenceIsAFraction(c, alpha);
    VerdictFits(c, alpha);
    DirectionFits(ExpectedReturn(c, alpha));
  }

  lemma VerdictFits(c: CouncilConfig, alpha: seq<Signal>)
    requires -1.0 <= Conviction(c, alpha) <= 1.0
    ensures var v := VerdictOf(c, alpha);
      && (v.target.Some? ==> -1.0 <= v.target.value <= 1.0) && (Actionable(v.action) <==> v.target.Some?)
  {
    hide Conviction, Confidence, AllFlat, AllReduceOnly;
  }

  lemma DirectionFits(expected: Option<real>)
    ensures DirectionAgrees(DirectionOf(expected), expected)
  {
  }

  lemma ConvictionInRange(c: CouncilConfig, alpha: seq<Signal>)
    requires ValidCouncilConfig(c) && ContractMet(alpha)
    ensures -1.0 <= Conviction(c, alpha) <= 1.0
  {
    hide Conviction, ContractMet, ValidCouncilConfig, Capacity;
    TargetsInRange(alpha);
    ConvictionIsAMean(c, alpha, -1.0, 1.0);
    Weights(c, alpha);
  }

  lemma ExpiresAfter(snapshot: Snapshot, ordered: seq<Signal>)
    requires ordered != [] && FirstFault(snapshot, ordered).None?
    ensures FirstExpiry(ordered) >= snapshot.observedAt
  {
    var s :| s in ordered && FirstExpiry(ordered) == s.expiresAt;
    assert SourceFault(snapshot, s).None?;
  }

  // ---- the dashboard's attribution ----

  /** The browser's contribution of one signal to the council's conviction. */
  function Contribution(c: CouncilConfig, eligible: seq<Signal>, s: Signal): real
  {
    if Effective(c, eligible) == 0.0 then 0.0
    else (Weight(c, s) * s.confidence * TargetTerm()(s)) / Effective(c, eligible)
  }

  function ContributionTerm(c: CouncilConfig, eligible: seq<Signal>): Signal -> real { s => Contribution(c, eligible, s) }

  /** The browser's `councilContributions`, over signals in arrival order. */
  function Contributions(c: CouncilConfig, signals: seq<Signal>): map<int, real>
    requires forall i, j :: 0 <= i < j < |signals| ==> signals[i].agentId != signals[j].agentId
  {
    var eligible := AlphaOf(signals);
    map s | s in eligible :: s.agentId := Contribution(c, eligible, s)
  }

  lemma {:induction false} TotalPermutes(a: seq<Signal>, b: seq<Signal>, term: Signal -> real)
    requires multiset(a) == multiset(b)
    ensures Total(a, term) == Total(b, term)
    decreases |a|
  {
    hide Total;
    if a == [] {
      assert |multiset(b)| == 0;
    } else {
      var n := |a| - 1;
      var k := PlaceOf(a[n], a, b);
      var rest := b[..k] + b[k + 1..];
      WithoutOne(a, b, k);
      TotalPermutes(a[..n], rest, term);
      TotalWithout(a, n, term);
      TotalWithout(b, k, term);
      assert a[..n] + a[n + 1..] == a[..n];
    }
  }

  lemma PlaceOf(x: Signal, a: seq<Signal>, b: seq<Signal>) returns (k: nat)
    requires multiset(a) == multiset(b) && x in a
    ensures k < |b| && b[k] == x
  {
    SameMembers(a, b);
    k :| 0 <= k < |b| && b[k] == x;
  }

  lemma WithoutOne(a: seq<Signal>, b: seq<Signal>, k: nat)
    requires a != [] && k < |b| && b[k] == a[|a| - 1] && multiset(a) == multiset(b)
    ensures multiset(a[..|a| - 1]) == multiset(b[..k] + b[k + 1..])
  {
    CountWithout(a, |a| - 1);
    CountWithout(b, k);
    assert a[..|a| - 1] + a[|a|..] == a[..|a| - 1];
    SameLess(multiset(a[..|a| - 1]), multiset(b[..k] + b[k + 1..]), b[k]);
  }

  lemma CountWithout(s: seq<Signal>, k: nat)
    requires k < |s|
    ensures multiset(s) == multiset(s[..k] + s[k + 1..]) + multiset{s[k]}
  {
    assert s == s[..k] + [s[k]] + s[k + 1..];
  }

  lemma SameLess(x: multiset<Signal>, y: multiset<Signal>, e: Signal)
    requires x + multiset{e} == y + multiset{e}
    ensures x == y
  {
    assert x == (x + multiset{e}) - multiset{e};
    assert y == (y + multiset{e}) - multiset{e};
  }

  lemma TotalWithout(s: seq<Signal>, k: nat, term: Signal -> real)
    requires k < |s|
    ensures Total(s, term) == Total(s[..k] + s[k + 1..], term) + term(s[k])
  {
    hide Total;
    TotalSplits(s[..k] + [s[k]], s[k + 1..], term);
    TotalSplits(s[..k], s[k + 1..], term);
    TotalSnoc(s[..k], s[k], term);
    assert s == s[..k] + [s[k]] + s[k + 1..];
  }

  lemma TotalSnoc(s: seq<Signal>, x: Signal, term: Signal -> real)
    ensures Total(s + [x], term) == Total(s, term) + term(x)
  {
    assert (s + [x])[..|s|] == s;
  }

  lemma {:induction false} TotalSplits(a: seq<Signal>, b: seq<Signal>, term: Signal -> real)
    ensures Total(a + b, term) == Total(a, term) + Total(b, term)
    decreases |b|
  {
    if b == [] {
      assert a + b == a;
    } else {
      var n := |b| - 1;
      assert (a + b)[..|a + b| - 1] == a + b[..n];
      TotalSplits(a, b[..n], term);
    }
  }

  lemma {:induction false} FilterPermutes(a: seq<Signal>, b: seq<Signal>)
    requires multiset(a) == multiset(b)
    ensures multiset(AlphaOf(a)) == multiset(AlphaOf(b))
  {
    FilterCounts(a);
    FilterCounts(b);
  }

  lemma {:induction false} FilterCounts(a: seq<Signal>)
    ensures forall x :: multiset(AlphaOf(a))[x] == if IsAlpha(x) then multiset(a)[x] else 0
  {
    if a != [] {
      var n := |a| - 1;
      FilterCounts(a[..n]);
      assert a == a[..n] + [a[n]];
    }
  }

  lemma QuotientTerm(c: CouncilConfig, eligible: seq<Signal>, s: Signal)
    requires Effective(c, eligible) > 0.0
    ensures Contribution(c, eligible, s) == (1.0 / Effective(c, eligible)) * Times(EffectiveTerm(c), TargetTerm())(s)
  {
    assert Times(EffectiveTerm(c), TargetTerm())(s) == Weight(c, s) * s.confidence * TargetTerm()(s);
    ReciprocalProduct(Weight(c, s) * s.confidence * TargetTerm()(s), Effective(c, eligible));
  }

  lemma ReciprocalProduct(x: real, y: real)
    requires y > 0.0
    ensures x / y == (1.0 / y) * x
  {
  }

  lemma TermsAgree(signals: seq<Signal>, f: Signal -> real, g: Signal -> real)
    requires forall s :: s in signals ==> f(s) == g(s)
    ensures Total(signals, f) == Total(signals, g)
  {
    TotalsAreOrdered(signals, f, g);
    TotalsAreOrdered(signals, g, f);
  }

  lemma ContributionsTotal(c: CouncilConfig, eligible: seq<Signal>)
    requires Effective(c, eligible) > 0.0
    ensures Total(eligible, ContributionTerm(c, eligible))
         == Total(eligible, Times(EffectiveTerm(c), TargetTerm())) / Effective(c, eligible)
  {
    var product, share := Times(EffectiveTerm(c), TargetTerm()), 1.0 / Effective(c, eligible);
    forall s | s in eligible
      ensures ContributionTerm(c, eligible)(s) == Scaled(share, product)(s)
    {
      QuotientTerm(c, eligible, s);
    }
    TermsAgree(eligible, ContributionTerm(c, eligible), Scaled(share, product));
    TotalScales(eligible, share, product);
    ReciprocalProduct(Total(eligible, product), Effective(c, eligible));
  }

  /** Whatever order the browser holds the signals in, the contributions it shows, one per
      eligible agent, add up to the council's conviction whenever any confidence counts. */
  lemma ContributionsSumToConviction(c: CouncilConfig, snapshot: Snapshot, signals: seq<Signal>, shown: seq<Signal>)
    requires ValidCouncilConfig(c) && ContractMet(signals) && Aggregate(c, snapshot, signals).Decided?
    requires multiset(shown) == multiset(signals)
    requires forall i, j :: 0 <= i < j < |shown| ==> shown[i].agentId != shown[j].agentId
    requires Effective(c, AlphaOf(shown)) > 0.0
    ensures forall s :: s in AlphaOf(shown) ==>
      s.agentId in Contributions(c, shown) && Contributions(c, shown)[s.agentId] == Contribution(c, AlphaOf(shown), s)
    ensures Total(AlphaOf(shown), ContributionTerm(c, AlphaOf(shown))) == Aggregate(c, snapshot, signals).decision.conviction
  {
    hide Total, Conviction, Effective, Capacity, EffectiveTerm, WeightTerm, Times, TargetTerm, Contributions, Contribution, ContributionTerm,
         ContractMet, ValidCouncilConfig;
    var ordered := StableSort(signals, ById);
    var mine, theirs := AlphaOf(shown), AlphaOf(ordered);
    FilterPermutes(shown, ordered);
    SortMembers(signals, ById);
    ContractKept(signals, ordered);
    ContributionsListed(c, shown);
    ContributionsTotal(c, mine);
    ConvictionPermutes(c, mine, theirs);
  }

  lemma ContributionsListed(c: CouncilConfig, signals: seq<Signal>)
    requires forall i, j :: 0 <= i < j < |signals| ==> signals[i].agentId != signals[j].agentId
    ensures forall s :: s in AlphaOf(signals) ==>
      s.agentId in Contributions(c, signals) && Contributions(c, signals)[s.agentId] == Contribution(c, AlphaOf(signals), s)
  {
  }

  /** With any confidence that counts, conviction is the weighted mean, in whatever order. */
  lemma ConvictionPermutes(c: CouncilConfig, mine: seq<Signal>, theirs: seq<Signal>)
    requires ValidCouncilConfig(c) && ContractMet(theirs) && multiset(mine) == multiset(theirs) && Effective(c, mine) > 0.0
    ensures Conviction(c, theirs) == Total(mine, Times(EffectiveTerm(c), TargetTerm())) / Effective(c, mine)
  {
    hide Total, EffectiveTerm, WeightTerm, Times, TargetTerm, ContractMet, ValidCouncilConfig;
    TotalPermutes(mine, theirs, EffectiveTerm(c));
    TotalPermutes(mine, theirs, WeightTerm(c));
    TotalPermutes(mine, theirs, Times(EffectiveTerm(c), TargetTerm()));
    Weights(c, theirs);
  }
}
