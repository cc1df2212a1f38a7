/** The Teacher: held-out evaluation of a profile, and its verdict on a proposal. */
module Teacher {
  import opened Sequences
  import opened Trading
  import opened Council
  import opened Profiles
  import opened Experience
  import opened Drawdown
  import Librarian
  import WeightStore

  datatype MetricWeights = MetricWeights(
    total: real, relative: real, drawdown: real, hitRate: real, calibration: real, riskAdjusted: real,
    costAdjusted: real, worstSlice: real)

  datatype TeacherConfig = TeacherConfig(
    minimumHeldOut: nat, minimumImprovement: real, maximumDegradation: real, turnoverBps: real, weights: MetricWeights)

  datatype Metrics = Metrics(
    count: nat, total: real, relative: real, drawdown: real, hitRate: real, calibration: real, riskAdjusted: real,
    turnover: real, costAdjusted: real, worstSlice: real, score: real)

  // ---- which episodes count ----

  predicate Complete(e: Episode) { e.truth.Some? && e.truth.value.realizedReturn.Some? }

  datatype Selection = Selection(chosen: seq<Episode>, lastExit: Option<int>)

  /** Greedy: an episode is taken unless it starts before the last taken one has ended. */
  function Select(sorted: seq<Episode>): Selection
    requires forall e :: e in sorted ==> Complete(e)
  {
    if sorted == [] then Selection([], None)
    else
      var before, e := Select(sorted[..|sorted| - 1]), sorted[|sorted| - 1];
      assert e in sorted;
      if before.lastExit.Some? && e.decisionAt < before.lastExit.value then before
      else Selection(before.chosen + [e], Some(Ends(e)))
  }

  function Ends(e: Episode): int
    requires Complete(e)
  {
    e.truth.value.horizonEnd
  }

  lemma {:induction false} SelectBasics(sorted: seq<Episode>)
    requires forall e :: e in sorted ==> Complete(e)
    ensures forall e :: e in Select(sorted).chosen ==> e in sorted
    ensures var s := Select(sorted);
      if s.chosen == [] then s.lastExit.None? && sorted == []
      else s.lastExit == Some(Ends(s.chosen[|s.chosen| - 1]))
  {
    if sorted != [] {
      SelectBasics(sorted[..|sorted| - 1]);
    }
  }

  lemma ComesBefore(sorted: seq<Episode>, x: Episode)
    requires sorted != [] && Sorted(sorted, AtOrBefore) && x in sorted[..|sorted| - 1]
    ensures AtOrBefore(x, sorted[|sorted| - 1])
  {
    var k :| 0 <= k < |sorted| - 1 && sorted[k] == x;
    assert AtOrBefore(sorted[k], sorted[|sorted| - 1]);
  }

  ghost predicate NoOverlap(chosen: seq<Episode>)
    requires forall e :: e in chosen ==> Complete(e)
  {
    forall i, j :: 0 <= i < j < |chosen| ==> Ends(chosen[i]) <= chosen[j].decisionAt
  }

  lemma OneMoreChosen(chosen: seq<Episode>, e: Episode)
    requires (forall x :: x in chosen ==> Complete(x)) && Complete(e) && NoOverlap(chosen) && Sorted(chosen, AtOrBefore)
    requires forall x :: x in chosen ==> AtOrBefore(x, e)
    requires chosen != [] ==> Ends(chosen[|chosen| - 1]) <= e.decisionAt
    ensures forall x :: x in chosen + [e] ==> Complete(x)
    ensures NoOverlap(chosen + [e]) && Sorted(chosen + [e], AtOrBefore)
  {
    var n := |chosen|;
    forall i | 0 <= i < n
      ensures Ends(chosen[i]) <= e.decisionAt && AtOrBefore(chosen[i], e)
    {
      assert chosen[i] in chosen;
      if i < n - 1 {
        assert Ends(chosen[i]) <= chosen[n - 1].decisionAt;
        assert chosen[n - 1] in chosen;
      }
    }
  }

  /** Taken episodes never overlap. */
  lemma {:induction false} ChosenDoNotOverlap(sorted: seq<Episode>)
    requires (forall e :: e in sorted ==> Complete(e)) && Sorted(sorted, AtOrBefore)
    ensures forall e :: e in Select(sorted).chosen ==> e in sorted && Complete(e)
    ensures Sorted(Select(sorted).chosen, AtOrBefore) && NoOverlap(Select(sorted).chosen)
  {
    hide NoOverlap, Complete, AtOrBefore;
    SelectBasics(sorted);
    if sorted == [] {
      NothingOverlaps();
    } else {
      var n := |sorted| - 1;
      assert sorted[n] in sorted;
      assert forall e :: e in sorted[..n] ==> e in sorted;
      ChosenDoNotOverlap(sorted[..n]);
      SelectBasics(sorted[..n]);
      var before := Select(sorted[..n]).chosen;
      if Select(sorted).chosen != before {
        forall x | x in before
          ensures AtOrBefore(x, sorted[n])
        {
          ComesBefore(sorted, x);
        }
        OneMoreChosen(before, sorted[n]);
      }
    }
  }

  lemma NothingOverlaps()
    ensures NoOverlap([])
  {
  }

  /** An episode left out starts before some earlier taken one has ended. */
  lemma {:induction false} SkippedOverlaps(sorted: seq<Episode>, e: Episode)
    requires (forall x :: x in sorted ==> Complete(x)) && Sorted(sorted, AtOrBefore)
    requires e in sorted && e !in Select(sorted).chosen
    ensures exists x :: x in Select(sorted).chosen && Complete(x) && AtOrBefore(x, e) && e.decisionAt < Ends(x)
  {
    var n := |sorted| - 1;
    SelectBasics(sorted[..n]);
    var before := Select(sorted[..n]);
    if e in sorted[..n] {
      SkippedOverlaps(sorted[..n], e);
    } else {
      var last := before.chosen[|before.chosen| - 1];
      assert last in before.chosen && last in sorted[..n];
      var k :| 0 <= k < n && sorted[k] == last;
      assert AtOrBefore(sorted[k], sorted[n]);
    }
  }

  /** Selecting from the selection takes it all. */
  lemma {:induction false} SelectionIsStable(sorted: seq<Episode>)
    requires forall e :: e in sorted ==> Complete(e)
    ensures forall e :: e in Select(sorted).chosen ==> Complete(e)
    ensures Select(Select(sorted).chosen) == Select(sorted)
  {
    SelectBasics(sorted);
    if sorted != [] {
      var n := |sorted| - 1;
      SelectionIsStable(sorted[..n]);
      var before, now := Select(sorted[..n]), Select(sorted);
      if now != before {
        assert now.chosen[..|now.chosen| - 1] == before.chosen;
      }
    }
  }

  // ---- what one episode contributes ----

  datatype Sample = Sample(exposure: real, realized: real, correct: real, calibration: real)

  function ContextOf(e: Episode, horizon: nat): Context { Context(e.assetClass, e.symbol, e.regime, horizon) }

  function AgentWeight(entries: seq<Entry>, e: Episode, s: Signal): real
  {
    var resolved := Resolve(entries, ContextOf(e, s.horizonBars));
    if s.agentId in resolved then resolved[s.agentId] else 1.0
  }

  /** One weight an agent, the last signal's. */
  function AgentWeights(entries: seq<Entry>, e: Episode, signals: seq<Signal>): map<int, real>
  {
    if signals == [] then map[]
    else
      var last := signals[|signals| - 1];
      AgentWeights(entries, e, signals[..|signals| - 1])[last.agentId := AgentWeight(entries, e, last)]
  }

  function CouncilFor(entries: seq<Entry>, e: Episode): CouncilConfig
  {
    CouncilConfig(AgentWeights(entries, e, e.signals), e.minimumConfidence, e.minimumConviction)
  }

  function SampleOf(entries: seq<Entry>, e: Episode): Option<Sample>
    requires Complete(e)
  {
    var aggregation := Aggregate(CouncilFor(entries, e), e.snapshot, e.signals);
    if aggregation.Refused? then None
    else
      var d := aggregation.decision;
      var correct := if d.direction == e.truth.value.realizedDirection then 1.0 else 0.0;
      Some(Sample(if d.targetExposure.Some? then d.targetExposure.value else 0.0,
                  e.truth.value.realizedReturn.value, correct, Abs(d.confidence - correct)))
  }

  function SamplesOf(entries: seq<Entry>, chosen: seq<Episode>): Option<seq<Sample>>
    requires forall e :: e in chosen ==> Complete(e)
  {
    if chosen == [] then Some([])
    else
      var before := SamplesOf(entries, chosen[..|chosen| - 1]);
      var last := SampleOf(entries, chosen[|chosen| - 1]);
      if before.None? || last.None? then None else Some(before.value + [last.value])
  }

  // ---- returns and slices ----

  function Gains(samples: seq<Sample>): (r: seq<real>)
    ensures |r| == |samples|
    ensures forall i :: 0 <= i < |r| ==> r[i] == samples[i].exposure * samples[i].realized
  {
    seq(|samples|, i requires 0 <= i < |samples| => samples[i].exposure * samples[i].realized)
  }

  function Benchmarks(samples: seq<Sample>): (r: seq<real>)
    ensures |r| == |samples|
  {
    seq(|samples|, i requires 0 <= i < |samples| => samples[i].realized)
  }

  function Growth(gains: seq<real>): real
  {
    if gains == [] then 1.0 else Grown(Growth(gains[..|gains| - 1]), gains[|gains| - 1])
  }

  lemma {:induction false} GrowthEndsTheCurve(gains: seq<real>)
    ensures Compounded(gains)[|gains|] == Growth(gains)
  {
    if gains != [] {
      GrowthEndsTheCurve(gains[..|gains| - 1]);
    }
  }

  function Product(x: real, y: real): real { x * y }

  lemma {:induction false} GrowthSplits(a: seq<real>, b: seq<real>)
    ensures Growth(a + b) == Product(Growth(a), Growth(b))
    decreases |b|
  {
    if b == [] {
      assert a + b == a;
    } else {
      var n := |b| - 1;
      assert (a + b)[..|a + b| - 1] == a + b[..n];
      GrowthSplits(a, b[..n]);
      Regroup(Growth(a), Growth(b[..n]), b[n]);
    }
  }

  lemma Regroup(x: real, y: real, gain: real)
    ensures Grown(Product(x, y), gain) == Product(x, Grown(y, gain))
  {
  }

  /** Where the `i`th of `count` slices of `n` returns begins. */
  function Cut(n: nat, count: nat, i: nat): nat
    requires count > 0
  {
    i * (n / count) + (if i < n % count then i else n % count)
  }

  /** The first `i` slices' compound returns. */
  function SlicesUpTo(gains: seq<real>, count: nat, i: nat): seq<real>
    requires 0 < count && i <= count
  {
    if i == 0 then []
    else
      CutsAreOrdered(|gains|, count, i - 1);
      SlicesUpTo(gains, count, i - 1) + [Growth(gains[Cut(|gains|, count, i - 1)..Cut(|gains|, count, i)]) - 1.0]
  }

  lemma CutsAreOrdered(n: nat, count: nat, i: nat)
    requires i < count
    ensures Cut(n, count, i) <= Cut(n, count, i + 1) <= n
    ensures Cut(n, count, i + 1) == Cut(n, count, i) + n / count + (if i < n % count then 1 else 0)
    ensures Cut(n, count, count) == n
  {
    var size, remainder := n / count, n % count;
    assert n == count * size + remainder;
    NextMultiple(i, size);
    LastMultiples(i, size, count);
    Commuted(count, size);
  }

  lemma NextMultiple(i: nat, size: nat)
    ensures (i + 1) * size == i * size + size
  {
  }

  lemma LastMultiples(i: nat, size: nat, count: nat)
    requires i < count
    ensures (i + 1) * size <= count * size
  {
    assert (count - (i + 1)) * size >= 0;
  }

  lemma Commuted(count: nat, size: nat)
    ensures count * size == size * count
  {
  }

  function SliceCount(gains: seq<real>): nat { if |gains| < 3 then |gains| else 3 }

  function SliceReturns(gains: seq<real>): seq<real>
  {
    if gains == [] then [] else SlicesUpTo(gains, SliceCount(gains), SliceCount(gains))
  }

  /** The source's loop over the slices. */
  method SliceLoop(gains: seq<real>) returns (slices: seq<real>)
    ensures slices == SliceReturns(gains)
  {
    slices := [];
    if gains == [] {
      return;
    }
    var count := SliceCount(gains);
    var size, remainder, offset := |gains| / count, |gains| % count, 0;
    for i := 0 to count
      invariant offset == Cut(|gains|, count, i) <= |gains|
      invariant slices == SlicesUpTo(gains, count, i)
    {
      CutsAreOrdered(|gains|, count, i);
      var end := offset + size + (if i < remainder then 1 else 0);
      slices := slices + [Growth(gains[offset..end]) - 1.0];
      offset := end;
    }
  }

  lemma {:induction false} SlicesCompound(gains: seq<real>, count: nat, i: nat)
    requires 0 < count && i <= count
    ensures Cut(|gains|, count, i) <= |gains|
    ensures Growth(SlicesUpTo(gains, count, i)) == Growth(gains[..Cut(|gains|, count, i)])
  {
    hide Growth, Cut;
    if i == 0 {
      NoCut(gains, count);
    } else {
      SlicesCompound(gains, count, i - 1);
      CutsAreOrdered(|gains|, count, i - 1);
      var from, to := Cut(|gains|, count, i - 1), Cut(|gains|, count, i);
      GrowthSplits(gains[..from], gains[from..to]);
      assert gains[..from] + gains[from..to] == gains[..to];
      OneSlice(SlicesUpTo(gains, count, i - 1), Growth(gains[from..to]));
    }
  }

  lemma NoCut(gains: seq<real>, count: nat)
    requires count > 0
    ensures Cut(|gains|, count, 0) == 0 && gains[..0] == [] && SlicesUpTo(gains, count, 0) == []
  {
  }

  lemma OneSlice(slices: seq<real>, growth: real)
    ensures Growth(slices + [growth - 1.0]) == Product(Growth(slices), growth)
  {
    assert (slices + [growth - 1.0])[..|slices|] == slices;
  }

  /** Compounding the slice returns gives the total return. */
  lemma SlicesCompoundToTotal(gains: seq<real>)
    ensures Growth(SliceReturns(gains)) == Growth(gains)
  {
    if gains != [] {
      SlicesCompound(gains, SliceCount(gains), SliceCount(gains));
      CutsAreOrdered(|gains|, SliceCount(gains), 0);
      assert gains[..|gains|] == gains;
    }
  }

  // ---- metrics ----

  function Sum(values: seq<real>): real
  {
    if values == [] then 0.0 else Sum(values[..|values| - 1]) + values[|values| - 1]
  }

  function Mean(values: seq<real>): real
    requires values != []
  {
    Sum(values) / |values| as real
  }

  /** What it costs to move from one exposure to the next, starting flat. */
  function Turnover(samples: seq<Sample>): real
  {
    if samples == [] then 0.0
    else
      var n := |samples| - 1;
      Turnover(samples[..n]) + Abs(samples[n].exposure - (if n == 0 then 0.0 else samples[n - 1].exposure))
  }

  function Least(values: seq<real>): (r: real)
    requires values != []
    ensures r in values && forall x :: x in values ==> r <= x
  {
    if |values| == 1 then values[0]
    else
      var rest := Least(values[1..]);
      assert values == [values[0]] + values[1..];
      Min(values[0], rest)
  }

  function Score(m: Metrics, w: MetricWeights): real
  {
    m.total * w.total + m.relative * w.relative + m.drawdown * w.drawdown + m.hitRate * w.hitRate
    + m.calibration * w.calibration + m.riskAdjusted * w.riskAdjusted + m.costAdjusted * w.costAdjusted
    + m.worstSlice * w.worstSlice
  }

  function RiskAdjusted(gains: seq<real>, deviation: seq<real> -> real): real
    requires gains != []
  {
    var volatility := if |gains| > 1 then deviation(gains) else 0.0;
    Max(-10.0, Min(10.0, Mean(gains) / Max(volatility, QUANTITY_TOLERANCE)))
  }

  function CorrectOf(samples: seq<Sample>): (r: seq<real>)
    ensures |r| == |samples|
  {
    seq(|samples|, i requires 0 <= i < |samples| => samples[i].correct)
  }

  function CalibrationOf(samples: seq<Sample>): (r: seq<real>)
    ensures |r| == |samples|
  {
    seq(|samples|, i requires 0 <= i < |samples| => samples[i].calibration)
  }

  lemma SomeSlice(gains: seq<real>)
    requires gains != []
    ensures SliceReturns(gains) != []
  {
  }

  /** `deviation` is the population standard deviation, which is not modelled. */
  function MetricsOf(samples: seq<Sample>, c: TeacherConfig, deviation: seq<real> -> real): Metrics
    requires samples != []
  {
    var gains := Gains(samples);
    var total, turnover := Growth(gains) - 1.0, Turnover(samples);
    SomeSlice(gains);
    var m := Metrics(
      |samples|, total, total - (Growth(Benchmarks(samples)) - 1.0), After(Compounded(gains)).drawdown,
      Mean(CorrectOf(samples)), Mean(CalibrationOf(samples)), RiskAdjusted(gains, deviation), turnover,
      total - turnover * c.turnoverBps / BPS, Least(SliceReturns(gains)), 0.0);
    m.(score := Score(m, c.weights))
  }

  predicate AllComplete(episodes: seq<Episode>) { forall e :: e in episodes ==> Complete(e) }

  /** The source's `evaluate_profile`; `None` where it raises. */
  function Evaluated(entries: seq<Entry>, episodes: seq<Episode>, c: TeacherConfig, deviation: seq<real> -> real): Option<Metrics>
  {
    var sorted := StableSort(episodes, AtOrBefore);
    if !AllComplete(sorted) then None
    else
      SelectBasics(sorted);
      var samples := SamplesOf(entries, Select(sorted).chosen);
      if samples.None? || samples.value == [] then None else Some(MetricsOf(samples.value, c, deviation))
  }

  /** The source's loop over the episodes, and the summary after it. */
  method EvaluateProfile(entries: seq<Entry>, episodes: seq<Episode>, c: TeacherConfig, deviation: seq<real> -> real)
    returns (metrics: Option<Metrics>)
    ensures metrics == Evaluated(entries, episodes, c, deviation)
  {
    hide MetricsOf, SampleOf, StableSort, Select, SamplesOf, Complete;
    var sorted := StableSort(episodes, AtOrBefore);
    if !AllComplete(sorted) {
      return None;
    }
    SelectBasics(sorted);
    NothingSampled(entries);
    var samples: seq<Sample> := [];
    var lastExit: Option<int> := None;
    ghost var chosen: seq<Episode> := [];
    for i := 0 to |sorted|
      invariant AllComplete(sorted[..i]) && Select(sorted[..i]) == Selection(chosen, lastExit)
      invariant forall e :: e in chosen ==> Complete(e)
      invariant SamplesOf(entries, chosen) == Some(samples)
    {
      var e := sorted[i];
      assert e in sorted;
      SelectSnoc(sorted, i);
      if lastExit.Some? && e.decisionAt < lastExit.value {
      } else {
        var sample := SampleOf(entries, e);
        SamplesSnoc(entries, chosen, e);
        chosen := chosen + [e];
        lastExit := Some(Ends(e));
        if sample.None? {
          StaysRefused(entries, sorted, i + 1);
          return None;
        }
        samples := samples + [sample.value];
      }
    }
    assert sorted[..|sorted|] == sorted;
    if samples == [] {
      return None;
    }
    metrics := Some(MetricsOf(samples, c, deviation));
  }

  // ---- the metrics' contract ----

  /** An episode's signals and council thresholds, as their contracts demand. */
  ghost predicate ValidRound(e: Episode)
  {
    ContractMet(e.signals) && 0.0 <= e.minimumConfidence <= 1.0 && 0.0 <= e.minimumConviction <= 1.0
  }

  /** What constructing the metrics demands of them. */
  predicate ValidMetrics(m: Metrics)
  {
    0.0 <= m.hitRate <= 1.0 && 0.0 <= m.calibration <= 1.0 && m.drawdown >= 0.0 && m.turnover >= 0.0
  }

  predicate FairSample(s: Sample)
  {
    -1.0 <= s.exposure <= 1.0 && 0.0 <= s.correct <= 1.0 && 0.0 <= s.calibration <= 1.0
  }

  lemma WeightInRange(entries: seq<Entry>, e: Episode, s: Signal)
    requires Librarian.ValidEntries(entries)
    ensures AgentWeight(entries, e, s) >= 0.0
  {
    hide Matched, ValidWeight, AdaptiveWeight.Effective, ScopeMatches, KeyAbove;
    var context := ContextOf(e, s.horizonBars);
    MatchedIsBest(entries, context, s.agentId);
    if s.agentId in Resolve(entries, context) {
      EffectiveInRange(Matched(entries, context)[s.agentId].weight);
    }
  }

  lemma EffectiveInRange(w: AdaptiveWeight)
    requires ValidWeight(w)
    ensures w.Effective() >= 0.0
  {
    assert w.longTerm * (1.0 - w.recentMix) >= 0.0 && w.recent * w.recentMix >= 0.0;
  }

  lemma {:induction false} WeightsInRange(entries: seq<Entry>, e: Episode, signals: seq<Signal>)
    requires Librarian.ValidEntries(entries)
    ensures forall a :: a in AgentWeights(entries, e, signals) ==> AgentWeights(entries, e, signals)[a] >= 0.0
  {
    hide AgentWeight;
    if signals != [] {
      WeightInRange(entries, e, signals[|signals| - 1]);
      WeightsInRange(entries, e, signals[..|signals| - 1]);
    }
  }

  /** What one episode contributes is in range: the council's decisions meet their contract. */
  lemma SampleIsFair(entries: seq<Entry>, e: Episode)
    requires Librarian.ValidEntries(entries) && ValidRound(e) && Complete(e)
    ensures SampleOf(entries, e).Some? ==> FairSample(SampleOf(entries, e).value)
  {
    hide Aggregate, AgentWeights, ContractMet, UniqueAgents, SourceFault, DirectionAgrees, Actionable;
    WeightsInRange(entries, e, e.signals);
    DecisionsMeetTheirContract(CouncilFor(entries, e), e.snapshot, e.signals);
  }

  lemma {:induction false} SamplesAreFair(entries: seq<Entry>, chosen: seq<Episode>)
    requires Librarian.ValidEntries(entries) && forall e :: e in chosen ==> ValidRound(e) && Complete(e)
    ensures SamplesOf(entries, chosen).Some? ==>
      |SamplesOf(entries, chosen).value| == |chosen| && forall s :: s in SamplesOf(entries, chosen).value ==> FairSample(s)
  {
    hide SampleOf, ValidRound, Complete, FairSample;
    if chosen != [] {
      var n := |chosen| - 1;
      assert chosen[n] in chosen;
      SamplesAreFair(entries, chosen[..n]);
      SampleIsFair(entries, chosen[n]);
    }
  }

  lemma {:induction false} SumInRange(values: seq<real>)
    requires forall x :: x in values ==> 0.0 <= x <= 1.0
    ensures 0.0 <= Sum(values) <= |values| as real
  {
    if values != [] {
      var rest := values[..|values| - 1];
      assert values[|values| - 1] in values && forall x :: x in rest ==> x in values;
      SumInRange(rest);
    }
  }

  lemma MeanInRange(values: seq<real>)
    requires values != [] && forall x :: x in values ==> 0.0 <= x <= 1.0
    ensures 0.0 <= Mean(values) <= 1.0
  {
    SumInRange(values);
    QuotientBounds(0.0, Sum(values), 1.0, |values| as real);
  }

  /** Moving between exposures of at most one costs at most two each time, and one from flat. */
  lemma {:induction false} TurnoverInRange(samples: seq<Sample>)
    requires samples != [] && forall s :: s in samples ==> FairSample(s)
    ensures 0.0 <= Turnover(samples) <= 2.0 * |samples| as real - 1.0
  {
    var n := |samples| - 1;
    assert samples[n] in samples;
    if n > 0 {
      assert samples[n - 1] in samples;
      TurnoverInRange(samples[..n]);
    } else {
      assert Turnover(samples[..0]) == 0.0;
    }
  }

  lemma {:induction false} DrawdownIsNotNegative(curve: seq<real>)
    requires |curve| > 0 && curve[0] > 0.0
    ensures After(curve).drawdown >= 0.0
  {
    if |curve| > 1 {
      DrawdownIsNotNegative(curve[..|curve| - 1]);
    }
  }

  /** Whatever the episodes and the profile, the metrics are never refused: hit rate and calibration error
      are fractions, drawdown and turnover are not negative; and turnover and the risk-adjusted return
      stay in known bounds. */
  lemma MetricsMeetTheirContract(entries: seq<Entry>, episodes: seq<Episode>, c: TeacherConfig, deviation: seq<real> -> real)
    requires Librarian.ValidEntries(entries) && forall e :: e in episodes ==> ValidRound(e)
    ensures var m := Evaluated(entries, episodes, c, deviation);
      m.Some? ==>
        && ValidMetrics(m.value) && m.value.count > 0
        && m.value.turnover <= 2.0 * m.value.count as real - 1.0 && -10.0 <= m.value.riskAdjusted <= 10.0
  {
    hide StableSort, Select, SamplesOf, Complete, ValidRound, MetricsOf, ValidMetrics;
    var sorted := StableSort(episodes, AtOrBefore);
    if AllComplete(sorted) {
      SortMembers(episodes, AtOrBefore);
      SelectBasics(sorted);
      var chosen := Select(sorted).chosen;
      SamplesAreFair(entries, chosen);
      var samples := SamplesOf(entries, chosen);
      if samples.Some? && samples.value != [] {
        MetricsInRange(samples.value, c, deviation);
      }
    }
  }

  lemma MetricsInRange(samples: seq<Sample>, c: TeacherConfig, deviation: seq<real> -> real)
    requires samples != [] && forall s :: s in samples ==> FairSample(s)
    ensures var m := MetricsOf(samples, c, deviation);
      && ValidMetrics(m) && m.count == |samples| > 0
      && m.turnover <= 2.0 * m.count as real - 1.0 && -10.0 <= m.riskAdjusted <= 10.0
  {
    hide Turnover, Mean, Score, After, Compounded, Growth, Least, SliceReturns, Gains, Benchmarks;
    TurnoverInRange(samples);
    FairValues(samples);
    MeanInRange(CorrectOf(samples));
    MeanInRange(CalibrationOf(samples));
    DrawdownIsNotNegative(Compounded(Gains(samples)));
  }

  lemma FairValues(samples: seq<Sample>)
    requires forall s :: s in samples ==> FairSample(s)
    ensures forall x :: x in CorrectOf(samples) ==> 0.0 <= x <= 1.0
    ensures forall x :: x in CalibrationOf(samples) ==> 0.0 <= x <= 1.0
  {
    assert forall i :: 0 <= i < |samples| ==> samples[i] in samples;
  }

  lemma NothingSampled(entries: seq<Entry>)
    ensures Select([]) == Selection([], None) && SamplesOf(entries, []) == Some([])
  {
  }

  lemma SelectSnoc(sorted: seq<Episode>, i: nat)
    requires i < |sorted| && AllComplete(sorted) && AllComplete(sorted[..i])
    ensures AllComplete(sorted[..i + 1]) && Complete(sorted[i])
    ensures var before, e := Select(sorted[..i]), sorted[i];
      Select(sorted[..i + 1]) ==
        if before.lastExit.Some? && e.decisionAt < before.lastExit.value then before
        else Selection(before.chosen + [e], Some(Ends(e)))
  {
    assert sorted[i] in sorted;
    assert sorted[..i + 1][..i] == sorted[..i];
    assert forall e :: e in sorted[..i + 1] ==> e in sorted;
  }

  lemma SamplesSnoc(entries: seq<Entry>, chosen: seq<Episode>, e: Episode)
    requires (forall x :: x in chosen ==> Complete(x)) && Complete(e)
    ensures forall x :: x in chosen + [e] ==> Complete(x)
    ensures SamplesOf(entries, chosen + [e]) ==
      if SamplesOf(entries, chosen).None? || SampleOf(entries, e).None? then None
      else Some(SamplesOf(entries, chosen).value + [SampleOf(entries, e).value])
  {
    assert (chosen + [e])[..|chosen|] == chosen;
  }

  lemma {:induction false} StaysRefused(entries: seq<Entry>, sorted: seq<Episode>, n: nat)
    requires n <= |sorted| && AllComplete(sorted) && AllComplete(sorted[..n])
    requires (forall e :: e in Select(sorted[..n]).chosen ==> Complete(e)) && SamplesOf(entries, Select(sorted[..n]).chosen).None?
    ensures (forall e :: e in Select(sorted).chosen ==> Complete(e)) && SamplesOf(entries, Select(sorted).chosen).None?
    decreases |sorted| - n
  {
    hide SampleOf;
    if n == |sorted| {
      assert sorted[..n] == sorted;
    } else {
      var m := sorted[..n + 1];
      assert m[..n] == sorted[..n];
      assert sorted[n] in sorted;
      assert forall e :: e in m ==> e in sorted;
      SelectBasics(m);
      if Select(m) != Select(sorted[..n]) {
        assert Select(m).chosen[..|Select(m).chosen| - 1] == Select(sorted[..n]).chosen;
      }
      StaysRefused(entries, sorted, n + 1);
    }
  }

  // ---- what the evaluation depends on ----

  /** Evaluating the selected episodes alone gives the same metrics. */
  lemma SelectionSuffices(entries: seq<Entry>, episodes: seq<Episode>, c: TeacherConfig, deviation: seq<real> -> real)
    requires AllComplete(episodes)
    ensures AllComplete(StableSort(episodes, AtOrBefore))
    ensures Evaluated(entries, Select(StableSort(episodes, AtOrBefore)).chosen, c, deviation)
         == Evaluated(entries, episodes, c, deviation)
  {
    hide MetricsOf, SamplesOf;
    var sorted := StableSort(episodes, AtOrBefore);
    SortMembers(episodes, AtOrBefore);
    EpisodeOrder();
    SortSorted(episodes, AtOrBefore);
    ChosenDoNotOverlap(sorted);
    SelectionIsStable(sorted);
    SortOfSorted(Select(sorted).chosen, AtOrBefore);
  }

  /** The order of the episodes does not matter. */
  lemma OrderOfHeldOutIsIrrelevant(entries: seq<Entry>, a: seq<Episode>, b: seq<Episode>, c: TeacherConfig, deviation: seq<real> -> real)
    requires NoTies(a, AtOrBefore) && NoTies(b, AtOrBefore) && multiset(a) == multiset(b)
    ensures Evaluated(entries, a, c, deviation) == Evaluated(entries, b, c, deviation)
  {
    hide MetricsOf, SamplesOf, Select;
    EpisodeOrder();
    SortStrict(a, AtOrBefore);
    SortStrict(b, AtOrBefore);
    SameMembers(StableSort(a, AtOrBefore), StableSort(b, AtOrBefore));
    SortedUnique(StableSort(a, AtOrBefore), StableSort(b, AtOrBefore), Strict(AtOrBefore));
  }

  /** At most one of an episode's asset class, symbol and regime is the empty text. */
  ghost predicate NamedEpisode(e: Episode)
  {
    forall s :: s in e.signals ==> EmptyTexts(ContextOf(e, s.horizonBars)) <= 1
  }

  lemma {:induction false} SameAgentWeights(entries: seq<Entry>, others: seq<Entry>, e: Episode, signals: seq<Signal>)
    requires UniqueEntries(entries) && (forall x :: x in entries <==> x in others)
    requires forall s :: s in signals ==> EmptyTexts(ContextOf(e, s.horizonBars)) <= 1
    ensures AgentWeights(entries, e, signals) == AgentWeights(others, e, signals)
  {
    hide Resolve, UniqueEntries, EmptyTexts;
    if signals != [] {
      var n := |signals| - 1;
      assert signals[n] in signals;
      SameAgentWeights(entries, others, e, signals[..n]);
      OrderOfEntriesIsIrrelevant(entries, others, ContextOf(e, signals[n].horizonBars));
    }
  }

  lemma {:induction false} SameSamples(entries: seq<Entry>, others: seq<Entry>, chosen: seq<Episode>)
    requires UniqueEntries(entries) && (forall x :: x in entries <==> x in others)
    requires forall e :: e in chosen ==> Complete(e) && NamedEpisode(e)
    ensures SamplesOf(entries, chosen) == SamplesOf(others, chosen)
  {
    hide UniqueEntries, AgentWeights, Aggregate;
    if chosen != [] {
      var n := |chosen| - 1;
      assert chosen[n] in chosen;
      SameSamples(entries, others, chosen[..n]);
      SameAgentWeights(entries, others, chosen[n], chosen[n].signals);
    }
  }

  /** Nor does the order of the profile's entries, when no context holds two empty texts. */
  lemma OrderOfWeightsIsIrrelevant(entries: seq<Entry>, others: seq<Entry>, episodes: seq<Episode>, c: TeacherConfig, deviation: seq<real> -> real)
    requires UniqueEntries(entries) && (forall x :: x in entries <==> x in others)
    requires forall e :: e in episodes ==> NamedEpisode(e)
    ensures Evaluated(entries, episodes, c, deviation) == Evaluated(others, episodes, c, deviation)
  {
    hide MetricsOf, SamplesOf, UniqueEntries, NamedEpisode;
    var sorted := StableSort(episodes, AtOrBefore);
    SortMembers(episodes, AtOrBefore);
    if AllComplete(sorted) {
      SelectBasics(sorted);
      SameSamples(entries, others, Select(sorted).chosen);
    }
  }

  // ---- the verdict ----

  predicate Passes(baseline: Metrics, proposed: Metrics, c: TeacherConfig)
  {
    && proposed.score >= baseline.score + c.minimumImprovement
    && proposed.worstSlice >= baseline.worstSlice - c.maximumDegradation
  }

  datatype Ruling = Accept | AcceptReduced | Reject

  datatype TeacherResult = TeacherResult(ruling: Ruling, baseline: Metrics, proposed: Metrics, accepted: seq<Change>)

  function Reevaluated(base: seq<Entry>, changes: seq<Change>, episodes: seq<Episode>, c: TeacherConfig, deviation: seq<real> -> real): Option<Metrics>
  {
    var applied := ApplyChanges(base, changes);
    if applied.None? then None else Evaluated(applied.value, episodes, c, deviation)
  }

  function Rule(base: seq<Entry>, changes: seq<Change>, episodes: seq<Episode>, c: TeacherConfig, deviation: seq<real> -> real): Option<TeacherResult>
  {
    var baseline := Evaluated(base, episodes, c, deviation);
    if baseline.None? || baseline.value.count < c.minimumHeldOut then None
    else
      var proposed := Reevaluated(base, changes, episodes, c, deviation);
      if proposed.None? then None
      else if changes != [] && Passes(baseline.value, proposed.value, c) then
        Some(TeacherResult(Accept, baseline.value, proposed.value, changes))
      else
        var reduced := Reevaluated(base, ReducedChanges(changes), episodes, c, deviation);
        if reduced.None? then None
        else if changes != [] && Passes(baseline.value, reduced.value, c) then
          Some(TeacherResult(AcceptReduced, baseline.value, reduced.value, ReducedChanges(changes)))
        else Some(TeacherResult(Reject, baseline.value, proposed.value, []))
  }

  datatype Proposal = Proposal(
    base: nat, createdAt: int, cutoff: int, trainingIds: seq<int>, trainingClasses: seq<int>, changes: seq<Change>)

  function TrainingClasses(p: Proposal): seq<int> { if p.trainingClasses == [] then p.trainingIds else p.trainingClasses }

  predicate HeldOut(p: Proposal, e: Episode, evaluatedAt: int)
  {
    && e.equivalence !in TrainingClasses(p) && e.id !in p.trainingIds
    && e.decisionAt >= p.cutoff && e.truth.Some? && e.truth.value.availableAt <= evaluatedAt
  }

  /** The source's `Teacher.evaluate`; `None` where it raises. */
  function Evaluate(base: WeightStore.Profile, p: Proposal, heldOut: seq<Episode>, evaluatedAt: int, c: TeacherConfig, deviation: seq<real> -> real): Option<TeacherResult>
  {
    var trials := IndependentTrials(heldOut);
    if p.base != base.generation || p.createdAt > evaluatedAt || |trials| < c.minimumHeldOut then None
    else if exists e :: e in trials && !HeldOut(p, e, evaluatedAt) then None
    else Rule(base.entries, p.changes, trials, c, deviation)
  }

  /** What is accepted was validated: applied to the base it gives a profile whose held-out metrics
      are the ones reported, and they beat the baseline's within the allowed degradation. */
  lemma AcceptedWasValidated(base: seq<Entry>, changes: seq<Change>, episodes: seq<Episode>, c: TeacherConfig, deviation: seq<real> -> real)
    requires Rule(base, changes, episodes, c, deviation).Some?
    ensures var r := Rule(base, changes, episodes, c, deviation).value;
      && Evaluated(base, episodes, c, deviation) == Some(r.baseline)
      && (r.ruling.Reject? <==> r.accepted == [])
      && (!r.ruling.Reject? ==>
            ApplyChanges(base, r.accepted).Some?
            && Evaluated(ApplyChanges(base, r.accepted).value, episodes, c, deviation) == Some(r.proposed)
            && Passes(r.baseline, r.proposed, c))
  {
    hide Evaluated, ApplyChanges, Passes;
  }

  /** From proposal to active generation: a completed promotion of what the Teacher accepted activates
      exactly the profile it validated on the held-out trials. */
  lemma PromotedWasValidated(
    s: WeightStore.StoreState, x: WeightStore.Promotion, writes: nat, p: Proposal, heldOut: seq<Episode>, evaluatedAt: int,
    c: TeacherConfig, deviation: seq<real> -> real)
    requires WeightStore.StoreValid(s) && WeightStore.Apply(s, WeightStore.Promote(x), writes).ending.Completed?
    requires Evaluate(x.base, p, heldOut, evaluatedAt, c, deviation).Some?
    requires x.accepted == Evaluate(x.base, p, heldOut, evaluatedAt, c, deviation).value.accepted
    requires x.rejected == Evaluate(x.base, p, heldOut, evaluatedAt, c, deviation).value.ruling.Reject?
    ensures var r := Evaluate(x.base, p, heldOut, evaluatedAt, c, deviation).value;
      var after := WeightStore.Apply(s, WeightStore.Promote(x), writes).state;
      && after.active.Some? && after.active.value in after.profiles
      && Evaluated(after.profiles[after.active.value].entries, IndependentTrials(heldOut), c, deviation) == Some(r.proposed)
      && Evaluated(x.base.entries, IndependentTrials(heldOut), c, deviation) == Some(r.baseline)
      && Passes(r.baseline, r.proposed, c)
  {
    hide Evaluated, ApplyChanges, Passes, Rule;
    AcceptedWasValidated(x.base.entries, p.changes, IndependentTrials(heldOut), c, deviation);
  }

  /** No outcome leaks from evaluation into training: with one cutoff for both, every truth the
      Librarian learned from was available strictly before every held-out decision. */
  lemma NothingLeaks(
    base: WeightStore.Profile, p: Proposal, episodes: seq<Episode>, scope: Scope, heldOut: seq<Episode>, evaluatedAt: int,
    c: TeacherConfig, deviation: seq<real> -> real)
    requires Evaluate(base, p, heldOut, evaluatedAt, c, deviation).Some?
    ensures forall t, e :: t in Librarian.Eligible(episodes, scope, p.cutoff) && e in IndependentTrials(heldOut) ==>
      t.truth.Some? && t.truth.value.availableAt < e.decisionAt && t.decisionAt < e.decisionAt
  {
    hide Rule;
    Librarian.EligibleAreJudged(episodes, scope, p.cutoff);
    forall e | e in IndependentTrials(heldOut)
      ensures e.decisionAt >= p.cutoff
    {
      assert HeldOut(p, e, evaluatedAt);
    }
  }
}
