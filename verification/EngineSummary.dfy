/** The measures after the loop: when they meet their contract. */
module EngineSummary {
  import opened Sequences
  import opened Trading
  import opened Paper
  import opened Governor
  import opened Outcomes
  import opened Engine
  import Drawdown

  // ---- costs and turnover only grow ----

  predicate CostsInRange(s: RunState)
  {
    s.totals.fees >= 0.0 && s.totals.slippage >= 0.0 && Traded(s.events) >= 0.0
  }

  predicate PositiveFill(report: Option<ExecutionReport>)
  {
    report.Some? && report.value.outcome.Filled? ==> report.value.quantity > 0.0 && report.value.outcome.fillPrice > 0.0
  }

  lemma FeeInRange(a: Account, order: ApprovedOrder, fillPrice: real)
    requires ValidAccount(a) && order.quantity > 0.0 && fillPrice > 0.0
    ensures FillFee(a, order, fillPrice) >= 0.0
  {
    assert order.quantity * fillPrice > 0.0;
    assert (order.quantity * fillPrice) * a.feeBps >= 0.0;
  }

  lemma FillInRange(a: Account, order: ApprovedOrder, opening: OpeningPrice, submittedAt: int)
    requires ValidAccount(a) && order.quantity > 0.0 && order.referencePrice > 0.0
    ensures var report := Executed(a, order, opening, submittedAt).report;
      PositiveFill(report) && (report.Some? && report.value.outcome.Filled? ==> report.value.fee >= 0.0)
  {
    hide ValidAccount, FillPrice, AdverseSlippage, CashAfter, PositionsAfter, BuildState, RejectionReason, FillFee, NewQuantity,
         StrictlyReduces, CurrentQuantity;
    if FillPrice(a, order, opening) > 0.0 {
      FeeInRange(a, order, FillPrice(a, order, opening));
    }
  }

  lemma OpeningCosts(c: BacktestConfig, s: RunState, k: Tick)
    requires Sound(s) && s.totals.fees >= 0.0 && s.totals.slippage >= 0.0
    ensures AtOpening(c, s, k).Fine? ==>
      var o := AtOpening(c, s, k).value;
      PositiveFill(o.report) && o.totals.fees >= 0.0 && o.totals.slippage >= 0.0
  {
    hide Executed, ReconcileReasons, PublicOf, ValidAccount, Applied, ValidOrder;
    if s.pending.Some? && k.open.Some? && k.time > s.pending.value.authorizedAt {
      var order := s.pending.value;
      OrderIsPositive(order);
      FillInRange(s.account, order, OpeningFor(c, k.time, k.open.value), order.authorizedAt);
      var report := Executed(s.account, order, OpeningFor(c, k.time, k.open.value), order.authorizedAt).report;
      if report.Some? && report.value.outcome.Filled? {
        assert report.value.quantity * Abs(report.value.outcome.fillPrice - k.open.value) >= 0.0;
      }
    }
  }

  lemma MoreTraded(events: seq<LedgerEvent>, e: LedgerEvent)
    requires Traded(events) >= 0.0 && PositiveFill(e.report)
    ensures Traded(events + [e]) >= 0.0
  {
    assert (events + [e])[..|events|] == events;
  }

  lemma StepKeepsCosts(setup: Setup, s: RunState, k: Tick)
    requires Sound(s) && CostsInRange(s) && ValidTick(k) && setup.config.cadence >= 1
    ensures StepAt(setup, s, k).Fine? ==> CostsInRange(StepAt(setup, s, k).value)
  {
    hide AtOpening, SelectMark, MarkAccount, DecideAt, PublicOf, Future, ValidTick, Traded, ValidAccount, PositiveFill;
    OpeningCosts(setup.config, s, k);
    var step := StepAt(setup, s, k);
    if step.Fine? {
      MoreTraded(s.events, step.value.events[|s.events|]);
    }
  }

  lemma SoundIsWellFormed(s: RunState)
    requires Sound(s)
    ensures WellFormed(s)
  {
  }

  /** Whatever happens in a replay, fees, slippage and turnover are never negative. */
  lemma {:induction false} RunKeepsCosts(setup: Setup, s: RunState, ticks: seq<Tick>)
    requires Sound(s) && CostsInRange(s) && AllValid(ticks) && setup.config.cadence >= 1
    ensures RunTicks(setup, s, ticks).Fine? ==> Sound(RunTicks(setup, s, ticks).value) && CostsInRange(RunTicks(setup, s, ticks).value)
    decreases |ticks|
  {
    hide StepAt, Sound, CostsInRange, ValidTick, ValidOrder;
    SoundIsWellFormed(s);
    if ticks != [] {
      var n := |ticks| - 1;
      RunKeepsCosts(setup, s, ticks[..n]);
      var before := RunTicks(setup, s, ticks[..n]);
      if before.Fine? {
        StepKeepsSound(setup, before.value, ticks[n]);
        StepKeepsCosts(setup, before.value, ticks[n]);
      }
    }
  }

  lemma NewRunIsSound(c: BacktestConfig, openedAt: int)
    requires ValidConfig(c)
    ensures Sound(NewRun(c, openedAt)) && CostsInRange(NewRun(c, openedAt))
  {
  }

  // ---- what is left to check ----

  predicate SomethingAvailable(bars: seq<Bar>, t: int) { exists b :: b in bars && b.availableAt <= t }

  lemma VisibleMeans(bars: seq<Bar>, t: int)
    ensures Visible(bars, t) != [] <==> SomethingAvailable(bars, t)
  {
    var visible := Visible(bars, t);
    if visible != [] {
      assert visible[0] in visible;
    }
    if SomethingAvailable(bars, t) {
      var b :| b in bars && b.availableAt <= t;
      assert b in visible;
    }
  }

  /** No measured event shows a negative equity. */
  predicate NeverNegative(events: seq<LedgerEvent>)
  {
    forall i :: 0 <= i < |events| && events[i].measured ==> events[i].portfolio.equity >= 0.0
  }

  predicate NonNegative(values: seq<real>)
  {
    forall i :: 0 <= i < |values| ==> values[i] >= 0.0
  }

  lemma {:induction false} CurveIsNonNegative(startingCash: real, events: seq<LedgerEvent>)
    requires startingCash > 0.0
    ensures NonNegative(EquityCurve(startingCash, events)) <==> NeverNegative(events)
  {
    if events != [] {
      var n := |events| - 1;
      CurveIsNonNegative(startingCash, events[..n]);
      var before, curve := EquityCurve(startingCash, events[..n]), EquityCurve(startingCash, events);
      assert forall i :: 0 <= i < |before| ==> before[i] == curve[i];
      assert NeverNegative(events) <==> NeverNegative(events[..n]) && (events[n].measured ==> events[n].portfolio.equity >= 0.0);
      assert events[n].measured ==> curve[|before|] == events[n].portfolio.equity;
    }
  }

  lemma ExposureInRange(p: Portfolio)
    requires p.equity >= 0.0
    ensures ExposureOf(p) >= 0.0
  {
  }

  lemma {:induction false} SamplesAreNonNegative(events: seq<LedgerEvent>)
    requires NeverNegative(events)
    ensures NonNegative(ExposureSamples(events))
  {
    hide ExposureOf;
    if events != [] {
      var n := |events| - 1;
      SamplesAreNonNegative(events[..n]);
      if events[n].measured {
        ExposureInRange(events[n].portfolio);
      }
    }
  }

  lemma {:induction false} SumInRange(values: seq<real>)
    requires NonNegative(values)
    ensures SumOf(values) >= 0.0 && AverageOf(values) >= 0.0
  {
    if values != [] {
      SumInRange(values[..|values| - 1]);
    }
  }

  lemma QuotientInRange(x: real, y: real)
    requires x >= 0.0 && y > 0.0
    ensures x / y >= 0.0
  {
  }

  /** The measures meet their contract exactly when no measured equity is negative. */
  lemma MetricsAreValid(startingCash: real, s: RunState)
    requires startingCash > 0.0 && CostsInRange(s)
    ensures ValidMetrics(MetricsOf(startingCash, s)) <==> NeverNegative(s.events)
  {
    hide EquityCurve, ExposureSamples, SumOf, AverageOf, Traded, Drawdown.After, NeverNegative;
    var curve := EquityCurve(startingCash, s.events);
    Drawdown.DrawdownIsAFraction(curve);
    CurveIsNonNegative(startingCash, s.events);
    QuotientInRange(Traded(s.events), startingCash);
    if NeverNegative(s.events) {
      SamplesAreNonNegative(s.events);
      SumInRange(ExposureSamples(s.events));
    }
  }

  /** The summary of a replay that left no order: the three ways it can go. */
  lemma SummaryDecides(c: BacktestConfig, bars: seq<Bar>, s: RunState)
    requires c.startingCash > 0.0 && CostsInRange(s) && s.pending.None?
    ensures Summarized(c, bars, s) ==
      if !SomethingAvailable(bars, c.end) then Raised(NoEndSnapshot)
      else if !NeverNegative(s.events) then Raised(InvalidMetrics)
      else Fine(s)
  {
    hide ValidMetrics, MetricsOf, Visible, NeverNegative, SomethingAvailable;
    VisibleMeans(bars, c.end);
    MetricsAreValid(c.startingCash, s);
  }
}
