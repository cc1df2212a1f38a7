/** The market mark: at every event of a replay, the newest price observable by then. */
module EngineMarks {
  import opened Sequences
  import opened Trading
  import opened Engine
  import opened EngineCausality

  // ---- the newest observation, from scratch ----

  /** The latest opening among the events so far. */
  function NewestOpening(c: BacktestConfig, ticks: seq<Tick>): Option<MarketMark>
  {
    if ticks == [] then None
    else
      var k := ticks[|ticks| - 1];
      if k.open.Some? then Some(MarketMark(c.symbol, k.open.value, k.time, k.time)) else NewestOpening(c, ticks[..|ticks| - 1])
  }

  /** The close of the last bar available at the last event. */
  function NewestClose(ticks: seq<Tick>): Option<MarketMark>
    requires AllValid(ticks)
  {
    if ticks == [] || ticks[|ticks| - 1].snapshot.None? then None
    else Some(CompletedMark(ticks[|ticks| - 1].snapshot.value))
  }

  /** Whichever is newer in market time, the opening when they tie. */
  function Newest(opening: Option<MarketMark>, close: Option<MarketMark>): Option<MarketMark>
  {
    if opening.Some? && (close.None? || opening.value.marketTime >= close.value.marketTime) then opening else close
  }

  // ---- the last available bar only moves forward ----

  lemma LastMovesForward(bars: seq<Bar>, u: int, t: int)
    requires ValidHistory(bars) && u <= t && Visible(bars, u) != []
    ensures Visible(bars, t) != []
    ensures var x, y := Visible(bars, u)[|Visible(bars, u)| - 1], Visible(bars, t)[|Visible(bars, t)| - 1];
      x == y || x.closedAt < y.closedAt
  {
    hide ValidBar;
    var a, b := Visible(bars, u), Visible(bars, t);
    var x := a[|a| - 1];
    assert x in a;
    assert x in b;
    HistoryIsSorted(bars);
    FilterSorted(bars, AvailableBy(t), OpensBefore);
    var y := b[|b| - 1];
    assert y in b;
    var i :| 0 <= i < |b| && b[i] == x;
    if i < |b| - 1 {
      assert OpensBefore(b[i], y);
      BarsAbut(bars, x, y);
    }
  }

  lemma BarsAbut(bars: seq<Bar>, x: Bar, y: Bar)
    requires ValidHistory(bars) && x in bars && y in bars && OpensBefore(x, y)
    ensures x.closedAt < y.closedAt
  {
    hide ValidBar;
    HistoryIsSorted(bars);
    var i :| 0 <= i < |bars| && bars[i] == x;
    var j :| 0 <= j < |bars| && bars[j] == y;
    assert i < j;
    assert ValidBar(bars[j]);
    BarIsOrdered(bars[j]);
  }

  /** The close that counts at a later event is the same one or a strictly newer one. */
  ghost predicate CloseMovesOn(before: Option<MarketMark>, after: Option<MarketMark>)
  {
    before.Some? ==> after.Some? && (after == before || before.value.marketTime < after.value.marketTime)
  }

  lemma ClosesMoveOn(c: BacktestConfig, bars: seq<Bar>, u: int, t: int)
    requires ValidHistory(bars) && u <= t
    ensures ValidTick(TickAt(c, bars, u)) && ValidTick(TickAt(c, bars, t))
    ensures CloseMovesOn(NewestClose([TickAt(c, bars, u)]), NewestClose([TickAt(c, bars, t)]))
  {
    hide ValidBar, ValidHistory, Visible, OpenAt;
    TickIsValid(c, bars, u);
    TickIsValid(c, bars, t);
    if Visible(bars, u) != [] {
      LastMovesForward(bars, u, t);
    }
  }

  // ---- one selection ----

  lemma SelectsNewest(c: BacktestConfig, opening: Option<MarketMark>, before: Option<MarketMark>, k: Tick)
    requires ValidTick(k) && (opening.Some? ==> opening.value.marketTime < k.time)
    requires AllValid([k]) && CloseMovesOn(before, NewestClose([k]))
    ensures SelectMark(c, Newest(opening, before), k)
         == Newest(if k.open.Some? then Some(MarketMark(c.symbol, k.open.value, k.time, k.time)) else opening, NewestClose([k]))
  {
  }

  lemma {:induction false} OpeningIsEarlier(c: BacktestConfig, ticks: seq<Tick>, t: int)
    requires forall i :: 0 <= i < |ticks| ==> ticks[i].time < t
    ensures NewestOpening(c, ticks).Some? ==> NewestOpening(c, ticks).value.marketTime < t
  {
    if ticks != [] {
      OpeningIsEarlier(c, ticks[..|ticks| - 1], t);
    }
  }

  lemma StepSelects(setup: Setup, s: RunState, k: Tick)
    requires WellFormed(s) && ValidTick(k) && setup.config.cadence >= 1
    ensures StepAt(setup, s, k).Fine? ==> StepAt(setup, s, k).value.mark == SelectMark(setup.config, s.mark, k)
  {
    hide AtOpening, SelectMark, MarkAccount, DecideAt, PublicOf, Future, EventOf, ValidOrder, ValidTick;
  }

  /** After any number of events the engine's mark, chosen step by step, is the newest market
      observation there is: the latest opening or the latest available close, whichever is later in
      market time, however late the close was published. */
  lemma {:induction false} MarkIsNewest(setup: Setup, bars: seq<Bar>, s: RunState, times: seq<int>)
    requires ValidHistory(bars) && setup.config.cadence >= 1 && Sorted(times, Below) && WellFormed(s) && s.mark.None?
    ensures AllValid(TicksAt(setup.config, bars, times))
    ensures var ticks := TicksAt(setup.config, bars, times);
      RunTicks(setup, s, ticks).Fine? ==>
        RunTicks(setup, s, ticks).value.mark == Newest(NewestOpening(setup.config, ticks), NewestClose(ticks))
    decreases |times|
  {
    hide StepAt, ValidHistory, ValidTick, ValidOrder, SelectMark, TickAt, CompletedMark;
    var c := setup.config;
    TicksAreValid(c, bars, times);
    if times != [] {
      var n := |times| - 1;
      var ticks := TicksAt(c, bars, times);
      assert ticks[..n] == TicksAt(c, bars, times[..n]);
      MarkIsNewest(setup, bars, s, times[..n]);
      if RunTicks(setup, s, ticks).Fine? {
        StepSelects(setup, RunTicks(setup, s, ticks[..n]).value, ticks[n]);
        TimesOfTicks(c, bars, times);
        OpeningIsEarlier(c, ticks[..n], ticks[n].time);
        PreviousClose(c, bars, times);
        SelectsNewest(c, NewestOpening(c, ticks[..n]), NewestClose(ticks[..n]), ticks[n]);
      }
    }
  }

  lemma TimesOfTicks(c: BacktestConfig, bars: seq<Bar>, times: seq<int>)
    requires Sorted(times, Below) && times != []
    ensures var ticks := TicksAt(c, bars, times);
      forall i :: 0 <= i < |times| - 1 ==> ticks[i].time < ticks[|times| - 1].time
  {
    forall i | 0 <= i < |times| - 1
      ensures times[i] < times[|times| - 1]
    {
      assert Below(times[i], times[|times| - 1]);
    }
  }

  lemma PreviousClose(c: BacktestConfig, bars: seq<Bar>, times: seq<int>)
    requires ValidHistory(bars) && Sorted(times, Below) && times != []
    ensures var ticks := TicksAt(c, bars, times);
      var n := |times| - 1;
      && AllValid(ticks) && AllValid(ticks[..n]) && AllValid([ticks[n]])
      && CloseMovesOn(NewestClose(ticks[..n]), NewestClose([ticks[n]])) && NewestClose(ticks) == NewestClose([ticks[n]])
  {
    hide ValidHistory, ValidTick, TickAt, CompletedMark;
    TicksAreValid(c, bars, times);
    var n := |times| - 1;
    if n > 0 {
      assert Below(times[n - 1], times[n]);
      ClosesMoveOn(c, bars, times[n - 1], times[n]);
    }
  }
}
