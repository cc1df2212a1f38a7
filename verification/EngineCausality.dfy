/** No look-ahead: what a replay writes up to a moment depends only on what was observable then. */
module EngineCausality {
  import opened Sequences
  import opened Trading
  import opened Council
  import opened Governor
  import opened Engine

  // ---- two histories that look alike up to `t` ----

  predicate OpensWith(bars: seq<Bar>, at: int, price: real)
  {
    exists b :: b in bars && b.openedAt == at && b.open == price
  }

  /** Whole bars only once available; of a bar that has opened but is not yet available, only the
      opening time and the opening price. */
  ghost predicate AgreeUpTo(a: seq<Bar>, b: seq<Bar>, t: int)
  {
    && (forall x: Bar :: x.availableAt <= t ==> (x in a <==> x in b))
    && (forall at, price :: at <= t ==> (OpensWith(a, at, price) <==> OpensWith(b, at, price)))
  }

  lemma AgreementIsSymmetric(a: seq<Bar>, b: seq<Bar>, t: int)
    requires AgreeUpTo(a, b, t)
    ensures AgreeUpTo(b, a, t)
  {
  }

  lemma HistoryIsSorted(bars: seq<Bar>)
    requires ValidHistory(bars)
    ensures Sorted(bars, OpensBefore)
    ensures forall i, j :: 0 <= i < |bars| && 0 <= j < |bars| && bars[i].openedAt == bars[j].openedAt ==> i == j
  {
    hide ValidBar;
    forall i, j | 0 <= i < j < |bars|
      ensures bars[i].openedAt < bars[j].openedAt
    {
      assert ValidBar(bars[i]);
      BarIsOrdered(bars[i]);
    }
  }

  lemma BarIsOrdered(b: Bar)
    requires ValidBar(b)
    ensures b.openedAt < b.closedAt <= b.availableAt
  {
  }

  lemma SameVisible(a: seq<Bar>, b: seq<Bar>, t: int, u: int)
    requires ValidHistory(a) && ValidHistory(b) && AgreeUpTo(a, b, t) && u <= t
    ensures Visible(a, u) == Visible(b, u)
  {
    HistoryIsSorted(a);
    HistoryIsSorted(b);
    FilterSorted(a, AvailableBy(u), OpensBefore);
    FilterSorted(b, AvailableBy(u), OpensBefore);
    SortedUnique(Visible(a, u), Visible(b, u), OpensBefore);
  }

  lemma {:induction false} OpenAtMeans(bars: seq<Bar>, u: int)
    ensures OpenAt(bars, u).Some? <==> OpensAt(bars, u)
    ensures OpenAt(bars, u).Some? ==> OpensWith(bars, u, OpenAt(bars, u).value)
  {
    if bars != [] {
      var n := |bars| - 1;
      OpenAtMeans(bars[..n], u);
      assert bars == bars[..n] + [bars[n]];
      assert bars[n] in bars;
      if bars[n].openedAt != u {
        assert OpensAt(bars, u) <==> OpensAt(bars[..n], u);
      }
    }
  }

  lemma OneOpening(bars: seq<Bar>, u: int, p: real, q: real)
    requires ValidHistory(bars) && OpensWith(bars, u, p) && OpensWith(bars, u, q)
    ensures p == q
  {
    HistoryIsSorted(bars);
    var x :| x in bars && x.openedAt == u && x.open == p;
    var y :| y in bars && y.openedAt == u && y.open == q;
    var i :| 0 <= i < |bars| && bars[i] == x;
    var j :| 0 <= j < |bars| && bars[j] == y;
  }

  lemma SameOpening(a: seq<Bar>, b: seq<Bar>, t: int, u: int)
    requires ValidHistory(a) && ValidHistory(b) && AgreeUpTo(a, b, t) && u <= t
    ensures OpenAt(a, u) == OpenAt(b, u)
  {
    hide ValidHistory;
    OpenAtMeans(a, u);
    OpenAtMeans(b, u);
    SameOpens(a, b, t, u);
    if OpenAt(a, u).Some? {
      assert OpensWith(b, u, OpenAt(a, u).value);
      OneOpening(b, u, OpenAt(a, u).value, OpenAt(b, u).value);
    }
  }

  lemma SameOpens(a: seq<Bar>, b: seq<Bar>, t: int, u: int)
    requires AgreeUpTo(a, b, t) && u <= t
    ensures OpensAt(a, u) <==> OpensAt(b, u)
  {
    if OpensAt(a, u) {
      var x :| x in a && x.openedAt == u;
      assert OpensWith(a, u, x.open);
      assert OpensWith(b, u, x.open);
    }
    if OpensAt(b, u) {
      var x :| x in b && x.openedAt == u;
      assert OpensWith(b, u, x.open);
      assert OpensWith(a, u, x.open);
    }
  }

  lemma SameTick(c: BacktestConfig, a: seq<Bar>, b: seq<Bar>, t: int, u: int)
    requires ValidHistory(a) && ValidHistory(b) && AgreeUpTo(a, b, t) && u <= t
    ensures TickAt(c, a, u) == TickAt(c, b, u)
  {
    SameVisible(a, b, t, u);
    SameOpening(a, b, t, u);
  }

  // ---- the moments up to `t` ----

  predicate IsEventTime(c: BacktestConfig, bars: seq<Bar>, u: int)
  {
    u == c.end || (u <= c.end && (OpensAt(bars, u) || AvailableAt(bars, u)))
  }

  predicate AvailableAt(bars: seq<Bar>, u: int) { exists b :: b in bars && b.availableAt == u }

  lemma EventTimesMean(c: BacktestConfig, bars: seq<Bar>, u: int)
    ensures u in EventTimes(c, bars) <==> IsEventTime(c, bars, u)
    ensures Sorted(EventTimes(c, bars), Below)
  {
  }

  lemma SameEventTime(c: BacktestConfig, a: seq<Bar>, b: seq<Bar>, t: int, u: int)
    requires AgreeUpTo(a, b, t) && u <= t
    ensures IsEventTime(c, a, u) <==> IsEventTime(c, b, u)
  {
    SameOpens(a, b, t, u);
    assert AvailableAt(a, u) <==> AvailableAt(b, u);
  }

  /** The event times up to `t`. */
  function TimesUpTo(c: BacktestConfig, bars: seq<Bar>, t: int): seq<int>
  {
    Filter(EventTimes(c, bars), x => x <= t)
  }

  lemma SameTimes(c: BacktestConfig, a: seq<Bar>, b: seq<Bar>, t: int)
    requires AgreeUpTo(a, b, t)
    ensures TimesUpTo(c, a, t) == TimesUpTo(c, b, t)
  {
    hide AgreeUpTo, IsEventTime;
    EventTimesMean(c, a, t);
    EventTimesMean(c, b, t);
    FilterSorted(EventTimes(c, a), x => x <= t, Below);
    FilterSorted(EventTimes(c, b), x => x <= t, Below);
    forall u
      ensures u in TimesUpTo(c, a, t) <==> u in TimesUpTo(c, b, t)
    {
      EventTimesMean(c, a, u);
      EventTimesMean(c, b, u);
      if u <= t {
        SameEventTime(c, a, b, t, u);
      }
    }
    SortedUnique(TimesUpTo(c, a, t), TimesUpTo(c, b, t), Below);
  }

  function TicksUpTo(c: BacktestConfig, bars: seq<Bar>, t: int): seq<Tick>
  {
    TicksAt(c, bars, TimesUpTo(c, bars, t))
  }

  lemma SameTicks(c: BacktestConfig, a: seq<Bar>, b: seq<Bar>, t: int)
    requires ValidHistory(a) && ValidHistory(b) && AgreeUpTo(a, b, t)
    ensures TicksUpTo(c, a, t) == TicksUpTo(c, b, t)
  {
    hide ValidHistory, AgreeUpTo;
    SameTimes(c, a, b, t);
    var times := TimesUpTo(c, a, t);
    forall i | 0 <= i < |times|
      ensures TickAt(c, a, times[i]) == TickAt(c, b, times[i])
    {
      assert times[i] in times;
      SameTick(c, a, b, t, times[i]);
    }
  }

  // ---- the account's first valuation time ----

  lemma FirstOpening(a: seq<Bar>, b: seq<Bar>, t: int)
    requires ValidHistory(a) && ValidHistory(b) && AgreeUpTo(a, b, t) && a[0].openedAt <= t
    ensures b[0].openedAt <= a[0].openedAt
  {
    HistoryIsSorted(b);
    assert OpensWith(a, a[0].openedAt, a[0].open);
    assert OpensWith(b, a[0].openedAt, a[0].open);
    var x :| x in b && x.openedAt == a[0].openedAt;
    var i :| 0 <= i < |b| && b[i] == x;
    assert i > 0 ==> OpensBefore(b[0], b[i]);
  }

  lemma NothingYet(c: BacktestConfig, bars: seq<Bar>, t: int)
    requires ValidHistory(bars) && OpensAt(bars, c.start) && c.start < c.end && bars[0].openedAt > t
    ensures TimesUpTo(c, bars, t) == []
  {
    hide ValidBar;
    HistoryIsSorted(bars);
    assert TimesUpTo(c, bars, t) != [] ==> TimesUpTo(c, bars, t)[0] in TimesUpTo(c, bars, t);
    forall u | u in TimesUpTo(c, bars, t)
      ensures false
    {
      EventTimesMean(c, bars, u);
      forall x | x in bars
        ensures t < x.openedAt < x.availableAt
      {
        var i :| 0 <= i < |bars| && bars[i] == x;
        assert ValidBar(bars[i]);
        BarIsOrdered(bars[i]);
        assert i > 0 ==> OpensBefore(bars[0], bars[i]);
      }
    }
  }

  // ---- ledgers ----

  function EventsOf(r: Outcome<RunState>): Outcome<seq<LedgerEvent>>
  {
    match r
    case Fine(s) => Fine(s.events)
    case Raised(e) => Raised(e)
  }

  /** What the replay writes, or raises, at the events up to `t`. */
  function LedgerUpTo(setup: Setup, bars: seq<Bar>, t: int): Outcome<seq<LedgerEvent>>
    requires ValidHistory(bars) && setup.config.cadence >= 1
  {
    TicksAreValid(setup.config, bars, TimesUpTo(setup.config, bars, t));
    EventsOf(RunTicks(setup, NewRun(setup.config, bars[0].openedAt), TicksUpTo(setup.config, bars, t)))
  }

  /** Two histories that agree on the bars available by `t`, and on the time and price of every
      opening up to `t`, produce the same ledger up to `t`, or raise the same error there. */
  lemma NoLookAhead(setup: Setup, a: seq<Bar>, b: seq<Bar>, t: int)
    requires ValidConfig(setup.config) && ValidHistory(a) && ValidHistory(b) && AgreeUpTo(a, b, t)
    requires OpensAt(a, setup.config.start) && OpensAt(b, setup.config.start)
    ensures LedgerUpTo(setup, a, t) == LedgerUpTo(setup, b, t)
  {
    hide ValidHistory, AgreeUpTo, TicksUpTo, RunTicks, TimesUpTo, ValidCouncilConfig, OpensAt;
    var c := setup.config;
    HistoryStarts(a);
    HistoryStarts(b);
    AgreementIsSymmetric(a, b, t);
    SameTicks(c, a, b, t);
    if a[0].openedAt <= t {
      FirstOpening(a, b, t);
      FirstOpening(b, a, t);
    } else if b[0].openedAt <= t {
      FirstOpening(b, a, t);
      assert false;
    } else {
      NothingYet(c, a, t);
      SameTimes(c, a, b, t);
      EmptyLedger(setup, a, t);
      EmptyLedger(setup, b, t);
    }
  }

  lemma EmptyLedger(setup: Setup, bars: seq<Bar>, t: int)
    requires ValidHistory(bars) && setup.config.cadence >= 1 && TimesUpTo(setup.config, bars, t) == []
    ensures LedgerUpTo(setup, bars, t) == Fine([])
  {
  }

  // ---- the ledger of a complete run, cut at `t` ----

  /** A run's ledger has one event a tick, numbered and timed by it, and every shorter run's
      ledger is a prefix of it. */
  lemma {:induction false} LedgerFollowsTicks(setup: Setup, s: RunState, ticks: seq<Tick>, n: nat)
    requires WellFormed(s) && s.events == [] && AllValid(ticks) && setup.config.cadence >= 1 && n <= |ticks|
    requires RunTicks(setup, s, ticks).Fine?
    ensures RunTicks(setup, s, ticks[..n]).Fine?
    ensures var events := RunTicks(setup, s, ticks).value.events;
      && |events| == |ticks|
      && (forall i :: 0 <= i < |ticks| ==> events[i].time == ticks[i].time && events[i].sequence == i)
      && RunTicks(setup, s, ticks[..n]).value.events == events[..n]
  {
    hide StepAt, ValidTick, ValidOrder;
    var m := |ticks|;
    if m > 0 {
      LedgerFollowsTicks(setup, s, ticks[..m - 1], if n == m then m - 1 else n);
      StepAddsOneEvent(setup, RunTicks(setup, s, ticks[..m - 1]).value, ticks[m - 1]);
      if n == m {
        assert ticks[..n] == ticks;
      } else {
        assert ticks[..m - 1][..n] == ticks[..n];
      }
    }
  }

  /** Cutting a finished run's ledger at `t` gives what it had written by then; and what is raised
      by `t` is what the run raises. */
  lemma LedgerIsCut(setup: Setup, bars: seq<Bar>, t: int)
    requires ValidConfig(setup.config) && ValidHistory(bars)
    ensures Replay(setup, bars).Fine? ==>
      LedgerUpTo(setup, bars, t) == Fine(Filter(Replay(setup, bars).value.events, (e: LedgerEvent) => e.time <= t))
    ensures LedgerUpTo(setup, bars, t).Raised? ==> EventsOf(Replay(setup, bars)) == LedgerUpTo(setup, bars, t)
  {
    hide ValidHistory, StepAt, EventTimes, ValidCouncilConfig, ValidPolicy, ValidTick;
    var c := setup.config;
    var times := EventTimes(c, bars);
    HistoryStarts(bars);
    EventTimesMean(c, bars, t);
    var n := CutPoint(times, t);
    FilterPrefix(times, x => x <= t, n);
    TicksAreValid(c, bars, times);
    var start, ticks := NewRun(c, bars[0].openedAt), TicksAt(c, bars, times);
    assert TicksUpTo(c, bars, t) == ticks[..n];
    if RunTicks(setup, start, ticks).Fine? {
      LedgerFollowsTicks(setup, start, ticks, n);
      FilterPrefix(RunTicks(setup, start, ticks).value.events, (e: LedgerEvent) => e.time <= t, n);
    } else if RunTicks(setup, start, ticks[..n]).Raised? {
      RaisedForGood(setup, start, ticks, n);
    }
  }

  /** Two finished backtests over histories that agree up to `t` have the same ledger up to `t`. */
  lemma FinishedRunsAgree(setup: Setup, a: seq<Bar>, b: seq<Bar>, t: int)
    requires ValidConfig(setup.config) && ValidHistory(a) && ValidHistory(b) && AgreeUpTo(a, b, t)
    requires Backtest(setup, a, true).Fine? && Backtest(setup, b, true).Fine?
    ensures Filter(Backtest(setup, a, true).value.events, (e: LedgerEvent) => e.time <= t)
         == Filter(Backtest(setup, b, true).value.events, (e: LedgerEvent) => e.time <= t)
  {
    hide ValidHistory, AgreeUpTo, EventTimes, LedgerUpTo, Replay, ValidCouncilConfig, ValidPolicy, OpensAt;
    NoLookAhead(setup, a, b, t);
    LedgerIsCut(setup, a, t);
    LedgerIsCut(setup, b, t);
  }
}
