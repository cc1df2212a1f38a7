/** What a replay's ledger says: the fate of every order, and the books. */
module EngineLedger {
  import opened Sequences
  import opened Trading
  import opened Paper
  import opened Governor
  import opened Council
  import opened Outcomes
  import opened OrderFlow
  import opened Engine
  import opened EngineSchedule
  import EngineCausality

  // ---- the shape of one step ----

  /** What one event says about the order that was queued before it. */
  ghost predicate EventFits(c: BacktestConfig, pending: Option<ApprovedOrder>, e: LedgerEvent)
  {
    && (e.report.Some? ==> pending.Some? && ReportFits(pending.value, e.report.value, e.time))
    && (e.queued.Some? ==> e.queued.value.authorizedAt == e.time && c.start <= e.time < c.end)
  }

  function LeftOver(pending: Option<ApprovedOrder>, e: LedgerEvent): Option<ApprovedOrder>
  {
    if e.queued.Some? then e.queued else if e.report.Some? then None else pending
  }

  lemma QueuedNow(setup: Setup, k: Tick, decisions: nat, a: Account)
    requires ValidConfig(setup.config) && WellTimed(setup.config, k) && AccountReady(setup.config, a, k.time)
    ensures ValidTick(k) && PublicOf(a).Some? && setup.config.cadence >= 1
    ensures var d := DecideAt(setup, k, decisions, PublicOf(a).value, CostsFor(a));
      d.Fine? && d.value.queued.Some? ==>
        d.value.queued.value.authorizedAt == k.time && setup.config.start <= k.time < setup.config.end
  {
    hide AccountReady, Decide, PublicOf, ValidTick, ValidOrder, ValidConfig, WellTimed;
    NoFuture(setup.config, k);
    CadenceIsPositive(setup.config);
    DecidingIsSafe(setup, k, decisions, a, k.time + 1);
  }

  lemma StepShape(setup: Setup, s: RunState, k: Tick)
    requires ValidConfig(setup.config) && ReadyFor(setup.config, s, k.time) && WellTimed(setup.config, k)
    ensures WellFormed(s) && ValidTick(k) && setup.config.cadence >= 1
    ensures StepAt(setup, s, k).Fine? ==>
      var r := StepAt(setup, s, k).value;
      |r.events| == |s.events| + 1
      && var e := r.events[|s.events|];
         r.events == s.events + [e] && e.time == k.time
         && EventFits(setup.config, s.pending, e) && r.pending == LeftOver(s.pending, e)
  {
    hide AtOpening, SelectMark, MarkAccount, DecideAt, PublicOf, Future, AccountReady, OrderReady, WellTimed, ValidConfig,
         ValidOrder, CurrentQuantity, ReportFits, ValidTick;
    NoFuture(setup.config, k);
    CadenceIsPositive(setup.config);
    OpeningIsSafe(setup.config, s, k);
    var phase := AtOpening(setup.config, s, k);
    if phase.Fine? {
      SelectionIsReady(setup.config, s.mark, k);
      var mark := SelectMark(setup.config, s.mark, k);
      MarkingIsSafe(setup.config, phase.value.account, mark, k.time);
      QueuedNow(setup, k, s.decisions, MarkAccount(phase.value.account, mark, k.time).value);
    }
  }

  // ---- the fate of every order ----

  /** Nothing is queued or executed at the events from `from` up to `to`. */
  predicate Quiet(events: seq<LedgerEvent>, from: int, to: int)
  {
    forall k :: from <= k < to && 0 <= k < |events| ==> events[k].queued.None? && events[k].report.None?
  }

  /** Event `i` executes the order that event `j` queued, at a strictly later time, with nothing
      queued or executed in between. */
  predicate Executes(events: seq<LedgerEvent>, j: int, i: int)
  {
    && 0 <= j < i < |events| && events[j].queued.Some? && events[i].report.Some?
    && events[i].report.value.authorization == events[j].queued.value.authorization
    && events[i].report.value.submittedAt == events[j].time < events[i].time
    && Quiet(events, j + 1, i)
  }

  /** Event `i` queues another order before the one of event `j` has met an opening. */
  predicate Replaces(events: seq<LedgerEvent>, j: int, i: int)
  {
    && 0 <= j < i < |events| && events[j].queued.Some? && events[i].queued.Some? && events[i].report.None?
    && Quiet(events, j + 1, i)
  }

  /** How the order queued by event `j` ends. */
  predicate Ends(events: seq<LedgerEvent>, j: int, i: int) { Executes(events, j, i) || Replaces(events, j, i) }

  predicate Waiting(events: seq<LedgerEvent>, j: int, pending: Option<ApprovedOrder>)
  {
    && 0 <= j < |events| && pending.Some? && events[j].queued == pending && pending.value.authorizedAt == events[j].time
    && Quiet(events, j + 1, |events|)
  }

  ghost predicate Explained(events: seq<LedgerEvent>, i: int) { exists j :: Executes(events, j, i) }

  ghost predicate Settled(events: seq<LedgerEvent>, j: int) { exists i :: Ends(events, j, i) }

  ghost predicate Linked(events: seq<LedgerEvent>, pending: Option<ApprovedOrder>)
  {
    && (forall i :: 0 <= i < |events| && events[i].report.Some? ==> Explained(events, i))
    && (forall j :: 0 <= j < |events| && events[j].queued.Some? ==> Settled(events, j) || Waiting(events, j, pending))
    && (pending.Some? ==> exists j :: Waiting(events, j, pending))
  }

  lemma ExecutesKept(events: seq<LedgerEvent>, e: LedgerEvent, j: int, i: int)
    requires Executes(events, j, i)
    ensures Executes(events + [e], j, i)
  {
  }

  lemma ReplacesKept(events: seq<LedgerEvent>, e: LedgerEvent, j: int, i: int)
    requires Replaces(events, j, i)
    ensures Replaces(events + [e], j, i)
  {
  }

  lemma WaitingMeets(c: BacktestConfig, events: seq<LedgerEvent>, j: int, pending: Option<ApprovedOrder>, e: LedgerEvent)
    requires Waiting(events, j, pending) && EventFits(c, pending, e) && events[j].time < e.time
    ensures e.report.Some? ==> Executes(events + [e], j, |events|)
    ensures e.report.None? && e.queued.Some? ==> Replaces(events + [e], j, |events|)
    ensures e.report.None? && e.queued.None? ==> Waiting(events + [e], j, pending)
  {
  }

  lemma SettledKept(events: seq<LedgerEvent>, e: LedgerEvent, j: int)
    requires Settled(events, j)
    ensures Settled(events + [e], j)
  {
    var i :| Ends(events, j, i);
    if Executes(events, j, i) {
      ExecutesKept(events, e, j, i);
    } else {
      ReplacesKept(events, e, j, i);
    }
    assert Ends(events + [e], j, i);
  }

  lemma QueuedFate(c: BacktestConfig, events: seq<LedgerEvent>, pending: Option<ApprovedOrder>, e: LedgerEvent, j: int)
    requires 0 <= j < |events| && (Settled(events, j) || Waiting(events, j, pending))
    requires EventFits(c, pending, e) && events[j].time < e.time
    ensures Settled(events + [e], j) || Waiting(events + [e], j, LeftOver(pending, e))
  {
    hide Executes, Replaces, Waiting, EventFits;
    if Settled(events, j) {
      SettledKept(events, e, j);
    } else {
      WaitingMeets(c, events, j, pending, e);
      if e.report.Some? || e.queued.Some? {
        assert Ends(events + [e], j, |events|);
      } else {
        SameLeftOver(pending, e);
      }
    }
  }

  lemma SameLeftOver(pending: Option<ApprovedOrder>, e: LedgerEvent)
    requires e.report.None? && e.queued.None?
    ensures LeftOver(pending, e) == pending
  {
  }

  lemma ReportFate(c: BacktestConfig, events: seq<LedgerEvent>, pending: Option<ApprovedOrder>, e: LedgerEvent, i: int)
    requires Linked(events, pending) && EventFits(c, pending, e)
    requires forall j :: 0 <= j < |events| ==> events[j].time < e.time
    requires 0 <= i <= |events| && (events + [e])[i].report.Some?
    ensures Explained(events + [e], i)
  {
    hide Executes, Settled, ReportFits, Quiet;
    if i < |events| {
      assert Explained(events, i);
      var j :| Executes(events, j, i);
      ExecutesKept(events, e, j, i);
    } else {
      var j :| Waiting(events, j, pending);
      WaitingMeets(c, events, j, pending, e);
    }
  }

  lemma NewlyQueued(c: BacktestConfig, events: seq<LedgerEvent>, pending: Option<ApprovedOrder>, e: LedgerEvent)
    requires EventFits(c, pending, e) && e.queued.Some?
    ensures Waiting(events + [e], |events|, e.queued)
  {
  }

  lemma LinksGrow(c: BacktestConfig, events: seq<LedgerEvent>, pending: Option<ApprovedOrder>, e: LedgerEvent)
    requires Linked(events, pending) && EventFits(c, pending, e)
    requires forall j :: 0 <= j < |events| ==> events[j].time < e.time
    ensures Linked(events + [e], LeftOver(pending, e))
  {
    hide Executes, Replaces, Waiting, EventFits, Settled, Explained;
    var all := events + [e];
    forall i | 0 <= i < |all| && all[i].report.Some?
      ensures Explained(all, i)
    {
      ReportFate(c, events, pending, e, i);
    }
    if e.queued.Some? {
      NewlyQueued(c, events, pending, e);
    } else if e.report.None? && pending.Some? {
      var j :| Waiting(events, j, pending);
      WaitingInRange(events, j, pending);
      WaitingMeets(c, events, j, pending, e);
    }
    forall j | 0 <= j < |all| && all[j].queued.Some?
      ensures Settled(all, j) || Waiting(all, j, LeftOver(pending, e))
    {
      if j < |events| {
        assert events[j].queued.Some?;
        QueuedFate(c, events, pending, e, j);
      }
    }
  }

  lemma WaitingInRange(events: seq<LedgerEvent>, j: int, pending: Option<ApprovedOrder>)
    requires Waiting(events, j, pending)
    ensures 0 <= j < |events|
  {
  }

  lemma {:induction false} RunIsLinked(setup: Setup, s: RunState, ticks: seq<Tick>)
    requires ValidConfig(setup.config) && TimedRun(setup.config, ticks) && s.events == [] && s.pending.None?
    requires ticks != [] ==> ReadyFor(setup.config, s, ticks[0].time)
    requires AllValid(ticks) && setup.config.cadence >= 1
    ensures RunTicks(setup, s, ticks).Fine? ==>
      Linked(RunTicks(setup, s, ticks).value.events, RunTicks(setup, s, ticks).value.pending)
    decreases |ticks|
  {
    hide StepAt, ReadyFor, ValidTick, ValidOrder, ValidConfig, WellTimed, EventFits, LeftOver, Linked;
    var n := |ticks| - 1;
    if ticks == [] {
      EmptyIsLinked();
    } else if RunTicks(setup, s, ticks).Fine? {
      assert n > 0 ==> ticks[..n][0] == ticks[0] && ticks[..n][n - 1].time < ticks[n].time;
      RunIsLinked(setup, s, ticks[..n]);
      RunIsSafe(setup, s, ticks[..n], ticks[n].time);
      var before := RunTicks(setup, s, ticks[..n]).value;
      EngineCausality.LedgerFollowsTicks(setup, s, ticks[..n], n);
      StepShape(setup, before, ticks[n]);
      LinksGrow(setup.config, before.events, before.pending, StepAt(setup, before, ticks[n]).value.events[n]);
    }
  }

  lemma EmptyIsLinked()
    ensures Linked([], None)
  {
  }

  /** An order has one way to end, and an execution one order. */
  lemma OneEnd(events: seq<LedgerEvent>, j: int, i: int, other: int)
    ensures Ends(events, j, i) ==> (Executes(events, j, i) <==> !Replaces(events, j, i))
    ensures Ends(events, j, i) && Ends(events, j, other) ==> i == other
  {
  }

  lemma OneOrder(events: seq<LedgerEvent>, j: int, k: int, i: int)
    ensures Executes(events, j, i) && Executes(events, k, i) ==> j == k
  {
  }

  // ---- every prefix of every replay ----

  /** The replay gets through its first `n` events; a later one may still stop it. */
  ghost predicate Reaches(setup: Setup, bars: seq<Bar>, n: nat)
  {
    && ValidConfig(setup.config) && ValidHistory(bars) && OpensAt(bars, setup.config.start)
    && n <= |EventTimes(setup.config, bars)| && ReplayTo(setup, bars, n).Fine?
  }

  /** The ledger after the first `n` events. */
  ghost function LedgerTo(setup: Setup, bars: seq<Bar>, n: nat): seq<LedgerEvent>
    requires Reaches(setup, bars, n)
  {
    ReplayTo(setup, bars, n).value.events
  }

  /** A finished backtest got through all its events, and the ledger of each moment is a prefix of its own. */
  lemma FinishedReaches(setup: Setup, bars: seq<Bar>, n: nat)
    requires ValidConfig(setup.config) && ValidHistory(bars) && Backtest(setup, bars, true).Fine?
    requires n <= |EventTimes(setup.config, bars)|
    ensures var events := Backtest(setup, bars, true).value.events;
      |events| == |EventTimes(setup.config, bars)| && Reaches(setup, bars, n) && LedgerTo(setup, bars, n) == events[..n]
    ensures n == |EventTimes(setup.config, bars)| ==> ReplayTo(setup, bars, n) == Backtest(setup, bars, true)
  {
    hide RunTicks, EventTimes, ValidHistory, ReadyFor, TickAt, OpensAt, ValidConfig, Backtest, ValidTick;
    var c := setup.config;
    CadenceIsPositive(c);
    FinishedIsReplay(setup, bars);
    HistoryStarts(bars);
    NewRunIsNew(c, bars[0].openedAt);
    var ticks := TicksAt(c, bars, EventTimes(c, bars));
    TicksAreValid(c, bars, EventTimes(c, bars));
    assert ticks[..|ticks|] == ticks;
    EngineCausality.LedgerFollowsTicks(setup, NewRun(c, bars[0].openedAt), ticks, n);
  }

  /** The run behind a prefix of a replay. */
  lemma PrefixParts(setup: Setup, bars: seq<Bar>, n: nat)
    requires Reaches(setup, bars, n)
    ensures bars != [] && setup.config.cadence >= 1
    ensures var c := setup.config;
      var ticks := TicksAt(c, bars, EventTimes(c, bars))[..n];
      && AllValid(ticks) && TimedRun(c, ticks)
      && (ticks != [] ==> ReadyFor(c, NewRun(c, bars[0].openedAt), ticks[0].time))
      && RunTicks(setup, NewRun(c, bars[0].openedAt), ticks) == ReplayTo(setup, bars, n)
      && BooksOf(c, NewRun(c, bars[0].openedAt).account, NewRun(c, bars[0].openedAt).totals) == NewBooks(c.startingCash)
      && |LedgerTo(setup, bars, n)| == n
  {
    hide RunTicks, EventTimes, ReadyFor, TickAt, OpensAt, ValidConfig, ValidTick, WellTimed, ValidHistory;
    var c := setup.config;
    CadenceIsPositive(c);
    ReplayIsTimed(c, bars);
    NewRunIsNew(c, bars[0].openedAt);
    TicksAreValid(c, bars, EventTimes(c, bars));
    var ticks := TicksAt(c, bars, EventTimes(c, bars));
    EngineCausality.LedgerFollowsTicks(setup, NewRun(c, bars[0].openedAt), ticks[..n], 0);
  }

  /** Every order has at most one way to end, and until then it is the one queued. After any number of
      events of any replay, whether or not a later event stops it: an event that reports an execution
      executes the order queued by exactly one earlier event, the latest to queue one, at a strictly
      later time; every order queued so far has been executed, or replaced by a newer order before it
      met an opening, not both and at exactly one later event, or is the order queued now; and nothing
      else is queued. */
  lemma EveryOrderHasAFate(setup: Setup, bars: seq<Bar>, n: nat)
    requires Reaches(setup, bars, n)
    ensures var events, pending := LedgerTo(setup, bars, n), ReplayTo(setup, bars, n).value.pending;
      && (forall i :: 0 <= i < |events| && events[i].report.Some? ==> exists j :: Executes(events, j, i))
      && (forall j :: 0 <= j < |events| && events[j].queued.Some? ==>
            (exists i :: Ends(events, j, i)) || Waiting(events, j, pending))
      && (pending.Some? ==> exists j :: Waiting(events, j, pending))
    ensures var events, pending := LedgerTo(setup, bars, n), ReplayTo(setup, bars, n).value.pending;
      && (forall i, j, k :: Executes(events, j, i) && Executes(events, k, i) ==> j == k)
      && (forall j, i, k :: Ends(events, j, i) && Ends(events, j, k) ==> i == k)
      && (forall j, i :: Ends(events, j, i) ==> (Executes(events, j, i) <==> !Replaces(events, j, i)))
      && (forall j, i :: Ends(events, j, i) ==> !Waiting(events, j, pending))
      && (forall j, k :: Waiting(events, j, pending) && Waiting(events, k, pending) ==> j == k)
  {
    hide RunTicks, EventTimes, ValidHistory, TimedRun, ReadyFor, TickAt, OpensAt, ValidConfig, Executes, Replaces, Ends,
         ReplayTo, BooksOf, Linked, ValidTick, Waiting;
    var c := setup.config;
    PrefixParts(setup, bars, n);
    NewRunIsNew(c, bars[0].openedAt);
    RunIsLinked(setup, NewRun(c, bars[0].openedAt), TicksAt(c, bars, EventTimes(c, bars))[..n]);
    Unpacked(LedgerTo(setup, bars, n), ReplayTo(setup, bars, n).value.pending);
    OneFate(LedgerTo(setup, bars, n), ReplayTo(setup, bars, n).value.pending);
  }

  /** In a finished backtest no order is forgotten: each one queued was executed or replaced. */
  lemma FinishedOrdersEnd(setup: Setup, bars: seq<Bar>)
    requires ValidConfig(setup.config) && ValidHistory(bars) && Backtest(setup, bars, true).Fine?
    ensures var events := Backtest(setup, bars, true).value.events;
      forall j :: 0 <= j < |events| && events[j].queued.Some? ==> exists i :: Ends(events, j, i)
  {
    hide Backtest, ValidHistory, EventTimes, OpensAt, ValidConfig, Executes, Replaces, Ends, ReplayTo, Waiting;
    var n := |EventTimes(setup.config, bars)|;
    CadenceIsPositive(setup.config);
    FinishedIsReplay(setup, bars);
    FinishedReaches(setup, bars, n);
    EveryOrderHasAFate(setup, bars, n);
    NoneWaits(Backtest(setup, bars, true).value.events);
  }

  lemma NoneWaits(events: seq<LedgerEvent>)
    ensures forall j :: !Waiting(events, j, None)
  {
  }

  lemma OneFate(events: seq<LedgerEvent>, pending: Option<ApprovedOrder>)
    ensures forall i, j, k :: Executes(events, j, i) && Executes(events, k, i) ==> j == k
    ensures forall j, i, k :: Ends(events, j, i) && Ends(events, j, k) ==> i == k
    ensures forall j, i :: Ends(events, j, i) ==> (Executes(events, j, i) <==> !Replaces(events, j, i))
    ensures forall j, i :: Ends(events, j, i) ==> !Waiting(events, j, pending)
    ensures forall j, k :: Waiting(events, j, pending) && Waiting(events, k, pending) ==> j == k
  {
    hide Executes, Replaces, Ends, Waiting;
    forall i, j, k
      ensures Executes(events, j, i) && Executes(events, k, i) ==> j == k
    {
      OneOrder(events, j, k, i);
    }
    forall j, i, k
      ensures Ends(events, j, i) && Ends(events, j, k) ==> i == k
    {
      OneEnd(events, j, i, k);
    }
    forall j, i
      ensures Ends(events, j, i) ==> (Executes(events, j, i) <==> !Replaces(events, j, i)) && !Waiting(events, j, pending)
    {
      OneEnd(events, j, i, i);
      EndedOrWaiting(events, j, i, pending);
    }
    forall j, k
      ensures Waiting(events, j, pending) && Waiting(events, k, pending) ==> j == k
    {
      OneWaits(events, j, k, pending);
    }
  }

  lemma EndedOrWaiting(events: seq<LedgerEvent>, j: int, i: int, pending: Option<ApprovedOrder>)
    ensures Ends(events, j, i) ==> !Waiting(events, j, pending)
  {
  }

  lemma OneWaits(events: seq<LedgerEvent>, j: int, k: int, pending: Option<ApprovedOrder>)
    ensures Waiting(events, j, pending) && Waiting(events, k, pending) ==> j == k
  {
  }

  lemma Unpacked(events: seq<LedgerEvent>, pending: Option<ApprovedOrder>)
    requires Linked(events, pending)
    ensures forall i :: 0 <= i < |events| && events[i].report.Some? ==> exists j :: Executes(events, j, i)
    ensures forall j :: 0 <= j < |events| && events[j].queued.Some? ==>
      (exists i :: Ends(events, j, i)) || Waiting(events, j, pending)
    ensures pending.Some? ==> exists j :: Waiting(events, j, pending)
  {
    hide Executes, Replaces, Waiting;
    forall i | 0 <= i < |events| && events[i].report.Some?
      ensures exists j :: Executes(events, j, i)
    {
      assert Explained(events, i);
    }
    forall j | 0 <= j < |events| && events[j].queued.Some?
      ensures (exists i :: Ends(events, j, i)) || Waiting(events, j, pending)
    {
      assert Settled(events, j) || Waiting(events, j, pending);
    }
  }

  // ---- the books ----

  function RatesOf(c: BacktestConfig): Rates { Rates(c.feeBps, c.slippageBps) }

  function BooksOf(c: BacktestConfig, a: Account, totals: Totals): Books
  {
    Books(a.cash, CurrentQuantity(a, c.symbol), totals.trips, totals.fees, totals.slippage)
  }

  /** The fill an event reports, at the market's opening price. */
  function FillOf(e: LedgerEvent, k: Tick): seq<Fill>
  {
    if e.report.Some? && e.report.value.outcome.Filled? && k.open.Some?
    then [Fill(e.report.value.side, e.report.value.quantity, k.open.value)] else []
  }

  /** Every fill of a ledger, in order. */
  function FillsOf(events: seq<LedgerEvent>, ticks: seq<Tick>): seq<Fill>
    requires |events| == |ticks|
  {
    if events == [] then []
    else
      var n := |events| - 1;
      FillsOf(events[..n], ticks[..n]) + FillOf(events[n], ticks[n])
  }

  /** A filled execution, in the broker's numbers. */
  lemma FilledNumbers(a: Account, o: ApprovedOrder, opening: OpeningPrice)
    requires o.referencePrice > 0.0
    requires Executed(a, o, opening, o.authorizedAt).report.Some?
    requires Executed(a, o, opening, o.authorizedAt).report.value.outcome.Filled?
    ensures var e := Executed(a, o, opening, o.authorizedAt);
      var paid := FillPrice(a, o, opening);
      && e.report.value.side == o.side && e.report.value.quantity == o.quantity
      && e.report.value.outcome.fillPrice == paid && e.report.value.fee == FillFee(a, o, paid)
      && e.account.cash == CashAfter(a, o, paid) && CurrentQuantity(e.account, o.symbol) == NewQuantity(a, o)
  {
    hide FillPrice, CashAfter, FillFee, AverageEntry, AdverseSlippage, BuildState, RejectionReason, NewQuantity;
  }

  /** The broker's numbers are the books' numbers. */
  lemma NumbersAgree(a: Account, o: ApprovedOrder, opening: OpeningPrice)
    ensures var f, r, paid := Fill(o.side, o.quantity, opening.price), Rates(a.feeBps, a.slippageBps), FillPrice(a, o, opening);
      && PaidPrice(f, r) == paid && FeeOf(f, r) == FillFee(a, o, paid)
      && CashAfter(a, o, paid) == a.cash + CashMove(f, r)
      && NewQuantity(a, o) == Snapped(CurrentQuantity(a, o.symbol) + SignedFill(f.side, f.quantity))
      && SlippageOf(f, r) == o.quantity * Abs(paid - opening.price)
  {
    hide PaidPrice, FillPrice, FeeOf, FillFee;
    PaidAgrees(a, o, opening);
    FeesAgree(a, o, opening, PaidPrice(Fill(o.side, o.quantity, opening.price), Rates(a.feeBps, a.slippageBps)));
  }

  lemma PaidAgrees(a: Account, o: ApprovedOrder, opening: OpeningPrice)
    ensures PaidPrice(Fill(o.side, o.quantity, opening.price), Rates(a.feeBps, a.slippageBps)) == FillPrice(a, o, opening)
  {
  }

  lemma FeesAgree(a: Account, o: ApprovedOrder, opening: OpeningPrice, paid: real)
    requires paid == PaidPrice(Fill(o.side, o.quantity, opening.price), Rates(a.feeBps, a.slippageBps))
    ensures FeeOf(Fill(o.side, o.quantity, opening.price), Rates(a.feeBps, a.slippageBps)) == FillFee(a, o, paid)
  {
    hide PaidPrice;
  }

  lemma FillIsBooked(c: BacktestConfig, a: Account, totals: Totals, o: ApprovedOrder, opening: OpeningPrice)
    requires ValidOrder(o) && o.symbol == c.symbol && a.feeBps == c.feeBps && a.slippageBps == c.slippageBps && opening.price > 0.0
    requires Executed(a, o, opening, o.authorizedAt).report.Some?
    requires Executed(a, o, opening, o.authorizedAt).report.value.outcome.Filled?
    ensures var e := Executed(a, o, opening, o.authorizedAt);
      BooksOf(c, e.account, WithFill(totals, o, e.report.value, opening.price))
        == Booked(BooksOf(c, a, totals), Fill(o.side, o.quantity, opening.price), RatesOf(c))
  {
    hide Executed, FillPrice, CashAfter, FillFee, PaidPrice, FeeOf, CashMove, SlippageOf, NewQuantity, CurrentQuantity, Applied, WithFill;
    FilledNumbers(a, o, opening);
    NumbersAgree(a, o, opening);
    TotalsAreBooked(totals, o, Executed(a, o, opening, o.authorizedAt).report.value, opening.price, Rates(a.feeBps, a.slippageBps));
  }

  lemma TotalsAreBooked(totals: Totals, o: ApprovedOrder, report: ExecutionReport, price: real, r: Rates)
    requires report.outcome.Filled? && o.quantity > 0.0 && report.quantity == o.quantity
    requires report.fee == FeeOf(Fill(o.side, o.quantity, price), r)
    requires SlippageOf(Fill(o.side, o.quantity, price), r) == o.quantity * Abs(report.outcome.fillPrice - price)
    ensures var f := Fill(o.side, o.quantity, price);
      WithFill(totals, o, report, price) ==
        Totals(Applied(totals.trips, f.side, f.quantity, f.price, CostsOfFill(f, r)), totals.fees + FeeOf(f, r), totals.slippage + SlippageOf(f, r))
  {
    hide FeeOf, SlippageOf, Applied;
  }

  lemma OpeningBooks(c: BacktestConfig, s: RunState, k: Tick)
    requires ReadyFor(c, s, k.time) && ValidTick(k)
    ensures WellFormed(s)
    ensures AtOpening(c, s, k).Fine? ==>
      var o := AtOpening(c, s, k).value;
      if o.report.Some? && o.report.value.outcome.Filled? then
        k.open.Some? && ValidFill(Fill(o.report.value.side, o.report.value.quantity, k.open.value))
        && BooksOf(c, o.account, o.totals)
             == Booked(BooksOf(c, s.account, s.totals), Fill(o.report.value.side, o.report.value.quantity, k.open.value), RatesOf(c))
      else BooksOf(c, o.account, o.totals) == BooksOf(c, s.account, s.totals)
  {
    hide Executed, BooksOf, Booked, ReconcileReasons, WithFill, PublicOf, StrictlyReduces, NewQuantity, HoldsOnly, ValidAccount,
         ValidOrder;
    if s.pending.Some? && k.open.Some? {
      var order := s.pending.value;
      var opening := OpeningFor(c, k.time, k.open.value);
      OrderIsPositive(order);
      ExecutionKeepsAccount(s.account, order, opening, order.authorizedAt);
      var e := Executed(s.account, order, opening, order.authorizedAt);
      if e.report.Some? && e.report.value.outcome.Filled? {
        FilledNumbers(s.account, order, opening);
        FillIsBooked(c, s.account, s.totals, order, opening);
      }
    }
  }

  lemma MarkingKeepsBooks(c: BacktestConfig, a: Account, mark: Option<MarketMark>, t: int, totals: Totals)
    requires MarkAccount(a, mark, t).Fine?
    ensures BooksOf(c, MarkAccount(a, mark, t).value, totals) == BooksOf(c, a, totals)
  {
  }

  lemma PublicCash(a: Account)
    requires PublicOf(a).Some?
    ensures PublicOf(a).value.cash == a.cash
    ensures ValidAccount(a) && PublicOf(a).value.positions == [] ==> a.positions == map[]
  {
    hide PublicPositions;
    var symbols := SortedInts(a.positions.Keys);
    assert forall i :: 0 <= i < |symbols| ==> symbols[i] in symbols;
    if a.positions != map[] {
      MemberOf(a.positions.Keys);
    }
  }

  /** One event books its fill, if it reports one, and shows the books it leaves. */
  lemma StepBooks(setup: Setup, s: RunState, k: Tick)
    requires ValidConfig(setup.config) && ReadyFor(setup.config, s, k.time) && WellTimed(setup.config, k)
    ensures WellFormed(s) && ValidTick(k) && setup.config.cadence >= 1
    ensures StepAt(setup, s, k).Fine? ==>
      var c, r := setup.config, StepAt(setup, s, k).value;
      |r.events| == |s.events| + 1
      && var e := r.events[|s.events|];
         var fills := FillOf(e, k);
         && |fills| <= 1 && (forall f :: f in fills ==> ValidFill(f))
         && BooksOf(c, r.account, r.totals)
              == (if fills == [] then BooksOf(c, s.account, s.totals) else Booked(BooksOf(c, s.account, s.totals), fills[0], RatesOf(c)))
         && e.portfolio.cash == r.account.cash && e.gross == r.totals.trips.gross && e.net == r.totals.trips.net
         && e.fees == r.totals.fees && e.slippage == r.totals.slippage
         && (e.portfolio.positions == [] ==> r.account.positions == map[])
  {
    hide AtOpening, SelectMark, MarkAccount, DecideAt, PublicOf, Future, AccountReady, OrderReady, WellTimed, ValidConfig,
         ValidOrder, BooksOf, Booked, ReportFits, ValidTick, ValidFill;
    NoFuture(setup.config, k);
    CadenceIsPositive(setup.config);
    OpeningIsSafe(setup.config, s, k);
    OpeningBooks(setup.config, s, k);
    var phase := AtOpening(setup.config, s, k);
    if phase.Fine? {
      SelectionIsReady(setup.config, s.mark, k);
      var mark := SelectMark(setup.config, s.mark, k);
      MarkingIsSafe(setup.config, phase.value.account, mark, k.time);
      MarkingKeepsBooks(setup.config, phase.value.account, mark, k.time, phase.value.totals);
      var account := MarkAccount(phase.value.account, mark, k.time).value;
      ReadyIsPublic(setup.config, account, k.time);
      PublicCash(account);
    }
  }

  lemma BooksGrow(b: Books, fills: seq<Fill>, more: seq<Fill>, r: Rates)
    requires |more| <= 1 && forall f :: f in fills + more ==> ValidFill(f)
    ensures RunBooks(b, fills + more, r) ==
      if more == [] then RunBooks(b, fills, r) else Booked(RunBooks(b, fills, r), more[0], r)
  {
    if more == [] {
      assert fills + more == fills;
    } else {
      assert (fills + more)[..|fills + more| - 1] == fills;
    }
  }

  /** After any number of events the engine's running totals and its account are exactly what
      booking the ledger's fills, one after another, gives. */
  lemma {:induction false} RunIsBooked(setup: Setup, s: RunState, ticks: seq<Tick>)
    requires ValidConfig(setup.config) && TimedRun(setup.config, ticks) && s.events == [] && s.pending.None?
    requires BooksOf(setup.config, s.account, s.totals) == NewBooks(setup.config.startingCash)
    requires ticks != [] ==> ReadyFor(setup.config, s, ticks[0].time)
    requires AllValid(ticks) && setup.config.cadence >= 1
    ensures RunTicks(setup, s, ticks).Fine? ==>
      var r := RunTicks(setup, s, ticks).value;
      && |r.events| == |ticks|
      && (forall f :: f in FillsOf(r.events, ticks) ==> ValidFill(f))
      && BooksOf(setup.config, r.account, r.totals)
           == RunBooks(NewBooks(setup.config.startingCash), FillsOf(r.events, ticks), RatesOf(setup.config))
    decreases |ticks|
  {
    hide StepAt, ReadyFor, ValidTick, ValidOrder, ValidConfig, WellTimed, Booked, BooksOf, FillOf, ValidFill;
    var n := |ticks| - 1;
    if ticks != [] && RunTicks(setup, s, ticks).Fine? {
      assert n > 0 ==> ticks[..n][0] == ticks[0] && ticks[..n][n - 1].time < ticks[n].time;
      RunIsBooked(setup, s, ticks[..n]);
      RunIsSafe(setup, s, ticks[..n], ticks[n].time);
      var before := RunTicks(setup, s, ticks[..n]).value;
      StepShape(setup, before, ticks[n]);
      StepBooks(setup, before, ticks[n]);
      var e := StepAt(setup, before, ticks[n]).value.events[n];
      assert (before.events + [e])[..n] == before.events;
      BooksGrow(NewBooks(setup.config.startingCash), FillsOf(before.events, ticks[..n]), FillOf(e, ticks[n]), RatesOf(setup.config));
    }
  }

  /** The fills of a replay's first `n` events. */
  ghost function LedgerFills(setup: Setup, bars: seq<Bar>, n: nat): seq<Fill>
    requires Reaches(setup, bars, n)
  {
    PrefixParts(setup, bars, n);
    FillsOf(LedgerTo(setup, bars, n), TicksAt(setup.config, bars, EventTimes(setup.config, bars))[..n])
  }

  /** The state behind the `n`th event, and what the event shows of it. */
  lemma StateBehindEvent(setup: Setup, bars: seq<Bar>, n: nat) returns (s: RunState)
    requires 0 < n && Reaches(setup, bars, n)
    ensures |LedgerTo(setup, bars, n)| == n
    ensures var c, e := setup.config, LedgerTo(setup, bars, n)[n - 1];
      var fills := LedgerFills(setup, bars, n);
      && (forall f :: f in fills ==> ValidFill(f))
      && BooksOf(c, s.account, s.totals) == RunBooks(NewBooks(c.startingCash), fills, RatesOf(c))
      && e.portfolio.cash == s.account.cash
      && e.gross == s.totals.trips.gross && e.net == s.totals.trips.net
      && e.fees == s.totals.fees && e.slippage == s.totals.slippage
      && (e.portfolio.positions == [] ==> s.account.positions == map[])
  {
    hide RunTicks, EventTimes, ReadyFor, TickAt, BooksOf, FillsOf, RunBooks, ValidFill, ValidTick, ValidOrder,
         ReplayTo, TimedRun, ValidRates, NewRun, ValidConfig, ValidHistory, OpensAt;
    var c := setup.config;
    PrefixParts(setup, bars, n);
    NewRunIsNew(c, bars[0].openedAt);
    s := ReplayTo(setup, bars, n).value;
    ShownBooks(setup, NewRun(c, bars[0].openedAt), TicksAt(c, bars, EventTimes(c, bars))[..n]);
  }

  lemma NewRunIsNew(c: BacktestConfig, openedAt: int)
    ensures NewRun(c, openedAt).events == [] && NewRun(c, openedAt).pending.None? && WellFormed(NewRun(c, openedAt))
  {
  }

  lemma TimedPrefix(c: BacktestConfig, ticks: seq<Tick>)
    requires TimedRun(c, ticks) && AllValid(ticks) && ticks != []
    ensures var n := |ticks| - 1;
      && TimedRun(c, ticks[..n]) && AllValid(ticks[..n]) && WellTimed(c, ticks[n])
      && (n > 0 ==> ticks[..n][0] == ticks[0] && ticks[..n][n - 1].time < ticks[n].time)
  {
  }

  /** The last event of a run shows the books the run leaves. */
  lemma ShownBooks(setup: Setup, start: RunState, ticks: seq<Tick>)
    requires ValidConfig(setup.config) && TimedRun(setup.config, ticks) && start.events == [] && start.pending.None?
    requires BooksOf(setup.config, start.account, start.totals) == NewBooks(setup.config.startingCash)
    requires AllValid(ticks) && setup.config.cadence >= 1 && ticks != [] && ReadyFor(setup.config, start, ticks[0].time)
    requires RunTicks(setup, start, ticks).Fine?
    ensures var c, s := setup.config, RunTicks(setup, start, ticks).value;
      && |s.events| == |ticks|
      && (forall f :: f in FillsOf(s.events, ticks) ==> ValidFill(f))
      && BooksOf(c, s.account, s.totals) == RunBooks(NewBooks(c.startingCash), FillsOf(s.events, ticks), RatesOf(c))
      && var e := s.events[|ticks| - 1];
         && e.portfolio.cash == s.account.cash && e.gross == s.totals.trips.gross && e.net == s.totals.trips.net
         && e.fees == s.totals.fees && e.slippage == s.totals.slippage
         && (e.portfolio.positions == [] ==> s.account.positions == map[])
  {
    hide StepAt, ReadyFor, ValidConfig, BooksOf, FillsOf, RunBooks, ValidFill, ValidTick, ValidOrder, WellTimed, TimedRun, FillOf, Booked;
    RunIsBooked(setup, start, ticks);
    TimedPrefix(setup.config, ticks);
    var n := |ticks| - 1;
    RunIsSafe(setup, start, ticks[..n], ticks[n].time);
    RunIsBooked(setup, start, ticks[..n]);
    StepBooks(setup, RunTicks(setup, start, ticks[..n]).value, ticks[n]);
  }

  lemma RatesAreValid(c: BacktestConfig)
    requires ValidConfig(c)
    ensures ValidRates(RatesOf(c))
  {
  }

  /** Whatever the agents do and the market does: at every event of every replay, also one that a later
      event stops, cash plus the open position at market cost plus its open costs is starting cash plus
      realized profit, and gross less net profit plus open costs is fees plus slippage, up to exactly
      the drift of snapped remainders. */
  lemma LedgerConservesProfit(setup: Setup, bars: seq<Bar>, n: nat)
    requires 0 < n && Reaches(setup, bars, n)
    ensures |LedgerTo(setup, bars, n)| == n
    ensures var c, e := setup.config, LedgerTo(setup, bars, n)[n - 1];
      var fills := LedgerFills(setup, bars, n);
      && (forall f :: f in fills ==> ValidFill(f))
      && var trips := RunBooks(NewBooks(c.startingCash), fills, RatesOf(c)).trips;
         && e.portfolio.cash + trips.quantity * trips.averageEntry + trips.openCosts - c.startingCash - e.net
              == TotalDrift(NewBooks(c.startingCash), fills, RatesOf(c))
         && e.gross - e.net + trips.openCosts - e.fees - e.slippage == TotalCostDrift(NewBooks(c.startingCash), fills, RatesOf(c))
  {
    hide EventTimes, ValidConfig, FillsOf, RunBooks, ValidFill, ValidHistory, ReplayTo, TotalDrift, TotalCostDrift, LedgerFills,
         ValidRates, OpensAt, LedgerTo;
    var c := setup.config;
    var s := StateBehindEvent(setup, bars, n);
    RatesAreValid(c);
    ProfitIsConserved(c.startingCash, LedgerFills(setup, bars, n), RatesOf(c));
  }

  /** No fill snaps a remainder and none opens a position too small to keep. */
  ghost predicate KeepsEverything(c: BacktestConfig, fills: seq<Fill>)
    requires forall f :: f in fills ==> ValidFill(f)
  {
    forall k :: 0 <= k < |fills| ==>
      !SnapsAt(NewBooks(c.startingCash), fills, RatesOf(c), k) && !DustAt(NewBooks(c.startingCash), fills, RatesOf(c), k)
  }

  /** Wherever the ledger of a replay shows no position, and no fill so far snapped a remainder or opened
      dust, the event itself balances: cash is starting cash plus net profit, and gross less net profit
      is fees plus slippage. */
  lemma FlatEventsBalance(setup: Setup, bars: seq<Bar>, n: nat)
    requires 0 < n && Reaches(setup, bars, n)
    ensures |LedgerTo(setup, bars, n)| == n
    ensures var c, e := setup.config, LedgerTo(setup, bars, n)[n - 1];
      var fills := LedgerFills(setup, bars, n);
      && (forall f :: f in fills ==> ValidFill(f))
      && (e.portfolio.positions == [] && KeepsEverything(c, fills) ==>
            e.portfolio.cash == c.startingCash + e.net && e.gross - e.net == e.fees + e.slippage)
  {
    hide EventTimes, ValidConfig, FillsOf, RunBooks, ValidFill, ValidHistory, ReplayTo, LedgerFills, SnapsAt, DustAt, ValidRates,
         OpensAt, LedgerTo;
    var c := setup.config;
    var s := StateBehindEvent(setup, bars, n);
    RatesAreValid(c);
    var fills := LedgerFills(setup, bars, n);
    if LedgerTo(setup, bars, n)[n - 1].portfolio.positions == [] && KeepsEverything(c, fills) {
      FlatBooksBalance(c.startingCash, fills, RatesOf(c));
    }
  }
}
