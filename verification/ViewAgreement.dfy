/** The browser's incremental view against the server's batch view. */
module ViewAgreement {
  import opened Sequences
  import opened TelemetryEvents
  import opened DashboardViews

  // ---- one run's summary ----

  /** The events on which the two sides part: a completion after a failure in the same run,
      and an empty name where the run has no name yet. */
  predicate DivergesAfter(items: seq<Event>, e: Event)
  {
    || (CompletesRun(e.eventType) && SomeType(items, PipelineFailed))
    || (FirstSymbol(items).None? && e.symbol == Some(""))
    || (FirstTimeframe(items).None? && e.timeframe == Some(""))
  }

  function SummaryOf(items: seq<Event>): Option<RunSummary>
  {
    if items == [] then None else Some(Summary(items))
  }

  lemma StatusSnoc(items: seq<Event>, e: Event)
    ensures StatusOf(items + [e]) ==
      if SomeType(items, PipelineFailed) || e.eventType.PipelineFailed? then Failed
      else if CompletesRun(e.eventType) then Completed
      else StatusOf(items)
  {
    forall t
      ensures SomeType(items + [e], t) <==> SomeType(items, t) || e.eventType == t
    {
      SomeTypeSnoc(items, e, t);
    }
  }

  lemma SomeTypeSnoc(items: seq<Event>, e: Event, t: EventType)
    ensures SomeType(items + [e], t) <==> SomeType(items, t) || e.eventType == t
  {
    if SomeType(items, t) {
      var x :| x in items && x.eventType == t;
      assert x in items + [e];
    }
    assert e in items + [e];
  }

  lemma SomeBacktestSnoc(items: seq<Event>, e: Event)
    ensures SomeBacktest(items + [e]) <==> SomeBacktest(items) || IsBacktestType(e.eventType)
  {
    if SomeBacktest(items) {
      var x :| x in items && IsBacktestType(x.eventType);
      assert x in items + [e];
    }
    assert e in items + [e];
  }

  lemma NamesSnoc(items: seq<Event>, e: Event)
    ensures FirstSymbol(items + [e])
         == if FirstSymbol(items).None? && Truthy(e.symbol) then e.symbol else FirstSymbol(items)
    ensures FirstTimeframe(items + [e])
         == if FirstTimeframe(items).None? && Truthy(e.timeframe) then e.timeframe else FirstTimeframe(items)
  {
    assert (items + [e])[..|items|] == items;
  }

  /** The client's update is the server's summary exactly when the event does not diverge. */
  lemma SummarySnoc(items: seq<Event>, e: Event)
    requires items != [] ==> items[0].runId == e.runId
    ensures UpdatedRun(SummaryOf(items), e) == Summary(items + [e]) <==> !DivergesAfter(items, e)
  {
    StatusSnoc(items, e);
    SomeBacktestSnoc(items, e);
    NamesSnoc(items, e);
    assert (items + [e])[0] == if items == [] then e else items[0];
  }

  // ---- all runs ----

  lemma {:induction false} GroupedMembers(events: seq<Event>, ids: seq<int>)
    requires forall id :: id in ids ==> id in RunIds(events)
    ensures forall i :: 0 <= i < |ids| ==>
      RunItems(events, ids[i]) != [] && GroupedFrom(events, ids)[i] == Summary(RunItems(events, ids[i]))
  {
    if ids != [] {
      RunHasItems(events, ids[0]);
      GroupedMembers(events, ids[1..]);
    }
  }

  lemma RunOf(events: seq<Event>, x: RunSummary)
    requires x in GroupRuns(events)
    ensures x.runId in RunIds(events)
    ensures RunItems(events, x.runId) != [] && x == Summary(RunItems(events, x.runId))
  {
    var ids := RunIds(events);
    GroupedMembers(events, ids);
    var i :| 0 <= i < |ids| && GroupRuns(events)[i] == x;
    assert RunItems(events, ids[i])[0] in RunItems(events, ids[i]);
  }

  lemma RunIsListed(events: seq<Event>, run: int)
    requires RunItems(events, run) != []
    ensures run in RunIds(events) && RunItems(events, run)[0].runId == run
  {
    var items := RunItems(events, run);
    assert items[0] in items;
  }

  lemma SummaryIsGrouped(events: seq<Event>, run: int)
    requires RunItems(events, run) != []
    ensures Summary(RunItems(events, run)).runId == run
    ensures Summary(RunItems(events, run)) in GroupRuns(events)
  {
    RunIsListed(events, run);
    var ids := RunIds(events);
    var i :| 0 <= i < |ids| && ids[i] == run;
    GroupedMembers(events, ids);
    assert GroupRuns(events)[i] in GroupRuns(events);
  }

  lemma ItemsSnoc(log: seq<Event>, e: Event, run: int)
    ensures RunItems(log + [e], run) == RunItems(log, run) + (if e.runId == run then [e] else [])
  {
    assert (log + [e])[..|log|] == log;
  }

  lemma LastItem(streamId: int, log: seq<Event>, a: RunSummary) returns (i: nat)
    requires Gapless(streamId, log) && a in GroupRuns(log)
    ensures i < |log| && log[i].runId == a.runId && a.lastSequence == i + 1
  {
    RunOf(log, a);
    var x := RunItems(log, a.runId);
    assert x[|x| - 1] in x;
    i :| 0 <= i < |log| && log[i] == x[|x| - 1];
  }

  lemma RunsStrict(streamId: int, log: seq<Event>)
    requires Gapless(streamId, log)
    ensures Sorted(ServerRuns(log), Strict(NewestFirst))
    ensures forall x :: x in ServerRuns(log) <==> x in GroupRuns(log)
  {
    var g, ids := GroupRuns(log), RunIds(log);
    GroupedMembers(log, ids);
    forall i, j | 0 <= i < j < |g|
      ensures !(NewestFirst(g[i], g[j]) && NewestFirst(g[j], g[i]))
    {
      SummaryIsGrouped(log, ids[i]);
      SummaryIsGrouped(log, ids[j]);
      var _ := LastItem(streamId, log, g[i]);
      var _ := LastItem(streamId, log, g[j]);
    }
    SortStrict(g, NewestFirst);
    SortMembers(g, NewestFirst);
  }

  lemma {:induction false} OtherRunsSorted(runs: seq<RunSummary>, run: int)
    requires Sorted(runs, Strict(NewestFirst))
    ensures Sorted(OtherRuns(runs, run), Strict(NewestFirst))
  {
    if runs != [] {
      OtherRunsSorted(runs[1..], run);
      forall x | x in OtherRuns(runs[1..], run)
        ensures Strict(NewestFirst)(runs[0], x)
      {
        var i :| 0 <= i < |runs[1..]| && runs[1..][i] == x;
        assert Strict(NewestFirst)(runs[0], runs[i + 1]);
      }
    }
  }

  lemma {:induction false} InsertionsAgree(u: RunSummary, rest: seq<RunSummary>)
    requires forall y :: y in rest ==> y.lastSequence <= u.lastSequence
    ensures Insert(u, rest, UpdatedFirst) == Insert(u, rest, NewestFirst)
  {
    if rest != [] && !UpdatedFirst(u, rest[0]) {
      InsertionsAgree(u, rest[1..]);
    }
  }

  /** The client's sort by update time alone still yields the server's order. */
  lemma ClientOrder(u: RunSummary, rest: seq<RunSummary>)
    requires Sorted(rest, Strict(NewestFirst))
    requires forall y :: y in rest ==> y.lastSequence < u.lastSequence
    ensures Sorted(StableSort([u] + rest, UpdatedFirst), Strict(NewestFirst))
    ensures forall x :: x in StableSort([u] + rest, UpdatedFirst) <==> x == u || x in rest
  {
    assert ([u] + rest)[1..] == rest;
    forall i, j | 0 <= i < j < |rest|
      ensures UpdatedFirst(rest[i], rest[j])
    {
      assert Strict(NewestFirst)(rest[i], rest[j]);
      assert NewestFirst(rest[i], rest[j]);
    }
    SortOfSorted(rest, UpdatedFirst);
    InsertionsAgree(u, rest);
    InsertStrict(u, rest, NewestFirst);
    SortMembers([u] + rest, UpdatedFirst);
  }

  lemma FoundRun(streamId: int, log: seq<Event>, run: int)
    requires Gapless(streamId, log)
    ensures FindRun(ServerRuns(log), run) == SummaryOf(RunItems(log, run))
  {
    RunsStrict(streamId, log);
    var found := FindRun(ServerRuns(log), run);
    if found.Some? {
      RunOf(log, found.value);
    }
    if RunItems(log, run) != [] {
      SummaryIsGrouped(log, run);
    }
  }

  lemma GroupedIff(events: seq<Event>, x: RunSummary, items: seq<Event>)
    requires items == RunItems(events, x.runId)
    ensures x in GroupRuns(events) <==> items != [] && x == Summary(items)
  {
    if x in GroupRuns(events) {
      RunOf(events, x);
    }
    if items != [] {
      SummaryIsGrouped(events, x.runId);
    }
  }

  lemma GroupedSame(log: seq<Event>, e: Event, x: RunSummary)
    requires x.runId != e.runId
    ensures x in GroupRuns(log + [e]) <==> x in GroupRuns(log)
  {
    var items := RunItems(log, x.runId);
    ItemsSnoc(log, e, x.runId);
    assert RunItems(log + [e], x.runId) == items;
    GroupedIff(log + [e], x, items);
    GroupedIff(log, x, items);
  }

  lemma GroupedNew(log: seq<Event>, e: Event, x: RunSummary)
    requires x.runId == e.runId
    ensures x in GroupRuns(log + [e]) <==> x == Summary(RunItems(log, e.runId) + [e])
  {
    var items := RunItems(log, x.runId) + [e];
    ItemsSnoc(log, e, x.runId);
    GroupedIff(log + [e], x, items);
  }

  /** The members of the server's next run list. */
  lemma NextMembers(streamId: int, log: seq<Event>, e: Event, x: RunSummary)
    requires Gapless(streamId, log + [e]) && Gapless(streamId, log)
    ensures x in ServerRuns(log + [e]) <==>
      x == Summary(RunItems(log, e.runId) + [e]) || (x in ServerRuns(log) && x.runId != e.runId)
  {
    RunsStrict(streamId, log);
    RunsStrict(streamId, log + [e]);
    if x.runId == e.runId {
      GroupedNew(log, e, x);
    } else {
      GroupedSame(log, e, x);
      var items := RunItems(log, e.runId) + [e];
      assert items[0] in items;
    }
  }

  lemma RunsStep(streamId: int, log: seq<Event>, e: Event)
    requires Gapless(streamId, log + [e]) && Gapless(streamId, log)
    ensures ClientRuns(ServerRuns(log), e) == ServerRuns(log + [e])
       <==> !DivergesAfter(RunItems(log, e.runId), e)
  {
    var items := RunItems(log, e.runId);
    var u := UpdatedRun(FindRun(ServerRuns(log), e.runId), e);
    var rest := OtherRuns(ServerRuns(log), e.runId);
    assert items != [] ==> items[0] in items;
    FoundRun(streamId, log, e.runId);
    SummarySnoc(items, e);
    RunsStrict(streamId, log);
    OtherRunsSorted(ServerRuns(log), e.runId);
    forall y | y in rest
      ensures y.lastSequence < u.lastSequence
    {
      var _ := LastItem(streamId, log, y);
      assert (log + [e])[|log|] == e;
    }
    ClientOrder(u, rest);
    var mine, theirs := ClientRuns(ServerRuns(log), e), ServerRuns(log + [e]);
    forall x
      ensures x in theirs <==> x == Summary(items + [e]) || x in rest
    {
      NextMembers(streamId, log, e, x);
    }
    assert u in mine;
    RunsEqual(streamId, log + [e], mine, u, Summary(items + [e]), rest);
  }

  lemma RunsEqual(streamId: int, log': seq<Event>, mine: seq<RunSummary>, u: RunSummary, s: RunSummary, rest: seq<RunSummary>)
    requires Gapless(streamId, log')
    requires Sorted(mine, Strict(NewestFirst))
    requires forall x :: x in mine <==> x == u || x in rest
    requires forall x :: x in ServerRuns(log') <==> x == s || x in rest
    requires forall x :: x in rest ==> x.runId != u.runId
    ensures mine == ServerRuns(log') <==> u == s
  {
    if u == s {
      RunsStrict(streamId, log');
      SortedUnique(mine, ServerRuns(log'), Strict(NewestFirst));
    } else {
      assert u in mine;
      assert u !in rest;
    }
  }

  // ---- agents ----

  lemma {:induction false} AgentRowsMembers(events: seq<Event>, ids: seq<int>)
    requires forall id :: id in ids ==> id in AgentIds(events)
    ensures forall i :: 0 <= i < |ids| ==>
      && LatestSignal(events, ids[i]).Some?
      && LatestSignal(events, ids[i]).value.payload.AgentSignalPayload?
      && AgentRows(events, ids)[i] == AgentRow(LatestSignal(events, ids[i]).value)
      && AgentRows(events, ids)[i].agentId == ids[i]
  {
    if ids != [] {
      AgentHasSignal(events, ids[0]);
      AgentRowsMembers(events, ids[1..]);
    }
  }

  lemma AgentsSorted(events: seq<Event>)
    ensures Sorted(ServerAgents(events), Strict(ByAgent))
  {
    var ids := SortedInts(AgentIds(events));
    AgentRowsMembers(events, ids);
    var r := ServerAgents(events);
    forall i, j | 0 <= i < j < |r|
      ensures Strict(ByAgent)(r[i], r[j])
    {
      assert Below(ids[i], ids[j]);
      assert ByAgent(r[i], r[j]) && !ByAgent(r[j], r[i]);
    }
  }

  lemma AgentMember(events: seq<Event>, x: AgentSummary)
    ensures x in ServerAgents(events) <==>
      LatestSignal(events, x.agentId).Some?
      && LatestSignal(events, x.agentId).value.payload.AgentSignalPayload?
      && x == AgentRow(LatestSignal(events, x.agentId).value)
  {
    var ids := SortedInts(AgentIds(events));
    AgentRowsMembers(events, ids);
    AgentHasSignal(events, x.agentId);
    if LatestSignal(events, x.agentId).Some? {
      var i :| 0 <= i < |ids| && ids[i] == x.agentId;
      assert ServerAgents(events)[i].agentId == x.agentId;
    }
  }

  lemma {:induction false} OtherAgentsSorted(agents: seq<AgentSummary>, agent: int)
    requires Sorted(agents, Strict(ByAgent))
    ensures Sorted(OtherAgents(agents, agent), Strict(ByAgent))
  {
    if agents != [] {
      OtherAgentsSorted(agents[1..], agent);
      forall x | x in OtherAgents(agents[1..], agent)
        ensures Strict(ByAgent)(agents[0], x)
      {
        var i :| 0 <= i < |agents[1..]| && agents[1..][i] == x;
        assert Strict(ByAgent)(agents[0], agents[i + 1]);
      }
    }
  }

  lemma AgentsStep(log: seq<Event>, e: Event)
    requires ValidEvent(e)
    ensures ClientAgents(ServerAgents(log), e) == ServerAgents(log + [e])
  {
    hide ServerAgents, StableSort;
    var mine, theirs := ClientAgents(ServerAgents(log), e), ServerAgents(log + [e]);
    AgentsSorted(log);
    AgentsSorted(log + [e]);
    if e.eventType.AgentSignalEmitted? {
      OtherAgentsSorted(ServerAgents(log), e.payload.agentId);
      AppendedAgent(OtherAgents(ServerAgents(log), e.payload.agentId), AgentRow(e));
    }
    forall x
      ensures x in mine <==> x in theirs
    {
      NextAgent(log, e, x);
    }
    SortedUnique(mine, theirs, Strict(ByAgent));
  }

  /** The members of the server's next agent list. */
  lemma NextAgent(log: seq<Event>, e: Event, x: AgentSummary)
    requires ValidEvent(e)
    ensures x in ServerAgents(log + [e]) <==>
      if e.eventType.AgentSignalEmitted? && x.agentId == e.payload.agentId then x == AgentRow(e) else x in ServerAgents(log)
  {
    hide ServerAgents;
    AgentMember(log, x);
    AgentMember(log + [e], x);
    assert (log + [e])[..|log|] == log;
  }

  lemma AppendedAgent(rest: seq<AgentSummary>, row: AgentSummary)
    requires Sorted(rest, Strict(ByAgent))
    requires forall x :: x in rest ==> x.agentId != row.agentId
    ensures Sorted(StableSort(rest + [row], ByAgent), Strict(ByAgent))
    ensures forall x :: x in StableSort(rest + [row], ByAgent) <==> x in rest || x == row
  {
    var all := rest + [row];
    forall i, j | 0 <= i < j < |all|
      ensures !(ByAgent(all[i], all[j]) && ByAgent(all[j], all[i]))
    {
      if j < |rest| {
        assert Strict(ByAgent)(rest[i], rest[j]);
      } else {
        assert rest[i] in rest;
      }
    }
    SortStrict(all, ByAgent);
    SortMembers(all, ByAgent);
  }

  // ---- the state panel ----

  /** The state panel without the latest risk decision, on which the two sides differ by design. */
  function WithoutRisk(v: StateView): StateView
  {
    v.(latestRisk := None)
  }

  lemma StateStep(streamId: int, log: seq<Event>, e: Event, v: StateView)
    requires e.streamId == Some(streamId) && e.sequence == |log| + 1 <= CLIENT_EVENT_LIMIT
    requires WithoutRisk(v) == WithoutRisk(ServerState(streamId, |log|, log))
    ensures WithoutRisk(ClientState(Some(v), e))
         == WithoutRisk(ServerState(streamId, |log| + 1, log + [e]))
  {
    hide LatestOf, ActiveSet, SortedInts;
    LatestSnoc(log, e, PortfolioUpdated);
    LatestSnoc(log, e, CouncilDecisionEmitted);
    ActiveSnoc(log, e);
    assert v.activeRuns == SortedInts(ActiveSet(log));
    assert (set r | r in v.activeRuns) == ActiveSet(log);
  }

  lemma LatestSnoc(log: seq<Event>, e: Event, t: EventType)
    ensures LatestOf(log + [e], t) == if e.eventType == t then Some(e.payload) else LatestOf(log, t)
  {
    assert (log + [e])[..|log|] == log;
  }

  lemma ActiveSnoc(log: seq<Event>, e: Event)
    ensures ActiveSet(log + [e]) == ActiveAfter(ActiveSet(log), e)
  {
    assert (log + [e])[..|log|] == log;
  }

  // ---- the whole view ----

  datatype View = View(state: Option<StateView>, runs: seq<RunSummary>, agents: seq<AgentSummary>)

  function ServerView(streamId: int, log: seq<Event>): View
  {
    View(Some(ServerState(streamId, |log|, log)), ServerRuns(log), ServerAgents(log))
  }

  function ClientStep(v: View, e: Event): View
    requires e.streamId.Some? && ValidEvent(e)
  {
    View(Some(ClientState(v.state, e)), ClientRuns(v.runs, e), ClientAgents(v.agents, e))
  }

  ghost predicate SameView(a: View, b: View)
  {
    && a.state.Some? && b.state.Some? && WithoutRisk(a.state.value) == WithoutRisk(b.state.value)
    && a.runs == b.runs
    && a.agents == b.agents
  }

  /** A stream both sides can hold whole: numbered, well typed and never evicted. */
  ghost predicate WholeStream(streamId: int, log: seq<Event>)
  {
    && Gapless(streamId, log)
    && |log| <= CLIENT_EVENT_LIMIT
    && (forall e :: e in log ==> ValidEvent(e))
  }

  predicate Divergent(log: seq<Event>, m: nat)
    requires m < |log|
  {
    DivergesAfter(RunItems(log[..m], log[m].runId), log[m])
  }

  lemma PrefixIsWhole(streamId: int, log: seq<Event>, m: nat)
    requires WholeStream(streamId, log) && m <= |log|
    ensures WholeStream(streamId, log[..m])
  {
    forall e | e in log[..m]
      ensures ValidEvent(e)
    {
      assert e in log;
    }
  }

  /** One event: the views stay equal exactly when the event does not diverge. */
  lemma ViewStep(streamId: int, log: seq<Event>, m: nat, v: View)
    requires WholeStream(streamId, log) && m < |log|
    requires SameView(v, ServerView(streamId, log[..m]))
    requires ValidEvent(log[m])
    ensures SameView(ClientStep(v, log[m]), ServerView(streamId, log[..m + 1])) <==> !Divergent(log, m)
  {
    hide ServerState, ServerRuns, ServerAgents, ClientState, ClientRuns, ClientAgents, WithoutRisk, ValidEvent;
    var before, e := log[..m], log[m];
    assert log[..m + 1] == before + [e];
    StateStep(streamId, before, e, v.state.value);
    RunsStep(streamId, before, e);
    AgentsStep(before, e);
  }

  /** The browser's view after a bootstrap at `k` and the events up to `m`. */
  function ViewAt(streamId: int, log: seq<Event>, k: nat, m: nat): View
    requires k <= m <= |log|
    requires forall i :: 0 <= i < |log| ==> log[i].streamId.Some? && ValidEvent(log[i])
    decreases m
  {
    if m == k then ServerView(streamId, log[..k])
    else ClientStep(ViewAt(streamId, log, k, m - 1), log[m - 1])
  }

  lemma {:induction false} AgreesUpTo(streamId: int, log: seq<Event>, k: nat, m: nat)
    requires WholeStream(streamId, log) && k <= m <= |log|
    requires forall i :: k <= i < m ==> !Divergent(log, i)
    ensures SameView(ViewAt(streamId, log, k, m), ServerView(streamId, log[..m]))
  {
    if m > k {
      AgreesUpTo(streamId, log, k, m - 1);
      ViewStep(streamId, log, m - 1, ViewAt(streamId, log, k, m - 1));
    }
  }

  /** From a bootstrap at any point, the browser shows what the server would compute at every
      later point exactly when no later event diverges. */
  lemma IncrementalViewIsBatchView(streamId: int, log: seq<Event>, k: nat)
    requires WholeStream(streamId, log) && k <= |log|
    ensures (forall m :: k <= m <= |log| ==>
               SameView(ViewAt(streamId, log, k, m), ServerView(streamId, log[..m])))
       <==> (forall m :: k <= m < |log| ==> !Divergent(log, m))
  {
    if forall m :: k <= m < |log| ==> !Divergent(log, m) {
      forall m | k <= m <= |log|
        ensures SameView(ViewAt(streamId, log, k, m), ServerView(streamId, log[..m]))
      {
        AgreesUpTo(streamId, log, k, m);
      }
    } else {
      var m :| k <= m < |log| && Divergent(log, m);
      if SameView(ViewAt(streamId, log, k, m), ServerView(streamId, log[..m])) {
        ViewStep(streamId, log, m, ViewAt(streamId, log, k, m));
        assert !SameView(ViewAt(streamId, log, k, m + 1), ServerView(streamId, log[..m + 1]));
      }
    }
  }

  function NumberedEvent(streamId: int, sequence: nat, t: EventType, symbol: Option<string>, content: int): Event
  {
    Event(sequence, t, Some(streamId), sequence, 1, symbol, None, sequence, StagePayload(content))
  }

  function FailedThenCompleted(streamId: int): seq<Event>
  {
    [NumberedEvent(streamId, 1, PipelineFailed, None, 0), NumberedEvent(streamId, 2, PipelineCompleted, None, 0)]
  }

  lemma FailureIsRemembered(e: Event)
    requires e.eventType.PipelineFailed? && e.symbol.None? && e.timeframe.None?
    ensures SomeType(RunItems([e], e.runId), PipelineFailed) && !DivergesAfter(RunItems([], e.runId), e)
  {
    assert RunItems([e], e.runId) == [e];
    assert e in RunItems([e], e.runId);
  }

  /** There are diverging logs: a completion after a failure. */
  lemma FailedRunsDiffer(streamId: int)
    ensures var log := FailedThenCompleted(streamId);
      WholeStream(streamId, log) && Divergent(log, 1) && !SameView(ViewAt(streamId, log, 0, 2), ServerView(streamId, log[..2]))
  {
    hide ServerView, ClientStep, SameView, SomeType;
    var log := FailedThenCompleted(streamId);
    FailureIsRemembered(log[0]);
    assert log[..0] == [] && log[..1] == [log[0]];
    AgreesUpTo(streamId, log, 0, 1);
    ViewStep(streamId, log, 1, ViewAt(streamId, log, 0, 1));
  }

  /** And a first symbol that is the empty text. */
  lemma UnnamedRunsDiffer(streamId: int)
    ensures var log := [NumberedEvent(streamId, 1, PipelineStarted, Some(""), 0)];
      WholeStream(streamId, log) && Divergent(log, 0) && !SameView(ViewAt(streamId, log, 0, 1), ServerView(streamId, log[..1]))
  {
    hide ServerView, ClientStep, SameView;
    var log := [NumberedEvent(streamId, 1, PipelineStarted, Some(""), 0)];
    assert log[..0] == [];
    AgreesUpTo(streamId, log, 0, 0);
    ViewStep(streamId, log, 0, ViewAt(streamId, log, 0, 0));
  }

  // ---- the latest risk decision ----

  /** A veto event that repeats the risk decision before it. */
  predicate Repeats(log: seq<Event>, i: nat)
    requires i < |log|
  {
    log[i].eventType.RiskVetoed? ==> LatestOf(log[..i], RiskDecisionEmitted) == Some(log[i].payload)
  }

  /** What the browser's risk panel shows, against what the server's shows. */
  predicate SameRisk(v: View, log: seq<Event>)
  {
    v.state.Some? && v.state.value.latestRisk == LatestOf(log, RiskDecisionEmitted)
  }

  lemma RiskStep(log: seq<Event>, m: nat, v: View)
    requires m < |log| && log[m].streamId.Some? && ValidEvent(log[m]) && SameRisk(v, log[..m])
    ensures SameRisk(ClientStep(v, log[m]), log[..m + 1]) <==> Repeats(log, m)
  {
    hide LatestOf, ClientRuns, ClientAgents, SortedInts;
    assert log[..m + 1] == log[..m] + [log[m]];
    LatestSnoc(log[..m], log[m], RiskDecisionEmitted);
  }

  lemma {:induction false} RiskAgreesUpTo(streamId: int, log: seq<Event>, k: nat, m: nat)
    requires k <= m <= |log| && forall i :: 0 <= i < |log| ==> log[i].streamId.Some? && ValidEvent(log[i])
    requires forall i :: k <= i < m ==> Repeats(log, i)
    ensures SameRisk(ViewAt(streamId, log, k, m), log[..m])
  {
    if m > k {
      RiskAgreesUpTo(streamId, log, k, m - 1);
      RiskStep(log, m - 1, ViewAt(streamId, log, k, m - 1));
    }
  }

  /** From a bootstrap at any point, the browser's risk panel shows the server's latest risk decision
      at every later point if and only if every veto since the bootstrap repeats the risk decision
      before it: the browser takes the panel from veto events too, the server does not. */
  lemma RiskPanelAgrees(streamId: int, log: seq<Event>, k: nat)
    requires k <= |log| && forall i :: 0 <= i < |log| ==> log[i].streamId.Some? && ValidEvent(log[i])
    ensures (forall m :: k <= m <= |log| ==> SameRisk(ViewAt(streamId, log, k, m), log[..m]))
       <==> (forall i :: k <= i < |log| ==> Repeats(log, i))
  {
    hide ViewAt, Repeats, SameRisk;
    if forall i :: k <= i < |log| ==> Repeats(log, i) {
      forall m | k <= m <= |log|
        ensures SameRisk(ViewAt(streamId, log, k, m), log[..m])
      {
        RiskAgreesUpTo(streamId, log, k, m);
      }
    } else {
      var i :| k <= i < |log| && !Repeats(log, i);
      RiskParts(streamId, log, k, i);
    }
  }

  lemma RiskParts(streamId: int, log: seq<Event>, k: nat, i: nat)
    requires k <= i < |log| && (forall j :: 0 <= j < |log| ==> log[j].streamId.Some? && ValidEvent(log[j])) && !Repeats(log, i)
    ensures !SameRisk(ViewAt(streamId, log, k, i), log[..i]) || !SameRisk(ViewAt(streamId, log, k, i + 1), log[..i + 1])
  {
    hide Repeats, SameRisk, ClientStep;
    if SameRisk(ViewAt(streamId, log, k, i), log[..i]) {
      RiskStep(log, i, ViewAt(streamId, log, k, i));
    }
  }

  /** There is such a log: a decision and a veto with another payload. */
  lemma RiskPanelCanDiffer(streamId: int)
    ensures var log := [NumberedEvent(streamId, 1, RiskDecisionEmitted, None, 1), NumberedEvent(streamId, 2, RiskVetoed, None, 2)];
      && WholeStream(streamId, log)
      && SameRisk(ViewAt(streamId, log, 0, 1), log[..1]) && !SameRisk(ViewAt(streamId, log, 0, 2), log[..2])
  {
    var log := [NumberedEvent(streamId, 1, RiskDecisionEmitted, None, 1), NumberedEvent(streamId, 2, RiskVetoed, None, 2)];
    hide SameRisk;
    RiskAgreesUpTo(streamId, log, 0, 1);
    assert log[..1] == [log[0]];
    RiskStep(log, 1, ViewAt(streamId, log, 0, 1));
  }

  /** Nothing is left out: the whole view, risk panel included, is the server's at every later point if
      and only if no later event diverges and every later veto repeats the decision before it. */
  lemma WholeViewAgrees(streamId: int, log: seq<Event>, k: nat)
    requires WholeStream(streamId, log) && k <= |log|
    ensures (forall m :: k <= m <= |log| ==> ViewAt(streamId, log, k, m) == ServerView(streamId, log[..m]))
       <==> (forall i :: k <= i < |log| ==> !Divergent(log, i) && Repeats(log, i))
  {
    hide ViewAt, Divergent, Repeats, SameRisk, SameView, ServerView;
    EventsAreValid(streamId, log);
    IncrementalViewIsBatchView(streamId, log, k);
    RiskPanelAgrees(streamId, log, k);
    forall m | k <= m <= |log|
      ensures ViewAt(streamId, log, k, m) == ServerView(streamId, log[..m])
         <==> SameView(ViewAt(streamId, log, k, m), ServerView(streamId, log[..m])) && SameRisk(ViewAt(streamId, log, k, m), log[..m])
    {
      EqualViews(streamId, log[..m], ViewAt(streamId, log, k, m));
    }
  }

  lemma EventsAreValid(streamId: int, log: seq<Event>)
    requires WholeStream(streamId, log)
    ensures forall i :: 0 <= i < |log| ==> log[i].streamId.Some? && ValidEvent(log[i])
  {
  }

  lemma EqualViews(streamId: int, log: seq<Event>, v: View)
    ensures v == ServerView(streamId, log) <==> SameView(v, ServerView(streamId, log)) && SameRisk(v, log)
  {
    hide ServerRuns, ServerAgents, LatestOf, ActiveSet;
  }
}
