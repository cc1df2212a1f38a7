/** What the server derives from a whole event history, and what the browser derives one
    event at a time. */
module DashboardViews {
  import opened Sequences
  import opened TelemetryEvents

  datatype StateView = StateView(
    streamId: int,
    watermark: nat,
    eventCount: nat,
    lastSequence: nat,
    latestPortfolio: Option<Payload>,
    latestDecision: Option<Payload>,
    latestRisk: Option<Payload>,
    activeRuns: seq<int>)

  datatype RunKind = PipelineRun | BacktestRun
  datatype RunStatus = Running | Completed | Failed

  datatype RunSummary = RunSummary(
    runId: int,
    kind: RunKind,
    firstSequence: nat,
    lastSequence: nat,
    startedAt: int,
    updatedAt: int,
    eventCount: nat,
    status: RunStatus,
    symbol: Option<string>,
    timeframe: Option<string>)

  datatype AgentSummary = AgentSummary(agentId: int, agentVersion: int, latestSignal: Event)

  const CLIENT_EVENT_LIMIT: nat := 10_000

  predicate StartsRun(t: EventType) { t.PipelineStarted? || t.BacktestStarted? }
  predicate CompletesRun(t: EventType) { t.PipelineCompleted? || t.BacktestCompleted? }
  predicate EndsRun(t: EventType) { CompletesRun(t) || t.PipelineFailed? }
  predicate IsBacktestType(t: EventType) { t.BacktestStarted? || t.BacktestProgress? || t.BacktestCompleted? }

  // ---- the server's batch view ----

  function ActiveAfter(active: set<int>, e: Event): set<int>
  {
    if StartsRun(e.eventType) then active + {e.runId}
    else if EndsRun(e.eventType) then active - {e.runId}
    else active
  }

  function ActiveSet(events: seq<Event>): set<int>
  {
    if events == [] then {} else ActiveAfter(ActiveSet(events[..|events| - 1]), events[|events| - 1])
  }

  function LatestOf(events: seq<Event>, t: EventType): Option<Payload>
  {
    if events == [] then None
    else if events[|events| - 1].eventType == t then Some(events[|events| - 1].payload)
    else LatestOf(events[..|events| - 1], t)
  }

  function ServerState(streamId: int, watermark: nat, events: seq<Event>): StateView
  {
    StateView(
      streamId, watermark, |events|, watermark,
      LatestOf(events, PortfolioUpdated),
      LatestOf(events, CouncilDecisionEmitted),
      LatestOf(events, RiskDecisionEmitted),
      SortedInts(ActiveSet(events)))
  }

  function RunItems(events: seq<Event>, run: int): (r: seq<Event>)
    ensures forall e :: e in r <==> e in events && e.runId == run
  {
    if events == [] then []
    else
      var last := events[|events| - 1];
      RunItems(events[..|events| - 1], run) + (if last.runId == run then [last] else [])
  }

  function RunIds(events: seq<Event>): (r: seq<int>)
    ensures forall id :: id in r <==> exists e :: e in events && e.runId == id
    ensures forall i, j :: 0 <= i < j < |r| ==> r[i] != r[j]
  {
    if events == [] then []
    else
      var rest := RunIds(events[..|events| - 1]);
      var last := events[|events| - 1];
      assert events == events[..|events| - 1] + [last];
      if last.runId in rest then rest else rest + [last.runId]
  }

  predicate SomeType(items: seq<Event>, t: EventType)
  {
    exists e :: e in items && e.eventType == t
  }

  predicate SomeBacktest(items: seq<Event>)
  {
    exists e :: e in items && IsBacktestType(e.eventType)
  }

  function StatusOf(items: seq<Event>): RunStatus
  {
    if SomeType(items, PipelineFailed) then Failed
    else if SomeType(items, PipelineCompleted) || SomeType(items, BacktestCompleted) then Completed
    else Running
  }

  predicate Truthy(name: Option<string>) { name.Some? && name.value != "" }

  /** Python's `next((item.symbol for item in items if item.symbol), None)`. */
  function FirstSymbol(items: seq<Event>): Option<string>
  {
    if items == [] then None
    else
      var before := FirstSymbol(items[..|items| - 1]);
      if before.None? && Truthy(items[|items| - 1].symbol) then items[|items| - 1].symbol else before
  }

  function FirstTimeframe(items: seq<Event>): Option<string>
  {
    if items == [] then None
    else
      var before := FirstTimeframe(items[..|items| - 1]);
      if before.None? && Truthy(items[|items| - 1].timeframe) then items[|items| - 1].timeframe else before
  }

  function Summary(items: seq<Event>): RunSummary
    requires items != []
  {
    var last := items[|items| - 1];
    RunSummary(
      items[0].runId,
      if SomeBacktest(items) then BacktestRun else PipelineRun,
      items[0].sequence, last.sequence, items[0].emittedAt, last.emittedAt, |items|,
      StatusOf(items), FirstSymbol(items), FirstTimeframe(items))
  }

  lemma RunHasItems(events: seq<Event>, run: int)
    requires run in RunIds(events)
    ensures RunItems(events, run) != []
  {
    var e :| e in events && e.runId == run;
    assert e in RunItems(events, run);
  }

  function GroupedFrom(events: seq<Event>, ids: seq<int>): (r: seq<RunSummary>)
    requires forall id :: id in ids ==> id in RunIds(events)
    ensures |r| == |ids|
  {
    if ids == [] then []
    else
      RunHasItems(events, ids[0]);
      [Summary(RunItems(events, ids[0]))] + GroupedFrom(events, ids[1..])
  }

  function GroupRuns(events: seq<Event>): seq<RunSummary>
  {
    GroupedFrom(events, RunIds(events))
  }

  /** Descending by `(updated_at, last_sequence)`. */
  predicate NewestFirst(a: RunSummary, b: RunSummary)
  {
    a.updatedAt > b.updatedAt || (a.updatedAt == b.updatedAt && a.lastSequence >= b.lastSequence)
  }

  function ServerRuns(events: seq<Event>): seq<RunSummary>
  {
    StableSort(GroupRuns(events), NewestFirst)
  }

  function AgentIds(events: seq<Event>): set<int>
  {
    if events == [] then {}
    else
      var last := events[|events| - 1];
      AgentIds(events[..|events| - 1])
      + (if last.eventType.AgentSignalEmitted? && last.payload.AgentSignalPayload? then {last.payload.agentId} else {})
  }

  predicate SignalOf(e: Event, agent: int)
  {
    e.eventType.AgentSignalEmitted? && e.payload.AgentSignalPayload? && e.payload.agentId == agent
  }

  function LatestSignal(events: seq<Event>, agent: int): Option<Event>
  {
    if events == [] then None
    else if SignalOf(events[|events| - 1], agent) then Some(events[|events| - 1])
    else LatestSignal(events[..|events| - 1], agent)
  }

  function AgentRow(e: Event): AgentSummary
    requires e.payload.AgentSignalPayload?
  {
    AgentSummary(e.payload.agentId, e.payload.agentVersion, e)
  }

  lemma AgentHasSignal(events: seq<Event>, agent: int)
    ensures agent in AgentIds(events) <==> LatestSignal(events, agent).Some?
    ensures LatestSignal(events, agent).Some? ==> SignalOf(LatestSignal(events, agent).value, agent)
  {
    if events != [] {
      AgentHasSignal(events[..|events| - 1], agent);
    }
  }

  function AgentRows(events: seq<Event>, ids: seq<int>): (r: seq<AgentSummary>)
    requires forall id :: id in ids ==> id in AgentIds(events)
    ensures |r| == |ids|
  {
    if ids == [] then []
    else
      AgentHasSignal(events, ids[0]);
      [AgentRow(LatestSignal(events, ids[0]).value)] + AgentRows(events, ids[1..])
  }

  function ServerAgents(events: seq<Event>): seq<AgentSummary>
  {
    AgentRows(events, SortedInts(AgentIds(events)))
  }

  /** The server's `_active_run_ids` loop. */
  method ActiveRunIds(events: seq<Event>) returns (r: seq<int>)
    ensures r == SortedInts(ActiveSet(events))
  {
    var active: set<int> := {};
    for i := 0 to |events|
      invariant active == ActiveSet(events[..i])
    {
      assert events[..i + 1][..i] == events[..i];
      if StartsRun(events[i].eventType) {
        active := active + {events[i].runId};
      } else if EndsRun(events[i].eventType) {
        active := active - {events[i].runId};
      }
    }
    assert events[..|events|] == events;
    r := SortedInts(active);
  }

  lemma NoItems()
    ensures RunIds([]) == [] && forall id :: RunItems([], id) == []
  {
  }

  lemma ItemsSnoc(events: seq<Event>, i: nat)
    requires i < |events|
    ensures var run := events[i].runId;
      && RunIds(events[..i + 1]) == (if run in RunIds(events[..i]) then RunIds(events[..i]) else RunIds(events[..i]) + [run])
      && (forall id :: RunItems(events[..i + 1], id) == RunItems(events[..i], id) + (if id == run then [events[i]] else []))
  {
    assert events[..i + 1][..i] == events[..i];
  }

  /** The server's `_group_runs` loop: run ids in first-seen order and each run's events. */
  method GroupItems(events: seq<Event>) returns (order: seq<int>, grouped: map<int, seq<Event>>)
    ensures order == RunIds(events)
    ensures forall id :: id in grouped <==> id in order
    ensures forall id :: id in grouped ==> grouped[id] == RunItems(events, id)
  {
    hide RunItems, RunIds;
    order, grouped := [], map[];
    NoItems();
    for i := 0 to |events|
      invariant order == RunIds(events[..i])
      invariant forall id :: id in grouped <==> id in order
      invariant forall id :: id in grouped ==> grouped[id] == RunItems(events[..i], id)
      invariant forall id :: id !in grouped ==> RunItems(events[..i], id) == []
    {
      var run := events[i].runId;
      ItemsSnoc(events, i);
      if run in grouped {
        grouped := grouped[run := grouped[run] + [events[i]]];
      } else {
        grouped, order := grouped[run := [events[i]]], order + [run];
      }
    }
    assert events[..|events|] == events;
  }

  /** The first loop of the server's `_agent_values`: a dictionary of latest signals. */
  method LatestSignals(events: seq<Event>) returns (latest: map<int, Event>)
    ensures latest.Keys == AgentIds(events)
    ensures forall a :: a in latest ==> LatestSignal(events, a) == Some(latest[a])
  {
    latest := map[];
    for i := 0 to |events|
      invariant latest.Keys == AgentIds(events[..i])
      invariant forall a :: a in latest ==> LatestSignal(events[..i], a) == Some(latest[a])
    {
      assert events[..i + 1][..i] == events[..i];
      if events[i].eventType.AgentSignalEmitted? && events[i].payload.AgentSignalPayload? {
        latest := latest[events[i].payload.agentId := events[i]];
      }
    }
    assert events[..|events|] == events;
  }

  /** The server's `_agent_values`: the dictionary's items in key order. */
  method AgentValues(events: seq<Event>) returns (r: seq<AgentSummary>)
    ensures r == ServerAgents(events)
  {
    hide LatestSignal, AgentIds, SignalOf;
    var latest := LatestSignals(events);
    var ids := SortedInts(latest.Keys);
    r := [];
    for i := 0 to |ids|
      invariant r + AgentRows(events, ids[i..]) == AgentRows(events, ids)
    {
      assert ids[i] in latest.Keys;
      AgentHasSignal(events, ids[i]);
      var value := latest[ids[i]];
      r := r + [AgentSummary(ids[i], value.payload.agentVersion, value)];
      assert ids[i..][0] == ids[i] && ids[i..][1..] == ids[i + 1..];
    }
    assert ids[|ids|..] == [];
  }

  // ---- the browser's incremental view ----

  function ClientState(state: Option<StateView>, e: Event): StateView
    requires e.streamId.Some?
  {
    var active := if state.Some? then (set r | r in state.value.activeRuns) else {};
    var started := if StartsRun(e.eventType) then active + {e.runId} else active;
    var ended := if EndsRun(e.eventType) then started - {e.runId} else started;
    var count := (if state.Some? then state.value.eventCount else 0) + 1;
    StateView(
      e.streamId.value, e.sequence,
      if count < CLIENT_EVENT_LIMIT then count else CLIENT_EVENT_LIMIT,
      e.sequence,
      if e.eventType.PortfolioUpdated? then Some(e.payload)
      else if state.Some? then state.value.latestPortfolio else None,
      if e.eventType.CouncilDecisionEmitted? then Some(e.payload)
      else if state.Some? then state.value.latestDecision else None,
      if e.eventType.RiskDecisionEmitted? || e.eventType.RiskVetoed? then Some(e.payload)
      else if state.Some? then state.value.latestRisk else None,
      SortedInts(ended))
  }

  function FindRun(runs: seq<RunSummary>, run: int): (r: Option<RunSummary>)
    ensures r.Some? ==> r.value in runs && r.value.runId == run
    ensures r.None? ==> forall x :: x in runs ==> x.runId != run
  {
    if runs == [] then None
    else if runs[0].runId == run then Some(runs[0])
    else FindRun(runs[1..], run)
  }

  function OtherRuns(runs: seq<RunSummary>, run: int): (r: seq<RunSummary>)
    ensures forall x :: x in r <==> x in runs && x.runId != run
  {
    if runs == [] then []
    else (if runs[0].runId != run then [runs[0]] else []) + OtherRuns(runs[1..], run)
  }

  function UpdatedRun(existing: Option<RunSummary>, e: Event): RunSummary
  {
    RunSummary(
      e.runId,
      if IsBacktestType(e.eventType) then BacktestRun
      else if existing.Some? then existing.value.kind else PipelineRun,
      if existing.Some? then existing.value.firstSequence else e.sequence,
      e.sequence,
      if existing.Some? then existing.value.startedAt else e.emittedAt,
      e.emittedAt,
      (if existing.Some? then existing.value.eventCount else 0) + 1,
      if e.eventType.PipelineFailed? then Failed
      else if CompletesRun(e.eventType) then Completed
      else if existing.Some? then existing.value.status else Running,
      if existing.Some? && existing.value.symbol.Some? then existing.value.symbol else e.symbol,
      if existing.Some? && existing.value.timeframe.Some? then existing.value.timeframe else e.timeframe)
  }

  predicate UpdatedFirst(a: RunSummary, b: RunSummary) { a.updatedAt >= b.updatedAt }

  function ClientRuns(runs: seq<RunSummary>, e: Event): seq<RunSummary>
  {
    StableSort([UpdatedRun(FindRun(runs, e.runId), e)] + OtherRuns(runs, e.runId), UpdatedFirst)
  }

  function OtherAgents(agents: seq<AgentSummary>, agent: int): (r: seq<AgentSummary>)
    ensures forall x :: x in r <==> x in agents && x.agentId != agent
  {
    if agents == [] then []
    else (if agents[0].agentId != agent then [agents[0]] else []) + OtherAgents(agents[1..], agent)
  }

  predicate ByAgent(a: AgentSummary, b: AgentSummary) { a.agentId <= b.agentId }

  function ClientAgents(agents: seq<AgentSummary>, e: Event): seq<AgentSummary>
    requires ValidEvent(e)
  {
    if !e.eventType.AgentSignalEmitted? then agents
    else StableSort(OtherAgents(agents, e.payload.agentId) + [AgentRow(e)], ByAgent)
  }
}
