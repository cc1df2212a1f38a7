/** Telemetry events as the bus numbers them and as the browser receives them. Identifiers
    are integers that stand for the source's strings in one fixed order. */
module TelemetryEvents {
  import opened Sequences

  datatype EventType =
    | PipelineStarted | PipelineCompleted | PipelineFailed
    | BacktestStarted | BacktestProgress | BacktestCompleted
    | SnapshotCreated | MarketContextReady
    | AgentStarted | AgentSignalEmitted
    | CouncilRoundStarted | CouncilDecisionEmitted
    | RiskEvaluationStarted | RiskDecisionEmitted | RiskVetoed
    | OrderApproved | ExecutionStarted | ExecutionReportEmitted
    | PortfolioUpdated | ReconciliationCompleted

  datatype Payload =
    | AgentSignalPayload(agentId: int, agentVersion: int, content: int)
    | StagePayload(content: int)

  datatype Event = Event(
    eventId: int,
    eventType: EventType,
    streamId: Option<int>,
    sequence: nat,
    runId: int,
    symbol: Option<string>,
    timeframe: Option<string>,
    emittedAt: int,
    payload: Payload)

  /** The payload class is checked against the event type when an event is built. */
  predicate ValidEvent(e: Event)
  {
    e.eventType.AgentSignalEmitted? ==> e.payload.AgentSignalPayload?
  }

  datatype EventFilter = EventFilter(
    symbol: Option<string>,
    runId: Option<int>,
    eventTypes: Option<set<EventType>>,
    timeframe: Option<string>)
  {
    predicate Matches(e: Event)
    {
      && (symbol.Some? ==> e.symbol == symbol)
      && (runId.Some? ==> e.runId == runId.value)
      && (eventTypes.Some? ==> e.eventType in eventTypes.value)
      && (timeframe.Some? ==> e.timeframe == timeframe)
    }
  }

  /** A stream's log: gapless numbering from one, all under one stream id. */
  ghost predicate Gapless(streamId: int, log: seq<Event>)
  {
    forall i :: 0 <= i < |log| ==>
      log[i].sequence == i + 1 && log[i].streamId == Some(streamId)
  }
}
