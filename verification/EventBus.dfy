/** The process-local event bus: gapless numbering, a bounded history, bounded
    deduplication, and ordered dispatch. */
module EventBus {
  import opened Sequences
  import opened TelemetryEvents

  /** `joinedAt` is the stream sequence at subscription; `received` lists the handler's calls. */
  datatype Subscription = Subscription(id: int, filter: EventFilter, joinedAt: nat, received: seq<Event>)

  datatype BusState = BusState(
    streamId: int,
    historyLimit: nat,
    dedupLimit: nat,
    sequence: nat,
    events: seq<Event>,
    eventIds: seq<int>,
    subscribers: seq<Subscription>)

  datatype BusSnapshot = BusSnapshot(streamId: int, watermark: nat, events: seq<Event>)

  function InitialBus(streamId: int, historyLimit: nat, dedupLimit: nat): BusState
  {
    BusState(streamId, historyLimit, dedupLimit, 0, [], [], [])
  }

  // ---- the sections of `publish`, under the state lock and under the dispatch lock ----

  function Sequenced(b: BusState, e: Event): Event
  {
    e.(sequence := b.sequence + 1, streamId := Some(b.streamId))
  }

  function Admit(b: BusState, e: Event): BusState
  {
    b.(sequence := b.sequence + 1,
       events := LastN(b.events + [Sequenced(b, e)], b.historyLimit),
       eventIds := LastN(b.eventIds + [e.eventId], b.dedupLimit))
  }

  function Handed(s: Subscription, e: Event): Subscription
  {
    if s.filter.Matches(e) then s.(received := s.received + [e]) else s
  }

  function Dispatched(subscribers: seq<Subscription>, e: Event): (r: seq<Subscription>)
    ensures |r| == |subscribers|
    ensures forall i :: 0 <= i < |r| ==> r[i] == Handed(subscribers[i], e)
  {
    if subscribers == [] then []
    else Dispatched(subscribers[..|subscribers| - 1], e) + [Handed(subscribers[|subscribers| - 1], e)]
  }

  function Published(b: BusState, e: Event): BusState
  {
    if e.eventId in b.eventIds then b
    else Admit(b, e).(subscribers := Dispatched(b.subscribers, Sequenced(b, e)))
  }

  function Subscribed(b: BusState, id: int, filter: EventFilter): BusState
  {
    b.(subscribers := b.subscribers + [Subscription(id, filter, b.sequence, [])])
  }

  function Without(subscribers: seq<Subscription>, id: int): (r: seq<Subscription>)
    ensures forall s :: s in r <==> s in subscribers && s.id != id
  {
    Filter(subscribers, (s: Subscription) => s.id != id)
  }

  function SnapshotOf(b: BusState): BusSnapshot
  {
    BusSnapshot(b.streamId, b.sequence, b.events)
  }

  /** The bus as the source keeps it. Handlers are modelled by the list of their calls, so a
      handler that raises is one whose call was made; handlers do not publish. */
  class InMemoryEventBus {
    const streamId: int
    const historyLimit: nat
    const dedupLimit: nat
    var sequence: nat
    var events: seq<Event>
    var eventIds: seq<int>
    var subscribers: seq<Subscription>

    constructor (streamId: int, historyLimit: nat, dedupLimit: nat)
      requires historyLimit >= 1 && dedupLimit >= 1
      ensures State() == InitialBus(streamId, historyLimit, dedupLimit)
    {
      this.streamId := streamId;
      this.historyLimit := historyLimit;
      this.dedupLimit := dedupLimit;
      sequence, events, eventIds, subscribers := 0, [], [], [];
    }

    function State(): BusState
      reads this
    {
      BusState(streamId, historyLimit, dedupLimit, sequence, events, eventIds, subscribers)
    }

    method Publish(event: Event)
      modifies this
      ensures State() == Published(old(State()), event)
    {
      hide Dispatched, LastN;
      if event.eventId in eventIds {
        return;
      }
      var sequenced := Number(event);
      Dispatch(sequenced);
    }

    /** What the source's `publish` does under its state lock. */
    method Number(event: Event) returns (sequenced: Event)
      modifies this`sequence, this`events, this`eventIds
      ensures sequenced == Sequenced(old(State()), event)
      ensures State() == Admit(old(State()), event)
    {
      hide Dispatched;
      sequence := sequence + 1;
      sequenced := event.(sequence := sequence, streamId := Some(streamId));
      events := events + [sequenced];
      if |events| > historyLimit {
        events := events[|events| - historyLimit..];
      }
      assert events == LastN(old(events) + [sequenced], historyLimit);
      hide LastN;
      eventIds := eventIds + [sequenced.eventId];
      EvictIds();
    }

    /** The eviction loop of the source's `publish`. */
    method EvictIds()
      modifies this`eventIds
      ensures eventIds == LastN(old(eventIds), dedupLimit)
    {
      ghost var ids := eventIds;
      while |eventIds| > dedupLimit
        invariant |eventIds| <= |ids| && eventIds == ids[|ids| - |eventIds|..]
        invariant |eventIds| < |ids| ==> |eventIds| >= dedupLimit
        decreases |eventIds|
      {
        eventIds := eventIds[1..];
      }
    }

    /** The second half of the source's `publish`, outside its state lock: each matching handler in turn. */
    method Dispatch(sequenced: Event)
      modifies this`subscribers
      ensures subscribers == Dispatched(old(subscribers), sequenced)
    {
      var targets := subscribers;
      var i := 0;
      while i < |targets|
        invariant 0 <= i <= |targets| == |subscribers| && targets == old(subscribers)
        invariant forall k :: 0 <= k < i ==> subscribers[k] == Handed(targets[k], sequenced)
        invariant forall k :: i <= k < |targets| ==> subscribers[k] == targets[k]
      {
        if targets[i].filter.Matches(sequenced) {
          subscribers := subscribers[i := targets[i].(received := targets[i].received + [sequenced])];
        }
        i := i + 1;
      }
      assert subscribers == Dispatched(old(subscribers), sequenced);
    }

    method Subscribe(id: int, filter: EventFilter)
      modifies this
      ensures State() == Subscribed(old(State()), id, filter)
    {
      subscribers := subscribers + [Subscription(id, filter, sequence, [])];
    }

    method Unsubscribe(id: int)
      modifies this
      ensures State() == old(State()).(subscribers := Without(old(subscribers), id))
    {
      subscribers := Without(subscribers, id);
    }

    method Snapshot() returns (r: BusSnapshot)
      ensures r == SnapshotOf(State())
    {
      r := BusSnapshot(streamId, sequence, events);
    }
  }

  // ---- whole runs ----

  datatype BusOp =
    | Publish(event: Event)
    | Subscribe(id: int, filter: EventFilter)
    | Unsubscribe(id: int)

  /** A run of the bus and the log of every event it ever numbered. */
  function RunBus(b: BusState, log: seq<Event>, ops: seq<BusOp>): (BusState, seq<Event>)
    decreases |ops|
  {
    if ops == [] then (b, log)
    else
      match ops[0]
      case Publish(e) =>
        RunBus(Published(b, e), if e.eventId in b.eventIds then log else log + [Sequenced(b, e)], ops[1..])
      case Subscribe(id, filter) => RunBus(Subscribed(b, id, filter), log, ops[1..])
      case Unsubscribe(id) => RunBus(b.(subscribers := Without(b.subscribers, id)), log, ops[1..])
  }

  function Ids(log: seq<Event>): (r: seq<int>)
    ensures |r| == |log|
    ensures forall i :: 0 <= i < |r| ==> r[i] == log[i].eventId
  {
    seq(|log|, i requires 0 <= i < |log| => log[i].eventId)
  }

  /** The matching events published after a subscription: what its handler must have seen. */
  function MatchingSince(log: seq<Event>, filter: EventFilter, joinedAt: nat): seq<Event>
  {
    if joinedAt >= |log| then [] else Filter(log[joinedAt..], (e: Event) => filter.Matches(e))
  }

  /** Two equal event ids are always more than `dedupLimit` positions apart. */
  ghost predicate Spaced(log: seq<Event>, dedupLimit: nat)
  {
    forall i, j :: 0 <= i < j < |log| && log[i].eventId == log[j].eventId ==> j - i > dedupLimit
  }

  ghost predicate NumberingInvariant(b: BusState, log: seq<Event>)
  {
    b.sequence == |log| && Gapless(b.streamId, log) && b.events == LastN(log, b.historyLimit)
  }

  ghost predicate DedupInvariant(eventIds: seq<int>, dedupLimit: nat, log: seq<Event>)
  {
    eventIds == LastN(Ids(log), dedupLimit) && Spaced(log, dedupLimit)
  }

  ghost predicate DeliveryInvariant(subscribers: seq<Subscription>, log: seq<Event>)
  {
    forall s :: s in subscribers ==>
      s.joinedAt <= |log| && s.received == MatchingSince(log, s.filter, s.joinedAt)
  }

  ghost predicate BusInvariant(b: BusState, log: seq<Event>)
  {
    && NumberingInvariant(b, log)
    && DedupInvariant(b.eventIds, b.dedupLimit, log)
    && DeliveryInvariant(b.subscribers, log)
  }

  lemma MatchingSinceSnoc(log: seq<Event>, e: Event, filter: EventFilter, joinedAt: nat)
    requires joinedAt <= |log|
    ensures MatchingSince(log + [e], filter, joinedAt)
         == MatchingSince(log, filter, joinedAt) + (if filter.Matches(e) then [e] else [])
  {
    assert (log + [e])[joinedAt..] == log[joinedAt..] + [e];
    FilterSnoc(log[joinedAt..], e, (x: Event) => filter.Matches(x));
  }

  lemma NumberingKept(b: BusState, log: seq<Event>, e: Event)
    requires NumberingInvariant(b, log)
    ensures NumberingInvariant(Admit(b, e), log + [Sequenced(b, e)])
  {
    LastNSnoc(log, Sequenced(b, e), b.historyLimit);
  }

  lemma InWindow(ids: seq<int>, n: nat, i: nat)
    requires i < |ids| && |ids| - i <= n
    ensures ids[i] in LastN(ids, n)
  {
    var window := LastN(ids, n);
    assert window[i - (|ids| - |window|)] == ids[i];
  }

  lemma DedupKept(eventIds: seq<int>, dedupLimit: nat, log: seq<Event>, x: Event)
    requires DedupInvariant(eventIds, dedupLimit, log) && x.eventId !in eventIds
    ensures DedupInvariant(LastN(eventIds + [x.eventId], dedupLimit), dedupLimit, log + [x])
  {
    var ids, log' := Ids(log), log + [x];
    LastNSnoc(ids, x.eventId, dedupLimit);
    assert Ids(log') == ids + [x.eventId];
    forall i | 0 <= i < |log| && |log| - i <= dedupLimit
      ensures log[i].eventId != x.eventId
    {
      InWindow(ids, dedupLimit, i);
    }
  }

  lemma DeliveryKept(subscribers: seq<Subscription>, log: seq<Event>, x: Event)
    requires DeliveryInvariant(subscribers, log)
    ensures DeliveryInvariant(Dispatched(subscribers, x), log + [x])
  {
    var r := Dispatched(subscribers, x);
    forall k | 0 <= k < |r|
      ensures r[k].joinedAt <= |log + [x]|
      ensures r[k].received == MatchingSince(log + [x], r[k].filter, r[k].joinedAt)
    {
      var s := subscribers[k];
      assert s in subscribers;
      MatchingSinceSnoc(log, x, s.filter, s.joinedAt);
    }
  }

  lemma PublishKeepsInvariant(b: BusState, log: seq<Event>, e: Event)
    requires BusInvariant(b, log)
    ensures BusInvariant(Published(b, e), if e.eventId in b.eventIds then log else log + [Sequenced(b, e)])
  {
    if e.eventId !in b.eventIds {
      NumberingKept(b, log, e);
      DedupKept(b.eventIds, b.dedupLimit, log, Sequenced(b, e));
      DeliveryKept(b.subscribers, log, Sequenced(b, e));
    }
  }

  /** Whatever is published, subscribed or unsubscribed, and in whatever order. */
  lemma {:induction false} EveryRunKeepsInvariant(b: BusState, log: seq<Event>, ops: seq<BusOp>)
    requires BusInvariant(b, log)
    ensures BusInvariant(RunBus(b, log, ops).0, RunBus(b, log, ops).1)
    ensures log <= RunBus(b, log, ops).1
    decreases |ops|
  {
    if ops != [] {
      match ops[0]
      case Publish(e) =>
        PublishKeepsInvariant(b, log, e);
        EveryRunKeepsInvariant(
          Published(b, e), if e.eventId in b.eventIds then log else log + [Sequenced(b, e)], ops[1..]);
      case Subscribe(id, filter) =>
        EveryRunKeepsInvariant(Subscribed(b, id, filter), log, ops[1..]);
      case Unsubscribe(id) =>
        EveryRunKeepsInvariant(b.(subscribers := Without(b.subscribers, id)), log, ops[1..]);
    }
  }

  ghost predicate DistinctIds(events: seq<Event>)
  {
    forall i, j :: 0 <= i < j < |events| ==> events[i].eventId != events[j].eventId
  }

  /** With a history no longer than the deduplication window plus one, the stored history
      never holds an event id twice. */
  lemma HistoryHoldsIdsOnce(streamId: int, historyLimit: nat, dedupLimit: nat, ops: seq<BusOp>)
    requires historyLimit <= dedupLimit + 1
    ensures DistinctIds(RunBus(InitialBus(streamId, historyLimit, dedupLimit), [], ops).0.events)
  {
    var b0 := InitialBus(streamId, historyLimit, dedupLimit);
    EveryRunKeepsInvariant(b0, [], ops);
    RunKeepsLimits(b0, [], ops);
    var (b, log) := RunBus(b0, [], ops);
    SpacedWindow(log, historyLimit, dedupLimit);
  }

  lemma SpacedWindow(log: seq<Event>, historyLimit: nat, dedupLimit: nat)
    requires Spaced(log, dedupLimit) && historyLimit <= dedupLimit + 1
    ensures DistinctIds(LastN(log, historyLimit))
  {
    var window := LastN(log, historyLimit);
    var offset := |log| - |window|;
    forall i, j | 0 <= i < j < |window|
      ensures window[i].eventId != window[j].eventId
    {
      assert window[i] == log[offset + i] && window[j] == log[offset + j];
    }
  }

  lemma {:induction false} RunKeepsLimits(b: BusState, log: seq<Event>, ops: seq<BusOp>)
    ensures RunBus(b, log, ops).0.historyLimit == b.historyLimit
    ensures RunBus(b, log, ops).0.dedupLimit == b.dedupLimit
    decreases |ops|
  {
    if ops != [] {
      match ops[0]
      case Publish(e) =>
        RunKeepsLimits(
          Published(b, e), if e.eventId in b.eventIds then log else log + [Sequenced(b, e)], ops[1..]);
      case Subscribe(id, filter) => RunKeepsLimits(Subscribed(b, id, filter), log, ops[1..]);
      case Unsubscribe(id) =>
        RunKeepsLimits(b.(subscribers := Without(b.subscribers, id)), log, ops[1..]);
    }
  }

  // ---- the bound is exact: a longer history can hold an id twice ----

  function Numbered(id: int): Event
  {
    Event(id, PipelineStarted, None, 0, 0, None, None, 0, StagePayload(0))
  }

  /** Publish `from`, `from + 1`, ... `upTo - 1`, then `0` again. */
  function Repeating(from: nat, upTo: nat): seq<BusOp>
    decreases upTo - from
  {
    if from >= upTo then [Publish(Numbered(0))]
    else [Publish(Numbered(from))] + Repeating(from + 1, upTo)
  }

  lemma {:induction false} RepeatedIdIsAdmitted(b: BusState, log: seq<Event>, from: nat)
    requires BusInvariant(b, log)
    requires |log| == from <= b.dedupLimit + 1
    requires forall i :: 0 <= i < |log| ==> log[i].eventId == i
    ensures var end := RunBus(b, log, Repeating(from, b.dedupLimit + 1)).1;
            |end| == b.dedupLimit + 2 && end[0].eventId == 0 && end[b.dedupLimit + 1].eventId == 0
    decreases b.dedupLimit + 1 - from
  {
    hide NumberingInvariant, DeliveryInvariant, Spaced;
    var ops := Repeating(from, b.dedupLimit + 1);
    var id := if from == b.dedupLimit + 1 then 0 else from;
    assert ops[0] == Publish(Numbered(id));
    NotInWindow(log, b.dedupLimit, id);
    PublishKeepsInvariant(b, log, Numbered(id));
    if from < b.dedupLimit + 1 {
      assert ops[1..] == Repeating(from + 1, b.dedupLimit + 1);
      RepeatedIdIsAdmitted(Published(b, Numbered(id)), log + [Sequenced(b, Numbered(id))], from + 1);
    } else {
      assert ops[1..] == [];
    }
  }

  lemma NotInWindow(log: seq<Event>, n: nat, id: int)
    requires forall i :: 0 <= i < |log| ==> log[i].eventId == i
    requires id >= |log| || id < |log| - n
    ensures id !in LastN(Ids(log), n)
  {
  }

  lemma NewBusIsFine(streamId: int, historyLimit: nat, dedupLimit: nat)
    ensures BusInvariant(InitialBus(streamId, historyLimit, dedupLimit), [])
  {
  }

  /** Beyond that bound there is a run whose history holds an id twice. */
  lemma LongerHistoryCanRepeat(streamId: int, historyLimit: nat, dedupLimit: nat)
    requires historyLimit > dedupLimit + 1
    ensures exists ops ::
      !DistinctIds(RunBus(InitialBus(streamId, historyLimit, dedupLimit), [], ops).0.events)
  {
    hide RunBus, Repeating, DedupInvariant, DeliveryInvariant;
    var b0 := InitialBus(streamId, historyLimit, dedupLimit);
    var ops := Repeating(0, dedupLimit + 1);
    NewBusIsFine(streamId, historyLimit, dedupLimit);
    RepeatedIdIsAdmitted(b0, [], 0);
    EveryRunKeepsInvariant(b0, [], ops);
    RunKeepsLimits(b0, [], ops);
    var (b, log) := RunBus(b0, [], ops);
    assert b.events == log;
    assert b.events[0].eventId == b.events[dedupLimit + 1].eventId;
    assert !DistinctIds(b.events);
  }
}
