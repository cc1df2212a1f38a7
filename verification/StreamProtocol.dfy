/** The telemetry stream end to end: bus, sockets, network, request gate and browser, as a
    state machine. The network may lose, repeat and reorder; sockets may lag or drop; the
    server may restart under a new stream id; bootstrap requests may overlap, fail or arrive late. */
module StreamProtocol {
  import opened Sequences
  import opened TelemetryEvents
  import opened EventBus
  import opened EventSocket
  import opened DashboardViews
  import opened ViewAgreement
  import opened LiveState

  datatype Stream = Stream(id: int, log: seq<Event>)

  /** `captured`: the dispatch in progress will call this connection's handler. `joinedAt` and
      `handed` record the sequence at subscription and the handler's calls. */
  datatype Connection = Connection(
    filter: EventFilter, consumer: Consumer, subscribed: bool, captured: bool, joinedAt: nat, handed: seq<Event>)

  /** `generation` and `length` record which log prefix the reply was computed from. */
  datatype Reply = Reply(bootstrap: Bootstrap, generation: nat, length: nat)

  /** `wire` holds every message ever sent: delivering does not remove it, and not delivering
      loses it. */
  datatype System = System(
    past: seq<Stream>,
    bus: BusState,
    log: seq<Event>,
    dispatching: Option<Event>,
    connections: seq<Connection>,
    wire: set<Event>,
    gate: nat,
    outstanding: set<nat>,
    replies: map<nat, Reply>,
    client: LiveState)

  datatype Action =
    | PublishEvent(event: Event)                   // numbering, under the state lock
    | DispatchEvent                                // handlers, under the dispatch lock only
    | Connect(limit: nat, filter: EventFilter)     // a socket opens and subscribes
    | SocketStep(connection: nat, step: ConsumerStep)
    | Unsubscribe(connection: nat)
    | Restart(streamId: int)
    | Deliver(event: Event)                        // any message ever sent
    | BeginRequest(initial: bool)
    | AnswerRequest(token: nat)                    // the server takes its snapshot
    | ReceiveReply(token: nat)
    | FailRequest(token: nat, malformed: bool)
    | LoseSocket(malformed: bool)

  function InitialSystem(streamId: int, historyLimit: nat, dedupLimit: nat): System
  {
    System([], InitialBus(streamId, historyLimit, dedupLimit), [], None, [], {}, 0, {}, map[], EmptyLiveState())
  }

  function Streams(s: System): seq<Stream>
  {
    s.past + [Stream(s.bus.streamId, s.log)]
  }

  predicate Enabled(s: System, a: Action)
  {
    match a
    case PublishEvent(e) => s.dispatching.None? && ValidEvent(e)
    case DispatchEvent => s.dispatching.Some?
    case Connect(limit, _) => limit >= 1
    case SocketStep(k, step) => k < |s.connections| && !step.Hand?
    case Unsubscribe(k) => k < |s.connections|
    case Restart(id) => id != s.bus.streamId && forall k :: 0 <= k < |s.past| ==> s.past[k].id != id
    case Deliver(e) => e in s.wire && FromStream(e)
    case BeginRequest(_) => true
    case AnswerRequest(token) => token in s.outstanding
    case ReceiveReply(token) => token in s.replies && forall e :: e in s.client.buffered ==> FromStream(e)
    case FailRequest(token, _) => token in s.outstanding || token in s.replies
    case LoseSocket(_) => true
  }

  function Captured(c: Connection): Connection { c.(captured := c.subscribed) }

  function HandedTo(c: Connection, e: Event): Connection
  {
    if c.captured && c.filter.Matches(e)
    then c.(consumer := Handing(c.consumer, e), handed := c.handed + [e], captured := false)
    else c.(captured := false)
  }

  function NewlySent(c: Consumer, step: ConsumerStep): set<Event>
  {
    set e | e in ConsumerNext(c, step).sent
  }

  function Step(s: System, a: Action): System
    requires Enabled(s, a)
  {
    match a
    case PublishEvent(e) =>
      if e.eventId in s.bus.eventIds then s
      else s.(bus := Admit(s.bus, e),
              log := s.log + [Sequenced(s.bus, e)],
              dispatching := Some(Sequenced(s.bus, e)),
              connections := seq(|s.connections|, i requires 0 <= i < |s.connections| => Captured(s.connections[i])))
    case DispatchEvent =>
      s.(dispatching := None,
         connections := seq(|s.connections|,
           i requires 0 <= i < |s.connections| => HandedTo(s.connections[i], s.dispatching.value)))
    case Connect(limit, filter) =>
      s.(connections := s.connections + [Connection(filter, NewConsumer(limit), true, false, |s.log|, [])])
    case SocketStep(k, step) =>
      var c := s.connections[k];
      s.(connections := s.connections[k := c.(consumer := ConsumerNext(c.consumer, step))],
         wire := s.wire + NewlySent(c.consumer, step))
    case Unsubscribe(k) =>
      s.(connections := s.connections[k := s.connections[k].(subscribed := false)])
    case Restart(id) =>
      s.(past := Streams(s),
         bus := InitialBus(id, s.bus.historyLimit, s.bus.dedupLimit),
         log := [], dispatching := None, connections := [])
    case Deliver(e) => s.(client := BufferEvent(s.client, e))
    case BeginRequest(initial) =>
      s.(gate := s.gate + 1,
         outstanding := s.outstanding + {s.gate + 1},
         client := BeginResync(s.client, initial))
    case AnswerRequest(token) =>
      s.(outstanding := s.outstanding - {token},
         replies := s.replies[token := Reply(BootstrapOf(SnapshotOf(s.bus)), |s.past|, |s.log|)])
    case ReceiveReply(token) =>
      var s' := s.(replies := s.replies - {token});
      if token != s.gate then s' else s'.(client := ApplyBootstrap(s.client, s.replies[token].bootstrap))
    case FailRequest(token, malformed) =>
      var s' := s.(outstanding := s.outstanding - {token}, replies := s.replies - {token});
      if token != s.gate then s' else s'.(client := FailLive(s.client, malformed))
    case LoseSocket(malformed) => s.(client := FailLive(s.client, malformed))
  }

  // ---- positions ----

  function IndexOf(streams: seq<Stream>, id: int): (k: nat)
    ensures k <= |streams|
    ensures k < |streams| ==> streams[k].id == id
  {
    if streams == [] then 0 else if streams[0].id == id then 0 else 1 + IndexOf(streams[1..], id)
  }

  ghost predicate DistinctStreams(streams: seq<Stream>)
  {
    forall i, j :: 0 <= i < j < |streams| ==> streams[i].id != streams[j].id
  }

  lemma {:induction false} IndexIsUnique(streams: seq<Stream>, k: nat)
    requires DistinctStreams(streams) && k < |streams|
    ensures IndexOf(streams, streams[k].id) == k
  {
    if k > 0 {
      IndexIsUnique(streams[1..], k - 1);
    }
  }

  /** Which generation the client is on, and how far along it. */
  datatype Position = Position(generation: int, watermark: nat)
  {
    predicate AtMost(other: Position)
    {
      generation < other.generation || (generation == other.generation && watermark <= other.watermark)
    }
  }

  function PositionOf(streams: seq<Stream>, c: LiveState): Position
  {
    match c.streamId
    case None => Position(-1, 0)
    case Some(id) => Position(IndexOf(streams, id), c.watermark)
  }

  function ClientPosition(s: System): Position
  {
    PositionOf(Streams(s), s.client)
  }

  // ---- the invariant ----

  ghost predicate GoodStream(t: Stream)
  {
    Gapless(t.id, t.log) && forall e :: e in t.log ==> ValidEvent(e)
  }

  ghost predicate StreamsOk(streams: seq<Stream>)
  {
    DistinctStreams(streams) && forall k :: 0 <= k < |streams| ==> GoodStream(streams[k])
  }

  /** The event is the one its stream's log holds at its number. */
  ghost predicate Genuine(streams: seq<Stream>, e: Event)
  {
    && FromStream(e)
    && var k := IndexOf(streams, e.streamId.value);
       k < |streams| && InLog(e, streams[k].id, streams[k].log)
  }

  ghost predicate GenuineConsumer(streams: seq<Stream>, c: Consumer)
  {
    && (forall e :: e in c.scheduled ==> Genuine(streams, e))
    && (forall e :: Some(e) in c.queue ==> Genuine(streams, e))
    && (forall e :: e in c.sent ==> Genuine(streams, e))
  }

  ghost predicate MessagesOk(s: System)
  {
    && (s.dispatching.Some? ==> Genuine(Streams(s), s.dispatching.value))
    && (forall k :: 0 <= k < |s.connections| ==> GenuineConsumer(Streams(s), s.connections[k].consumer))
    && (forall e :: e in s.wire ==> Genuine(Streams(s), e))
    && (forall e :: e in s.client.buffered ==> Genuine(Streams(s), e))
  }

  ghost predicate ClientOk(streams: seq<Stream>, c: LiveState, historyLimit: nat)
  {
    match c.streamId
    case None => c.watermark == 0 && c.events == [] && !c.status.Live?
    case Some(id) =>
      var k := IndexOf(streams, id);
      k < |streams| && Coherent(c, id, streams[k].log, historyLimit)
  }

  ghost predicate ReplyOk(streams: seq<Stream>, r: Reply, historyLimit: nat)
  {
    && r.generation < |streams|
    && CoherentBootstrap(r.bootstrap, streams[r.generation].id, streams[r.generation].log, r.length, historyLimit)
  }

  ghost predicate RepliesOk(streams: seq<Stream>, outstanding: set<nat>, replies: map<nat, Reply>, gate: nat, historyLimit: nat)
  {
    && (forall t :: t in outstanding ==> t <= gate)
    && (forall t :: t in replies ==> t <= gate && t !in outstanding && ReplyOk(streams, replies[t], historyLimit))
  }

  /** While the current request is unanswered or undelivered the client is not live, and an
      answer to it is never behind the client. */
  ghost predicate CurrentOk(gate: nat, outstanding: set<nat>, replies: map<nat, Reply>, live: bool, position: Position)
  {
    && (gate in outstanding || gate in replies ==> !live)
    && (gate in replies ==> position.AtMost(Position(replies[gate].generation, replies[gate].length)))
  }

  ghost predicate RequestsOk(s: System)
  {
    && RepliesOk(Streams(s), s.outstanding, s.replies, s.gate, s.bus.historyLimit)
    && CurrentOk(s.gate, s.outstanding, s.replies, s.client.status.Live?, ClientPosition(s))
  }

  ghost predicate Invariant(s: System)
  {
    && StreamsOk(Streams(s))
    && NumberingInvariant(s.bus, s.log)
    && MessagesOk(s)
    && ClientOk(Streams(s), s.client, s.bus.historyLimit)
    && RequestsOk(s)
  }

  // ---- streams only grow ----

  ghost predicate Grows(old_: seq<Stream>, new_: seq<Stream>)
  {
    && |old_| <= |new_|
    && (forall k :: 0 <= k < |old_| ==> old_[k].id == new_[k].id && old_[k].log <= new_[k].log)
  }

  lemma {:induction false} IndexKept(old_: seq<Stream>, new_: seq<Stream>, id: int)
    requires Grows(old_, new_) && IndexOf(old_, id) < |old_|
    ensures IndexOf(new_, id) == IndexOf(old_, id)
  {
    if old_[0].id != id {
      forall k | 0 <= k < |old_[1..]|
        ensures old_[1..][k].id == new_[1..][k].id && old_[1..][k].log <= new_[1..][k].log
      {
        assert old_[k + 1].id == new_[k + 1].id;
      }
      IndexKept(old_[1..], new_[1..], id);
    }
  }

  lemma GenuineKept(old_: seq<Stream>, new_: seq<Stream>, e: Event)
    requires Grows(old_, new_) && Genuine(old_, e)
    ensures Genuine(new_, e)
  {
    IndexKept(old_, new_, e.streamId.value);
  }

  lemma ConsumerKept(old_: seq<Stream>, new_: seq<Stream>, c: Consumer)
    requires Grows(old_, new_) && GenuineConsumer(old_, c)
    ensures GenuineConsumer(new_, c)
  {
    forall e | Genuine(old_, e)
      ensures Genuine(new_, e)
    {
      GenuineKept(old_, new_, e);
    }
  }

  lemma ClientKept(old_: seq<Stream>, new_: seq<Stream>, c: LiveState, historyLimit: nat)
    requires Grows(old_, new_) && ClientOk(old_, c, historyLimit)
    ensures ClientOk(new_, c, historyLimit)
  {
    if c.streamId.Some? {
      IndexKept(old_, new_, c.streamId.value);
    }
  }

  lemma ReplyKept(old_: seq<Stream>, new_: seq<Stream>, r: Reply, historyLimit: nat)
    requires Grows(old_, new_) && ReplyOk(old_, r, historyLimit)
    ensures ReplyOk(new_, r, historyLimit)
  {
    var n := |LastN(Dedupe(r.bootstrap.events), CLIENT_EVENT_LIMIT)|;
    assert old_[r.generation].log[r.length - n..r.length] == new_[r.generation].log[r.length - n..r.length];
  }

  /** A step that only lets the streams grow and leaves the client and requests alone. */
  lemma ServerSideKept(s: System, s': System)
    requires Invariant(s) && Grows(Streams(s), Streams(s'))
    requires s'.client == s.client && s'.gate == s.gate && s'.outstanding == s.outstanding && s'.replies == s.replies
    requires s'.bus.historyLimit == s.bus.historyLimit
    ensures ClientOk(Streams(s'), s'.client, s'.bus.historyLimit)
    ensures ClientPosition(s') == ClientPosition(s)
    ensures RequestsOk(s')
  {
    var a, b, limit := Streams(s), Streams(s'), s.bus.historyLimit;
    ClientKept(a, b, s.client, limit);
    if s.client.streamId.Some? {
      IndexKept(a, b, s.client.streamId.value);
    }
    forall t | t in s.replies
      ensures ReplyOk(b, s'.replies[t], limit)
    {
      ReplyKept(a, b, s.replies[t], limit);
    }
  }

  /** Everything that could be read off a wire, a queue or a buffer stays genuine. */
  lemma MessagesKept(s: System, streams: seq<Stream>)
    requires MessagesOk(s) && Grows(Streams(s), streams)
    ensures s.dispatching.Some? ==> Genuine(streams, s.dispatching.value)
    ensures forall k :: 0 <= k < |s.connections| ==> GenuineConsumer(streams, s.connections[k].consumer)
    ensures forall e :: e in s.wire ==> Genuine(streams, e)
    ensures forall e :: e in s.client.buffered ==> Genuine(streams, e)
  {
    forall e | Genuine(Streams(s), e)
      ensures Genuine(streams, e)
    {
      GenuineKept(Streams(s), streams, e);
    }
    forall k | 0 <= k < |s.connections|
      ensures GenuineConsumer(streams, s.connections[k].consumer)
    {
      ConsumerKept(Streams(s), streams, s.connections[k].consumer);
    }
  }

  // ---- one step at a time ----

  lemma PublishGrows(s: System, e: Event)
    requires StreamsOk(Streams(s)) && NumberingInvariant(s.bus, s.log) && ValidEvent(e)
    ensures var streams := s.past + [Stream(s.bus.streamId, s.log + [Sequenced(s.bus, e)])];
      && Grows(Streams(s), streams) && StreamsOk(streams) && Genuine(streams, Sequenced(s.bus, e))
  {
    var x := Sequenced(s.bus, e);
    var a, b := Streams(s), s.past + [Stream(s.bus.streamId, s.log + [x])];
    var n := |s.past|;
    NumberingKept(s.bus, s.log, e);
    assert GoodStream(a[n]);
    assert GoodStream(b[n]);
    forall k | 0 <= k < |b|
      ensures GoodStream(b[k])
    {
      assert k < n ==> b[k] == a[k];
    }
    forall i, j | 0 <= i < j < |b|
      ensures b[i].id != b[j].id
    {
      assert a[i].id == b[i].id && a[j].id == b[j].id;
    }
    IndexIsUnique(b, n);
  }

  lemma PublishStep(s: System, e: Event)
    requires Invariant(s) && Enabled(s, PublishEvent(e))
    ensures Invariant(Step(s, PublishEvent(e)))
    ensures ClientPosition(Step(s, PublishEvent(e))) == ClientPosition(s)
  {
    var s' := Step(s, PublishEvent(e));
    if e.eventId !in s.bus.eventIds {
      PublishGrows(s, e);
      NumberingKept(s.bus, s.log, e);
      ServerSideKept(s, s');
      MessagesKept(s, Streams(s'));
      forall k | 0 <= k < |s'.connections|
        ensures GenuineConsumer(Streams(s'), s'.connections[k].consumer)
      {
        assert s'.connections[k].consumer == s.connections[k].consumer;
      }
    }
  }

  lemma DispatchStep(s: System)
    requires Invariant(s) && Enabled(s, DispatchEvent)
    ensures Invariant(Step(s, DispatchEvent))
    ensures ClientPosition(Step(s, DispatchEvent)) == ClientPosition(s)
  {
    var s' := Step(s, DispatchEvent);
    assert Streams(s') == Streams(s);
    forall k | 0 <= k < |s'.connections|
      ensures GenuineConsumer(Streams(s), s'.connections[k].consumer)
    {
      assert GenuineConsumer(Streams(s), s.connections[k].consumer);
    }
  }

  lemma ConsumerStepGenuine(streams: seq<Stream>, c: Consumer, step: ConsumerStep)
    requires GenuineConsumer(streams, c) && !step.Hand?
    ensures GenuineConsumer(streams, ConsumerNext(c, step))
  {
    var c' := ConsumerNext(c, step);
    match step
    case Put =>
      if c.scheduled != [] {
        assert c.scheduled[0] in c.scheduled;
        forall e | Some(e) in c'.queue
          ensures Genuine(streams, e)
        {
          assert Some(e) in c.queue || e == c.scheduled[0];
        }
      }
    case Send =>
      if c.queue != [] && !c.closed {
        assert c.queue[0] in c.queue;
      }
    case Disconnect =>
  }

  lemma SocketStepKept(s: System, k: nat, step: ConsumerStep)
    requires Invariant(s) && Enabled(s, SocketStep(k, step))
    ensures Invariant(Step(s, SocketStep(k, step)))
    ensures ClientPosition(Step(s, SocketStep(k, step))) == ClientPosition(s)
  {
    var s' := Step(s, SocketStep(k, step));
    assert Streams(s') == Streams(s);
    ConsumerStepGenuine(Streams(s), s.connections[k].consumer, step);
    SocketMessages(s, k, step);
  }

  lemma SocketMessages(s: System, k: nat, step: ConsumerStep)
    requires MessagesOk(s) && Enabled(s, SocketStep(k, step))
    requires GenuineConsumer(Streams(s), ConsumerNext(s.connections[k].consumer, step))
    ensures MessagesOk(Step(s, SocketStep(k, step)))
  {
    var s' := Step(s, SocketStep(k, step));
    assert Streams(s') == Streams(s);
    forall i | 0 <= i < |s'.connections|
      ensures GenuineConsumer(Streams(s), s'.connections[i].consumer)
    {
    }
  }

  lemma RestartStep(s: System, id: int)
    requires Invariant(s) && Enabled(s, Restart(id))
    ensures Invariant(Step(s, Restart(id)))
    ensures ClientPosition(Step(s, Restart(id))) == ClientPosition(s)
  {
    hide ClientOk, RequestsOk, GenuineConsumer, Genuine, PositionOf;
    var s' := Step(s, Restart(id));
    assert Streams(s') == Streams(s) + [Stream(id, [])];
    ServerSideKept(s, s');
    MessagesKept(s, Streams(s'));
  }

  /** An event applied, or not, to a coherent client. */
  lemma DeliverStep(s: System, e: Event)
    requires Invariant(s) && Enabled(s, Deliver(e))
    ensures Invariant(Step(s, Deliver(e)))
    ensures ClientPosition(s).AtMost(ClientPosition(Step(s, Deliver(e))))
  {
    var s' := Step(s, Deliver(e));
    var streams, c, c' := Streams(s), s.client, s'.client;
    assert Streams(s') == streams;
    assert Genuine(streams, e);
    BufferedStayGenuine(streams, c, e);
    if c.status.Live? {
      var id := c.streamId.value;
      ApplyKeepsCoherence(c, id, streams[IndexOf(streams, id)].log, s.bus.historyLimit, e);
    }
    assert RequestsOk(s');
  }

  lemma BufferedStayGenuine(streams: seq<Stream>, c: LiveState, e: Event)
    requires Genuine(streams, e) && forall x :: x in c.buffered ==> Genuine(streams, x)
    ensures forall x :: x in BufferEvent(c, e).buffered ==> Genuine(streams, x)
  {
    forall x | x in BufferEvent(c, e).buffered
      ensures x in c.buffered || x == e
    {
    }
  }

  lemma {:induction false} ReplayedBuffer(next: LiveState, newer: seq<Event>)
    requires forall e :: e in newer ==> FromStream(e)
    ensures forall x :: x in Replayed(next, newer).buffered ==> x in next.buffered || x in newer
    decreases |newer|
  {
    if newer != [] {
      var after := ApplyEvent(next, newer[0]);
      if after.status.Live? {
        ReplayedBuffer(after, newer[1..]);
      }
    }
  }

  lemma BootstrapBuffer(streams: seq<Stream>, c: LiveState, b: Bootstrap)
    requires forall e :: e in c.buffered ==> FromStream(e) && Genuine(streams, e)
    ensures forall e :: e in ApplyBootstrap(c, b).buffered ==> Genuine(streams, e)
  {
    NewerMembers(c.buffered, b);
    ReplayedBuffer(Fresh(c, b), Newer(c.buffered, b));
  }

  lemma BufferedAreLogged(streams: seq<Stream>, buffered: seq<Event>, k: nat)
    requires DistinctStreams(streams) && k < |streams|
    requires forall e :: e in buffered ==> Genuine(streams, e)
    ensures forall e :: e in buffered ==>
      FromStream(e) && (e.streamId == Some(streams[k].id) ==> InLog(e, streams[k].id, streams[k].log))
  {
    IndexIsUnique(streams, k);
  }

  lemma ReceiveStep(s: System, token: nat)
    requires Invariant(s) && Enabled(s, ReceiveReply(token))
    ensures Invariant(Step(s, ReceiveReply(token)))
    ensures ClientPosition(s).AtMost(ClientPosition(Step(s, ReceiveReply(token))))
  {
    var s' := Step(s, ReceiveReply(token));
    assert Streams(s') == Streams(s);
    if token == s.gate {
      CurrentReplyStep(Streams(s), s.client, s.replies[token], s.bus.historyLimit);
    }
    RepliesFewer(s, token);
  }

  lemma RepliesFewer(s: System, token: nat)
    requires RequestsOk(s)
    ensures RepliesOk(Streams(s), s.outstanding - {token}, s.replies - {token}, s.gate, s.bus.historyLimit)
    ensures RepliesOk(Streams(s), s.outstanding, s.replies - {token}, s.gate, s.bus.historyLimit)
  {
  }

  lemma CurrentReplyStep(streams: seq<Stream>, c: LiveState, r: Reply, historyLimit: nat)
    requires StreamsOk(streams) && ReplyOk(streams, r, historyLimit)
    requires forall e :: e in c.buffered ==> FromStream(e) && Genuine(streams, e)
    ensures ClientOk(streams, ApplyBootstrap(c, r.bootstrap), historyLimit)
    ensures forall e :: e in ApplyBootstrap(c, r.bootstrap).buffered ==> Genuine(streams, e)
    ensures Position(r.generation, r.length).AtMost(PositionOf(streams, ApplyBootstrap(c, r.bootstrap)))
  {
    BufferedAreLogged(streams, c.buffered, r.generation);
    var t := streams[r.generation];
    BootstrapIsCoherent(c, r.bootstrap, t.id, t.log, r.length, historyLimit);
    BootstrapBuffer(streams, c, r.bootstrap);
    IndexIsUnique(streams, r.generation);
  }

  lemma AnswerStep(s: System, token: nat)
    requires Invariant(s) && Enabled(s, AnswerRequest(token))
    ensures Invariant(Step(s, AnswerRequest(token)))
    ensures ClientPosition(Step(s, AnswerRequest(token))) == ClientPosition(s)
  {
    hide StreamsOk, NumberingInvariant, ClientOk, ReplyOk, GenuineConsumer, Genuine, PositionOf;
    var s' := Step(s, AnswerRequest(token));
    var streams, r, n := Streams(s), s'.replies[token], |s.past|;
    assert Streams(s') == streams;
    AnswerIsSnapshot(s, r);
    ClientBehindServer(s);
  }

  lemma AnswerIsSnapshot(s: System, r: Reply)
    requires NumberingInvariant(s.bus, s.log)
    requires r.generation == |s.past| && r.length == |s.log|
    requires r.bootstrap.streamId == s.bus.streamId && r.bootstrap.watermark == s.bus.sequence
    requires r.bootstrap.events == s.bus.events
    ensures ReplyOk(Streams(s), r, s.bus.historyLimit)
  {
    assert s.log[..|s.log|] == s.log;
    SnapshotIsCoherent(r.bootstrap, s.bus.streamId, s.log, |s.log|, s.bus.historyLimit);
  }

  lemma ClientBehindServer(s: System)
    requires ClientOk(Streams(s), s.client, s.bus.historyLimit)
    ensures ClientPosition(s).AtMost(Position(|s.past|, |s.log|))
  {
    var streams, n := Streams(s), |s.past|;
    if s.client.streamId.Some? {
      var k := IndexOf(streams, s.client.streamId.value);
      assert k == n ==> streams[k].log == s.log;
    }
  }

  /** A client that leaves live status holds what it held. */
  lemma NoLongerLive(streams: seq<Stream>, c: LiveState, status: ConnectionStatus, historyLimit: nat)
    requires ClientOk(streams, c, historyLimit) && !status.Live?
    ensures ClientOk(streams, c.(status := status), historyLimit)
    ensures PositionOf(streams, c.(status := status)) == PositionOf(streams, c)
  {
  }

  lemma FailStep(s: System, token: nat, malformed: bool)
    requires Invariant(s) && Enabled(s, FailRequest(token, malformed))
    ensures Invariant(Step(s, FailRequest(token, malformed)))
    ensures ClientPosition(Step(s, FailRequest(token, malformed))) == ClientPosition(s)
  {
    hide StreamsOk, NumberingInvariant, ClientOk, ReplyOk, GenuineConsumer, Genuine, PositionOf;
    var s' := Step(s, FailRequest(token, malformed));
    assert Streams(s') == Streams(s);
    RepliesFewer(s, token);
    NoLongerLive(Streams(s), s.client, if malformed then Malformed else Disconnected, s.bus.historyLimit);
  }

  lemma QuietStep(s: System, a: Action)
    requires Invariant(s) && Enabled(s, a)
    requires a.LoseSocket? || a.Connect? || a.Unsubscribe?
    ensures Invariant(Step(s, a))
    ensures ClientPosition(Step(s, a)) == ClientPosition(s)
  {
    hide StreamsOk, NumberingInvariant, ClientOk, RepliesOk, Genuine, PositionOf;
    assert Streams(Step(s, a)) == Streams(s);
    if a.LoseSocket? {
      NoLongerLive(Streams(s), s.client, if a.malformed then Malformed else Disconnected, s.bus.historyLimit);
    }
  }

  lemma BeginStep(s: System, initial: bool)
    requires Invariant(s)
    ensures Invariant(Step(s, BeginRequest(initial)))
    ensures ClientPosition(Step(s, BeginRequest(initial))) == ClientPosition(s)
  {
    hide StreamsOk, NumberingInvariant, ClientOk, ReplyOk, GenuineConsumer, Genuine, PositionOf;
    var s' := Step(s, BeginRequest(initial));
    assert Streams(s') == Streams(s);
    assert s'.gate !in s.replies;
    NoLongerLive(Streams(s), s.client, if initial then Bootstrapping else Resynchronizing, s.bus.historyLimit);
  }

  lemma StepKeepsInvariant(s: System, a: Action)
    requires Invariant(s) && Enabled(s, a)
    ensures Invariant(Step(s, a))
    ensures ClientPosition(s).AtMost(ClientPosition(Step(s, a)))
  {
    hide Invariant, Step, PositionOf;
    match a
    case PublishEvent(e) => PublishStep(s, e);
    case DispatchEvent => DispatchStep(s);
    case SocketStep(k, step) => SocketStepKept(s, k, step);
    case Restart(id) => RestartStep(s, id);
    case Deliver(e) => DeliverStep(s, e);
    case AnswerRequest(token) => AnswerStep(s, token);
    case ReceiveReply(token) => ReceiveStep(s, token);
    case Connect(_, _) => QuietStep(s, a);
    case Unsubscribe(_) => QuietStep(s, a);
    case BeginRequest(initial) => BeginStep(s, initial);
    case FailRequest(token, malformed) => FailStep(s, token, malformed);
    case LoseSocket(_) => QuietStep(s, a);
  }

  // ---- whole runs ----

  ghost predicate IsRun(states: seq<System>, actions: seq<Action>)
  {
    && |states| == |actions| + 1
    && (exists id, h: nat, d: nat :: h >= 1 && d >= 1 && states[0] == InitialSystem(id, h, d))
    && forall i {:trigger actions[i]} :: 0 <= i < |actions| ==>
         Enabled(states[i], actions[i]) && states[i + 1] == Step(states[i], actions[i])
  }

  lemma InitialInvariant(id: int, h: nat, d: nat)
    ensures Invariant(InitialSystem(id, h, d))
  {
  }

  lemma {:induction false} RunKeepsInvariant(states: seq<System>, actions: seq<Action>, i: nat)
    requires IsRun(states, actions) && i < |states|
    ensures Invariant(states[i])
  {
    if i == 0 {
      var id, h: nat, d: nat :| h >= 1 && d >= 1 && states[0] == InitialSystem(id, h, d);
      InitialInvariant(id, h, d);
    } else {
      RunKeepsInvariant(states, actions, i - 1);
      StepKeepsInvariant(states[i - 1], actions[i - 1]);
    }
  }

  /** In every reachable state the browser's events are exactly the log of the stream it names,
      on a gap-free interval that ends at its watermark. */
  lemma BrowserHoldsAGapFreeInterval(states: seq<System>, actions: seq<Action>, i: nat)
    requires IsRun(states, actions) && i < |states| && states[i].client.streamId.Some?
    ensures var s := states[i];
      var k := IndexOf(Streams(s), s.client.streamId.value);
      && k < |Streams(s)|
      && Coherent(s.client, Streams(s)[k].id, Streams(s)[k].log, s.bus.historyLimit)
  {
    RunKeepsInvariant(states, actions, i);
  }

  lemma StepMovesForward(states: seq<System>, actions: seq<Action>, i: nat)
    requires IsRun(states, actions) && i < |actions|
    ensures ClientPosition(states[i]).AtMost(ClientPosition(states[i + 1]))
  {
    RunKeepsInvariant(states, actions, i);
    StepKeepsInvariant(states[i], actions[i]);
  }

  lemma {:induction false} Chain(positions: seq<Position>, i: nat, j: nat)
    requires i <= j < |positions|
    requires forall k :: 0 <= k < |positions| - 1 ==> positions[k].AtMost(positions[k + 1])
    ensures positions[i].AtMost(positions[j])
    decreases j
  {
    if i < j {
      Chain(positions, i, j - 1);
      assert positions[j - 1].AtMost(positions[j - 1 + 1]);
    }
  }

  /** Over every run the browser never goes back: not to an earlier server generation, and
      within one generation not to a smaller watermark. */
  lemma BrowserNeverGoesBack(states: seq<System>, actions: seq<Action>, i: nat, j: nat)
    requires IsRun(states, actions) && i <= j < |states|
    ensures ClientPosition(states[i]).AtMost(ClientPosition(states[j]))
  {
    var positions := seq(|states|, k requires 0 <= k < |states| => ClientPosition(states[k]));
    forall k | 0 <= k < |positions| - 1
      ensures positions[k].AtMost(positions[k + 1])
    {
      StepMovesForward(states, actions, k);
    }
    Chain(positions, i, j);
  }

  // ---- what each socket is sent ----

  function PendingFor(c: Connection, dispatching: Option<Event>): seq<Event>
  {
    if c.captured && dispatching.Some? && c.filter.Matches(dispatching.value) then [dispatching.value] else []
  }

  /** The handler's calls, with the one in progress, are the matching events since it joined. */
  ghost predicate ConnectionOk(c: Connection, log: seq<Event>, dispatching: Option<Event>)
  {
    && c.joinedAt <= |log|
    && (dispatching.None? ==> !c.captured)
    && c.handed + PendingFor(c, dispatching) <= MatchingSince(log, c.filter, c.joinedAt)
    && (c.subscribed ==> c.handed + PendingFor(c, dispatching) == MatchingSince(log, c.filter, c.joinedAt))
    && ConsumerInvariant(c.consumer, c.handed)
  }

  ghost predicate ConnectionsOk(s: System)
  {
    forall k :: 0 <= k < |s.connections| ==> ConnectionOk(s.connections[k], s.log, s.dispatching)
  }

  lemma CapturedConnection(c: Connection, log: seq<Event>, e: Event)
    requires ConnectionOk(c, log, None)
    ensures ConnectionOk(Captured(c), log + [e], Some(e))
  {
    MatchingSinceSnoc(log, e, c.filter, c.joinedAt);
    assert c.handed + [] == c.handed;
  }

  lemma HandedConnection(c: Connection, log: seq<Event>, e: Event)
    requires ConnectionOk(c, log, Some(e))
    ensures ConnectionOk(HandedTo(c, e), log, None)
  {
    if c.captured && c.filter.Matches(e) {
      ConsumerStepKeepsInvariant(c.consumer, c.handed, Hand(e));
      assert c.handed + [e] + [] == c.handed + [e];
    } else {
      assert c.handed + [] == c.handed;
    }
  }

  lemma StepKeepsConnections(s: System, a: Action)
    requires ConnectionsOk(s) && Enabled(s, a)
    ensures ConnectionsOk(Step(s, a))
  {
    var s' := Step(s, a);
    forall k | 0 <= k < |s'.connections|
      ensures ConnectionOk(s'.connections[k], s'.log, s'.dispatching)
    {
      if a.PublishEvent? && a.event.eventId !in s.bus.eventIds {
        CapturedConnection(s.connections[k], s.log, Sequenced(s.bus, a.event));
      } else if a.DispatchEvent? {
        HandedConnection(s.connections[k], s.log, s.dispatching.value);
      } else if a.SocketStep? && k == a.connection {
        ConsumerStepKeepsInvariant(s.connections[k].consumer, s.connections[k].handed, a.step);
      } else {
        assert k < |s.connections| ==> ConnectionOk(s.connections[k], s.log, s.dispatching);
      }
    }
  }

  lemma {:induction false} RunKeepsConnections(states: seq<System>, actions: seq<Action>, i: nat)
    requires IsRun(states, actions) && i < |states|
    ensures ConnectionsOk(states[i])
  {
    if i > 0 {
      RunKeepsConnections(states, actions, i - 1);
      StepKeepsConnections(states[i - 1], actions[i - 1]);
    }
  }

  /** For every interleaving of publication, dispatch, puts, sends and disconnects: what a socket
      has been sent is a prefix of the matching events since it subscribed, and while it is
      subscribed and has not lagged every missing one is still on its way. */
  lemma SocketsFollowTheLog(states: seq<System>, actions: seq<Action>, i: nat, k: nat)
    requires IsRun(states, actions) && i < |states| && k < |states[i].connections|
    ensures var s, c := states[i], states[i].connections[k];
      var due := MatchingSince(s.log, c.filter, c.joinedAt);
      && c.consumer.sent <= due
      && (c.subscribed && !c.consumer.lagged ==>
            due == c.consumer.sent + Waiting(c.consumer.queue) + c.consumer.scheduled + PendingFor(c, s.dispatching))
  {
    RunKeepsConnections(states, actions, i);
    var s, c := states[i], states[i].connections[k];
    assert ConnectionOk(c, s.log, s.dispatching);
    if !c.consumer.lagged {
      assert c.handed == c.consumer.sent + (Waiting(c.consumer.queue) + c.consumer.scheduled);
    }
  }

  // ---- what the browser shows ----

  ghost predicate ClientViewOk(streams: seq<Stream>, c: LiveState, historyLimit: nat)
  {
    c.streamId.Some? ==>
      var k := IndexOf(streams, c.streamId.value);
      k < |streams| && c.watermark <= |streams[k].log|
      && (Undivided(streams[k].id, streams[k].log, historyLimit) ==>
            ShowsServerView(c, streams[k].id, streams[k].log))
  }

  ghost predicate ReplyViewOk(streams: seq<Stream>, r: Reply, historyLimit: nat)
  {
    && r.generation < |streams| && r.length <= |streams[r.generation].log|
    && (Undivided(streams[r.generation].id, streams[r.generation].log, historyLimit) ==>
          SameView(r.bootstrap.view,
                   ServerView(streams[r.generation].id, streams[r.generation].log[..r.length])))
  }

  ghost predicate ViewsOk(s: System)
  {
    && ClientViewOk(Streams(s), s.client, s.bus.historyLimit)
    && (forall t :: t in s.replies ==> ReplyViewOk(Streams(s), s.replies[t], s.bus.historyLimit))
  }

  lemma UndividedPrefix(streamId: int, log: seq<Event>, n: nat, historyLimit: nat)
    requires Undivided(streamId, log, historyLimit) && n <= |log|
    ensures Undivided(streamId, log[..n], historyLimit)
  {
    PrefixIsWhole(streamId, log, n);
    forall m | 0 <= m < n
      ensures !Divergent(log[..n], m)
    {
      assert log[..n][..m] == log[..m];
      assert !Divergent(log, m);
    }
  }

  lemma ClientViewKept(old_: seq<Stream>, new_: seq<Stream>, c: LiveState, historyLimit: nat)
    requires Grows(old_, new_) && ClientViewOk(old_, c, historyLimit)
    ensures ClientViewOk(new_, c, historyLimit)
  {
    hide ServerView, SameView, Undivided;
    if c.streamId.Some? {
      IndexKept(old_, new_, c.streamId.value);
      var k := IndexOf(old_, c.streamId.value);
      var a, b := old_[k].log, new_[k].log;
      if Undivided(new_[k].id, b, historyLimit) {
        UndividedPrefix(new_[k].id, b, |a|, historyLimit);
        assert b[..|a|] == a;
        assert a[..c.watermark] == b[..c.watermark];
      }
    }
  }

  lemma ReplyViewKept(old_: seq<Stream>, new_: seq<Stream>, r: Reply, historyLimit: nat)
    requires Grows(old_, new_) && ReplyViewOk(old_, r, historyLimit)
    ensures ReplyViewOk(new_, r, historyLimit)
  {
    var a, b := old_[r.generation].log, new_[r.generation].log;
    if Undivided(new_[r.generation].id, b, historyLimit) {
      UndividedPrefix(new_[r.generation].id, b, |a|, historyLimit);
      assert b[..|a|] == a;
      assert a[..r.length] == b[..r.length];
    }
  }

  lemma GrowingKeepsViews(s: System, s': System)
    requires ViewsOk(s) && Grows(Streams(s), Streams(s'))
    requires s'.client == s.client && s'.replies == s.replies && s'.bus.historyLimit == s.bus.historyLimit
    ensures ViewsOk(s')
  {
    ClientViewKept(Streams(s), Streams(s'), s.client, s.bus.historyLimit);
    forall t | t in s.replies
      ensures ReplyViewOk(Streams(s'), s.replies[t], s.bus.historyLimit)
    {
      ReplyViewKept(Streams(s), Streams(s'), s.replies[t], s.bus.historyLimit);
    }
  }

  lemma DeliverKeepsView(streams: seq<Stream>, c: LiveState, historyLimit: nat, e: Event)
    requires ClientOk(streams, c, historyLimit) && ClientViewOk(streams, c, historyLimit)
    requires Genuine(streams, e)
    ensures ClientViewOk(streams, BufferEvent(c, e), historyLimit)
  {
    if c.status.Live? {
      var t := streams[IndexOf(streams, c.streamId.value)];
      ApplyKeepsCoherence(c, t.id, t.log, historyLimit, e);
      if Undivided(t.id, t.log, historyLimit) {
        ApplyKeepsView(c, t.id, t.log, historyLimit, e);
      }
    }
  }

  lemma ReplyKeepsView(streams: seq<Stream>, c: LiveState, r: Reply, historyLimit: nat)
    requires StreamsOk(streams) && ReplyOk(streams, r, historyLimit) && ReplyViewOk(streams, r, historyLimit)
    requires forall e :: e in c.buffered ==> FromStream(e) && Genuine(streams, e)
    ensures ClientViewOk(streams, ApplyBootstrap(c, r.bootstrap), historyLimit)
  {
    var t := streams[r.generation];
    CurrentReplyStep(streams, c, r, historyLimit);
    BufferedAreLogged(streams, c.buffered, r.generation);
    BootstrapIsCoherent(c, r.bootstrap, t.id, t.log, r.length, historyLimit);
    IndexIsUnique(streams, r.generation);
    if Undivided(t.id, t.log, historyLimit) {
      BootstrapShowsView(c, r.bootstrap, t.id, t.log, r.length, historyLimit);
    }
  }

  lemma AnswerView(streamId: int, b: BusState, log: seq<Event>)
    requires NumberingInvariant(b, log) && b.streamId == streamId && |log| <= b.historyLimit
    ensures SameView(BootstrapOf(SnapshotOf(b)).view, ServerView(streamId, log[..|log|]))
  {
    assert log[..|log|] == log;
    SnapshotShowsServerView(streamId, log);
  }

  lemma AnswerKeepsViews(s: System, token: nat)
    requires Invariant(s) && ViewsOk(s) && Enabled(s, AnswerRequest(token))
    ensures ViewsOk(Step(s, AnswerRequest(token)))
  {
    assert Streams(Step(s, AnswerRequest(token))) == Streams(s);
    if |s.log| <= s.bus.historyLimit {
      AnswerView(s.bus.streamId, s.bus, s.log);
    }
  }

  lemma StepKeepsViews(s: System, a: Action)
    requires Invariant(s) && ViewsOk(s) && Enabled(s, a)
    ensures ViewsOk(Step(s, a))
  {
    var s' := Step(s, a);
    match a
    case PublishEvent(e) =>
      if e.eventId !in s.bus.eventIds {
        PublishGrows(s, e);
        GrowingKeepsViews(s, s');
      }
    case Restart(id) =>
      assert Streams(s') == Streams(s) + [Stream(id, [])];
      GrowingKeepsViews(s, s');
    case Deliver(e) => DeliverKeepsViews(s, e);
    case AnswerRequest(token) => AnswerKeepsViews(s, token);
    case ReceiveReply(token) => ReceiveKeepsViews(s, token);
    case _ => QuietKeepsViews(s, a);
  }

  lemma DeliverKeepsViews(s: System, e: Event)
    requires Invariant(s) && ViewsOk(s) && Enabled(s, Deliver(e))
    ensures ViewsOk(Step(s, Deliver(e)))
  {
    assert Streams(Step(s, Deliver(e))) == Streams(s);
    DeliverKeepsView(Streams(s), s.client, s.bus.historyLimit, e);
  }

  lemma ReceiveKeepsViews(s: System, token: nat)
    requires Invariant(s) && ViewsOk(s) && Enabled(s, ReceiveReply(token))
    ensures ViewsOk(Step(s, ReceiveReply(token)))
  {
    assert Streams(Step(s, ReceiveReply(token))) == Streams(s);
    if token == s.gate {
      ReplyKeepsView(Streams(s), s.client, s.replies[token], s.bus.historyLimit);
    }
  }

  lemma QuietKeepsViews(s: System, a: Action)
    requires ViewsOk(s) && Enabled(s, a)
    requires !a.PublishEvent? && !a.Restart? && !a.Deliver? && !a.AnswerRequest? && !a.ReceiveReply?
    ensures ViewsOk(Step(s, a))
  {
    var s' := Step(s, a);
    assert Streams(s') == Streams(s);
    assert s'.client.view == s.client.view && s'.client.watermark == s.client.watermark;
    assert s'.client.streamId == s.client.streamId;
  }

  lemma {:induction false} RunKeepsViews(states: seq<System>, actions: seq<Action>, i: nat)
    requires IsRun(states, actions) && i < |states|
    ensures ViewsOk(states[i])
  {
    if i > 0 {
      RunKeepsViews(states, actions, i - 1);
      RunKeepsInvariant(states, actions, i - 1);
      StepKeepsViews(states[i - 1], actions[i - 1]);
    }
  }

  /** In every reachable state, if the client's stream fits the limits and has no divergent
      event, the browser's panels are what the server computes from the log up to the
      client's watermark. */
  lemma BrowserShowsServerView(states: seq<System>, actions: seq<Action>, i: nat)
    requires IsRun(states, actions) && i < |states| && states[i].client.streamId.Some?
    ensures var s := states[i];
      var k := IndexOf(Streams(s), s.client.streamId.value);
      && k < |Streams(s)| && s.client.watermark <= |Streams(s)[k].log|
      && (Undivided(Streams(s)[k].id, Streams(s)[k].log, s.bus.historyLimit) ==>
            SameView(s.client.view, ServerView(Streams(s)[k].id, Streams(s)[k].log[..s.client.watermark])))
  {
    RunKeepsViews(states, actions, i);
  }
}
