/** One WebSocket consumer: a bounded queue between the bus handler and the socket. `None`
    in the queue is the lag marker. */
module EventSocket {
  import opened Sequences
  import opened TelemetryEvents

  function Enqueued(queue: seq<Option<Event>>, limit: nat, item: Event): (r: seq<Option<Event>>)
    ensures |queue| <= limit && limit >= 1 ==> |r| <= limit
  {
    if |queue| >= limit then [None] else queue + [Some(item)]
  }

  class BoundedQueue {
    const limit: nat
    var items: seq<Option<Event>>

    constructor (limit: nat)
      requires limit >= 1
      ensures this.limit == limit && items == []
    {
      this.limit := limit;
      items := [];
    }

    method EnqueueOrLag(item: Event)
      modifies this
      ensures items == Enqueued(old(items), limit, item)
    {
      if |items| >= limit {
        while |items| > 0
          invariant true
          decreases |items|
        {
          items := items[1..];
        }
        items := [None];
        return;
      }
      items := items + [Some(item)];
    }
  }

  /** `lagged` records that the queue overflowed; `closed` that the socket is gone. */
  datatype Consumer = Consumer(
    limit: nat,
    scheduled: seq<Event>,
    queue: seq<Option<Event>>,
    sent: seq<Event>,
    lagged: bool,
    closed: bool)

  datatype ConsumerStep =
    | Hand(event: Event)  // the bus handler schedules a put on the event loop
    | Put                 // the event loop runs the oldest scheduled put
    | Send                // the socket task takes one item and sends it
    | Disconnect          // the browser goes away

  function NewConsumer(limit: nat): Consumer
  {
    Consumer(limit, [], [], [], false, false)
  }

  function Handing(c: Consumer, e: Event): Consumer
  {
    c.(scheduled := c.scheduled + [e])
  }

  function Putting(c: Consumer): Consumer
    requires c.scheduled != []
  {
    c.(scheduled := c.scheduled[1..],
       queue := Enqueued(c.queue, c.limit, c.scheduled[0]),
       lagged := c.lagged || |c.queue| >= c.limit)
  }

  function Sending(c: Consumer): Consumer
    requires c.queue != [] && !c.closed
  {
    match c.queue[0]
    case None => c.(queue := c.queue[1..], closed := true)
    case Some(e) => c.(queue := c.queue[1..], sent := c.sent + [e])
  }

  /** A step that is not enabled leaves the consumer as it is. */
  function ConsumerNext(c: Consumer, step: ConsumerStep): Consumer
  {
    match step
    case Hand(e) => Handing(c, e)
    case Put => if c.scheduled == [] then c else Putting(c)
    case Send => if c.queue == [] || c.closed then c else Sending(c)
    case Disconnect => c.(closed := true)
  }

  function RunConsumer(c: Consumer, steps: seq<ConsumerStep>): Consumer
    decreases |steps|
  {
    if steps == [] then c else RunConsumer(ConsumerNext(c, steps[0]), steps[1..])
  }

  /** Every event handed to the consumer, in order. */
  function HandedIn(steps: seq<ConsumerStep>): seq<Event>
    decreases |steps|
  {
    if steps == [] then []
    else (if steps[0].Hand? then [steps[0].event] else []) + HandedIn(steps[1..])
  }

  function Waiting(queue: seq<Option<Event>>): (r: seq<Event>)
  {
    if queue == [] then []
    else (if queue[0].Some? then [queue[0].value] else []) + Waiting(queue[1..])
  }

  ghost predicate ConsumerInvariant(c: Consumer, handed: seq<Event>)
  {
    && c.limit >= 1
    && (!c.lagged ==> None !in c.queue && handed == c.sent + Waiting(c.queue) + c.scheduled)
    && (c.lagged ==> c.sent <= handed && (c.closed || (c.queue != [] && c.queue[0] == None)))
  }

  lemma {:induction false} WaitingSnoc(queue: seq<Option<Event>>, e: Event)
    ensures Waiting(queue + [Some(e)]) == Waiting(queue) + [e]
  {
    if queue == [] {
      assert queue + [Some(e)] == [Some(e)];
      assert Waiting([Some(e)]) == [e] + Waiting([]);
    } else {
      assert (queue + [Some(e)])[1..] == queue[1..] + [Some(e)];
      WaitingSnoc(queue[1..], e);
    }
  }

  lemma ConsumerStepKeepsInvariant(c: Consumer, handed: seq<Event>, step: ConsumerStep)
    requires ConsumerInvariant(c, handed)
    ensures ConsumerInvariant(
      ConsumerNext(c, step), if step.Hand? then handed + [step.event] else handed)
  {
    match step
    case Hand(e) =>
      if !c.lagged {
        assert c.sent + Waiting(c.queue) + (c.scheduled + [e])
            == c.sent + Waiting(c.queue) + c.scheduled + [e];
      }
    case Put =>
      if c.scheduled != [] && |c.queue| < c.limit && !c.lagged {
        var e := c.scheduled[0];
        WaitingSnoc(c.queue, e);
        assert c.scheduled == [e] + c.scheduled[1..];
        assert c.sent + (Waiting(c.queue) + [e]) + c.scheduled[1..]
            == c.sent + Waiting(c.queue) + c.scheduled;
      } else if c.scheduled != [] && !c.lagged {
        assert handed == c.sent + (Waiting(c.queue) + c.scheduled);
      }
    case Send =>
      if c.queue != [] && !c.closed && !c.lagged {
        assert c.queue[0] in c.queue;
        assert (c.sent + [c.queue[0].value]) + Waiting(c.queue[1..]) + c.scheduled
            == c.sent + Waiting(c.queue) + c.scheduled;
      }
    case Disconnect =>
  }

  lemma Regrouped(a: seq<Event>, b: seq<Event>, c: seq<Event>)
    ensures (a + b) + c == a + (b + c)
  {
  }

  lemma {:induction false} RunKeepsConsumerInvariant(c: Consumer, handed: seq<Event>, steps: seq<ConsumerStep>)
    requires ConsumerInvariant(c, handed)
    ensures ConsumerInvariant(RunConsumer(c, steps), handed + HandedIn(steps))
    decreases |steps|
  {
    hide ConsumerInvariant, ConsumerNext;
    if steps == [] {
      assert handed + [] == handed;
    } else {
      ConsumerStepKeepsInvariant(c, handed, steps[0]);
      var first := if steps[0].Hand? then [steps[0].event] else [];
      assert handed + [] == handed;
      RunKeepsConsumerInvariant(ConsumerNext(c, steps[0]), handed + first, steps[1..]);
      Regrouped(handed, first, HandedIn(steps[1..]));
    }
  }

  /** For every interleaving of hand-over, put, send and disconnect: what the browser is sent
      is a prefix of what the handler was called with, and nothing is lost, only waiting,
      unless the queue overflowed. The source closes the socket on the first lag marker. */
  lemma SocketSendsAPrefix(limit: nat, steps: seq<ConsumerStep>)
    requires limit >= 1
    ensures var c := RunConsumer(NewConsumer(limit), steps);
            && c.sent <= HandedIn(steps)
            && (!c.lagged ==> HandedIn(steps) == c.sent + Waiting(c.queue) + c.scheduled)
            && (c.lagged && !c.closed ==> c.queue != [] && c.queue[0] == None)
  {
    RunKeepsConsumerInvariant(NewConsumer(limit), [], steps);
    assert [] + HandedIn(steps) == HandedIn(steps);
    var c := RunConsumer(NewConsumer(limit), steps);
    if !c.lagged {
      assert HandedIn(steps) == c.sent + (Waiting(c.queue) + c.scheduled);
    }
  }

  /** Once the socket is closed nothing more is ever sent. */
  lemma {:induction false} ClosedSocketIsSilent(c: Consumer, steps: seq<ConsumerStep>)
    requires c.closed
    ensures RunConsumer(c, steps).closed && RunConsumer(c, steps).sent == c.sent
    decreases |steps|
  {
    if steps != [] {
      ClosedSocketIsSilent(ConsumerNext(c, steps[0]), steps[1..]);
    }
  }
}
