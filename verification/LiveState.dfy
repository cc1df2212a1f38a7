/** The browser's reducer: buffering, bootstrap, gap detection and incremental application. */
module LiveState {
  import opened Sequences
  import opened TelemetryEvents
  import opened EventBus
  import opened DashboardViews
  import opened ViewAgreement

  datatype ConnectionStatus = Bootstrapping | Live | Resynchronizing | Disconnected | Malformed

  datatype LiveState = LiveState(
    status: ConnectionStatus,
    streamId: Option<int>,
    watermark: nat,
    view: View,
    events: seq<Event>,
    buffered: seq<Event>)

  datatype Bootstrap = Bootstrap(streamId: int, watermark: nat, view: View, events: seq<Event>)

  function EmptyLiveState(): LiveState
  {
    LiveState(Bootstrapping, None, 0, View(None, [], []), [], [])
  }

  /** The server's bootstrap reply, computed from one snapshot of the bus. */
  function BootstrapOf(s: BusSnapshot): Bootstrap
  {
    Bootstrap(
      s.streamId, s.watermark,
      View(Some(ServerState(s.streamId, s.watermark, s.events)), ServerRuns(s.events), ServerAgents(s.events)),
      s.events)
  }

  function BeginResync(c: LiveState, initial: bool): LiveState
  {
    c.(status := if initial then Bootstrapping else Resynchronizing)
  }

  function FailLive(c: LiveState, malformed: bool): LiveState
  {
    c.(status := if malformed then Malformed else Disconnected)
  }

  predicate FromStream(e: Event) { e.streamId.Some? && ValidEvent(e) }

  function ApplyEvent(c: LiveState, e: Event): LiveState
    requires FromStream(e)
  {
    if c.streamId != e.streamId then c.(status := Resynchronizing, buffered := [e])
    else if e.sequence <= c.watermark then c
    else if e.sequence != c.watermark + 1 then
      c.(status := Resynchronizing, buffered := c.buffered + [e])
    else
      c.(watermark := e.sequence,
         events := LastN(c.events + [e], CLIENT_EVENT_LIMIT),
         view := ClientStep(c.view, e))
  }

  predicate AlreadyBuffered(buffered: seq<Event>, e: Event)
  {
    exists x :: x in buffered && x.streamId == e.streamId && x.sequence == e.sequence
  }

  function BufferEvent(c: LiveState, e: Event): LiveState
    requires FromStream(e)
  {
    if c.status.Live? then ApplyEvent(c, e)
    else if AlreadyBuffered(c.buffered, e) then c
    else c.(buffered := LastN(c.buffered + [e], CLIENT_EVENT_LIMIT))
  }

  predicate BySequence(a: Event, b: Event) { a.sequence <= b.sequence }

  predicate SameKey(a: Event, b: Event)
  {
    a.streamId == b.streamId && a.sequence == b.sequence && a.eventId == b.eventId
  }

  /** First occurrences by `(stream, sequence, id)`. */
  function FirstByKey(s: seq<Event>): (r: seq<Event>)
    ensures forall e :: e in r ==> e in s
  {
    if s == [] then []
    else
      var rest, last := FirstByKey(s[..|s| - 1]), s[|s| - 1];
      if exists x :: x in s[..|s| - 1] && SameKey(x, last) then rest else rest + [last]
  }

  function Dedupe(events: seq<Event>): seq<Event>
  {
    FirstByKey(StableSort(events, BySequence))
  }

  /** The source's `dedupe`: one pass over the sorted events with a set of seen keys. */
  method DedupeLoop(events: seq<Event>) returns (r: seq<Event>)
    ensures r == Dedupe(events)
  {
    var ordered := StableSort(events, BySequence);
    var seen: set<(Option<int>, nat, int)> := {};
    r := [];
    for i := 0 to |ordered|
      invariant r == FirstByKey(ordered[..i])
      invariant forall k :: 0 <= k < i ==> (ordered[k].streamId, ordered[k].sequence, ordered[k].eventId) in seen
      invariant forall key :: key in seen ==>
        exists k :: 0 <= k < i && key == (ordered[k].streamId, ordered[k].sequence, ordered[k].eventId)
    {
      var e := ordered[i];
      assert ordered[..i + 1][..i] == ordered[..i];
      if (e.streamId, e.sequence, e.eventId) !in seen {
        seen := seen + {(e.streamId, e.sequence, e.eventId)};
        r := r + [e];
      } else {
        var k :| 0 <= k < i && (e.streamId, e.sequence, e.eventId)
          == (ordered[k].streamId, ordered[k].sequence, ordered[k].eventId);
        assert ordered[k] in ordered[..i] && SameKey(ordered[k], e);
      }
    }
    assert ordered[..|ordered|] == ordered;
  }

  function Fresh(c: LiveState, b: Bootstrap): LiveState
  {
    LiveState(Live, Some(b.streamId), b.watermark, b.view, LastN(Dedupe(b.events), CLIENT_EVENT_LIMIT), [])
  }

  function NewerOnly(buffered: seq<Event>, b: Bootstrap): (r: seq<Event>)
    ensures forall e :: e in r <==>
      e in buffered && e.streamId == Some(b.streamId) && e.sequence > b.watermark
  {
    Filter(buffered, (e: Event) => e.streamId == Some(b.streamId) && e.sequence > b.watermark)
  }

  function Newer(buffered: seq<Event>, b: Bootstrap): (r: seq<Event>)
  {
    StableSort(NewerOnly(buffered, b), BySequence)
  }

  function Replayed(next: LiveState, newer: seq<Event>): LiveState
    requires forall e :: e in newer ==> FromStream(e)
    decreases |newer|
  {
    if newer == [] then next
    else
      var after := ApplyEvent(next, newer[0]);
      if !after.status.Live? then after else Replayed(after, newer[1..])
  }

  lemma NewerMembers(buffered: seq<Event>, b: Bootstrap)
    ensures forall e :: e in Newer(buffered, b) <==>
      e in buffered && e.streamId == Some(b.streamId) && e.sequence > b.watermark
    ensures Sorted(Newer(buffered, b), BySequence)
  {
    SortMembers(NewerOnly(buffered, b), BySequence);
    SortSorted(NewerOnly(buffered, b), BySequence);
  }

  function ApplyBootstrap(c: LiveState, b: Bootstrap): LiveState
    requires forall e :: e in c.buffered ==> FromStream(e)
  {
    NewerMembers(c.buffered, b);
    Replayed(Fresh(c, b), Newer(c.buffered, b))
  }

  /** The source's `applyBootstrap`: replay the newer buffered events until one does not fit. */
  method ApplyBootstrapLoop(c: LiveState, b: Bootstrap) returns (next: LiveState)
    requires forall e :: e in c.buffered ==> FromStream(e)
    ensures next == ApplyBootstrap(c, b)
  {
    NewerMembers(c.buffered, b);
    var newer := Newer(c.buffered, b);
    next := Fresh(c, b);
    var i := 0;
    while i < |newer|
      invariant 0 <= i <= |newer|
      invariant next.status.Live?
      invariant Replayed(next, newer[i..]) == ApplyBootstrap(c, b)
    {
      assert newer[i..][0] == newer[i] && newer[i..][1..] == newer[i + 1..];
      next := ApplyEvent(next, newer[i]);
      if !next.status.Live? {
        return;
      }
      i := i + 1;
    }
  }

  // ---- catching up after a bootstrap ----

  predicate HasSequence(newer: seq<Event>, s: nat)
  {
    exists e :: e in newer && e.sequence == s
  }

  /** How far a replay of buffered events gets: to the first missing sequence, and it stays
      live exactly when nothing lies beyond that. */
  ghost predicate StopsAtFirstGap(from: nat, newer: seq<Event>, r: LiveState)
  {
    && r.watermark >= from
    && (forall s :: from < s <= r.watermark ==> HasSequence(newer, s))
    && (forall e :: e in newer ==> e.sequence != r.watermark + 1)
    && (r.status.Live? || r.status.Resynchronizing?)
    && (r.status.Live? <==> forall e :: e in newer ==> e.sequence <= r.watermark)
  }

  lemma {:induction false} ReplayStopsAtFirstGap(next: LiveState, newer: seq<Event>)
    requires next.status.Live?
    requires forall e :: e in newer ==> FromStream(e) && e.streamId == next.streamId
    requires Sorted(newer, BySequence)
    ensures StopsAtFirstGap(next.watermark, newer, Replayed(next, newer))
    decreases |newer|
  {
    if newer != [] {
      var e, rest := newer[0], newer[1..];
      var after := ApplyEvent(next, e);
      forall x | x in newer
        ensures e.sequence <= x.sequence
      {
        var i :| 0 <= i < |newer| && newer[i] == x;
        assert i > 0 ==> BySequence(newer[0], newer[i]);
      }
      assert newer == [e] + rest;
      if after.status.Live? {
        ReplayStopsAtFirstGap(after, rest);
        var r := Replayed(next, newer);
        forall s | next.watermark < s <= r.watermark
          ensures HasSequence(newer, s)
        {
          if s <= after.watermark {
            assert e in newer && e.sequence == s;
          } else {
            assert HasSequence(rest, s);
            var x :| x in rest && x.sequence == s;
            assert x in newer;
          }
        }
      } else {
        assert e in newer;
      }
    }
  }

  lemma BootstrapCatchesUp(c: LiveState, b: Bootstrap)
    requires forall e :: e in c.buffered ==> FromStream(e)
    ensures StopsAtFirstGap(b.watermark, Newer(c.buffered, b), ApplyBootstrap(c, b))
  {
    NewerMembers(c.buffered, b);
    ReplayStopsAtFirstGap(Fresh(c, b), Newer(c.buffered, b));
  }

  // ---- coherence with a stream's log ----

  function Min(a: nat, b: nat): nat { if a < b then a else b }

  /** Exactly the log's events on a gap-free interval that ends at the watermark, and as many
      of them as the limits allow. */
  ghost predicate Interval(events: seq<Event>, watermark: nat, log: seq<Event>, historyLimit: nat)
  {
    && |events| <= watermark <= |log|
    && events == log[watermark - |events|..watermark]
    && Min(watermark, Min(historyLimit, CLIENT_EVENT_LIMIT)) <= |events| <= CLIENT_EVENT_LIMIT
  }

  ghost predicate Coherent(c: LiveState, streamId: int, log: seq<Event>, historyLimit: nat)
  {
    c.streamId == Some(streamId) && Interval(c.events, c.watermark, log, historyLimit)
  }

  ghost predicate InLog(e: Event, streamId: int, log: seq<Event>)
  {
    e.streamId == Some(streamId) && 1 <= e.sequence <= |log| && log[e.sequence - 1] == e
  }

  lemma ApplyKeepsCoherence(c: LiveState, streamId: int, log: seq<Event>, historyLimit: nat, e: Event)
    requires FromStream(e)
    requires Coherent(c, streamId, log, historyLimit)
    requires e.streamId == Some(streamId) ==> InLog(e, streamId, log)
    ensures Coherent(ApplyEvent(c, e), streamId, log, historyLimit)
    ensures ApplyEvent(c, e).watermark >= c.watermark
  {
    if e.streamId == Some(streamId) && e.sequence == c.watermark + 1 {
      IntervalGrows(c.events, c.watermark, log, historyLimit);
    }
  }

  lemma IntervalGrows(events: seq<Event>, w: nat, log: seq<Event>, historyLimit: nat)
    requires Interval(events, w, log, historyLimit) && w < |log|
    ensures Interval(LastN(events + [log[w]], CLIENT_EVENT_LIMIT), w + 1, log, historyLimit)
  {
    assert events + [log[w]] == log[w - |events|..w + 1];
    var kept := LastN(events + [log[w]], CLIENT_EVENT_LIMIT);
    assert kept == log[w + 1 - |kept|..w + 1];
  }

  lemma {:induction false} ReplayKeepsCoherence(next: LiveState, streamId: int, log: seq<Event>, historyLimit: nat, newer: seq<Event>)
    requires Coherent(next, streamId, log, historyLimit)
    requires forall e :: e in newer ==> FromStream(e) && (e.streamId == Some(streamId) ==> InLog(e, streamId, log))
    ensures Coherent(Replayed(next, newer), streamId, log, historyLimit)
    ensures Replayed(next, newer).watermark >= next.watermark
    decreases |newer|
  {
    if newer != [] {
      ApplyKeepsCoherence(next, streamId, log, historyLimit, newer[0]);
      var after := ApplyEvent(next, newer[0]);
      if after.status.Live? {
        ReplayKeepsCoherence(after, streamId, log, historyLimit, newer[1..]);
      }
    }
  }

  lemma {:induction false} FirstByKeyAll(s: seq<Event>)
    requires forall i, j :: 0 <= i < j < |s| ==> !SameKey(s[i], s[j])
    ensures FirstByKey(s) == s
  {
    if s != [] {
      FirstByKeyAll(s[..|s| - 1]);
      assert s == s[..|s| - 1] + [s[|s| - 1]];
    }
  }

  /** A snapshot of the bus is already ordered and free of duplicates. */
  lemma DedupeOfHistory(events: seq<Event>)
    requires forall i, j :: 0 <= i < j < |events| ==> events[i].sequence < events[j].sequence
    ensures Dedupe(events) == events
  {
    SortOfSorted(events, BySequence);
    FirstByKeyAll(events);
  }

  /** A bootstrap whose events are the log's up to `n`, as far as the limits allow. */
  ghost predicate CoherentBootstrap(b: Bootstrap, streamId: int, log: seq<Event>, n: nat, historyLimit: nat)
  {
    && b.streamId == streamId && b.watermark == n
    && Interval(LastN(Dedupe(b.events), CLIENT_EVENT_LIMIT), n, log, historyLimit)
  }

  lemma SnapshotIsCoherent(b: Bootstrap, streamId: int, log: seq<Event>, n: nat, historyLimit: nat)
    requires Gapless(streamId, log) && n <= |log|
    requires b.streamId == streamId && b.watermark == n && b.events == LastN(log[..n], historyLimit)
    ensures CoherentBootstrap(b, streamId, log, n, historyLimit)
  {
    HistoryInterval(streamId, log, n, historyLimit);
    DedupeOfHistory(b.events);
  }

  /** A bootstrap puts the client on the reply's log prefix, or further. */
  lemma BootstrapIsCoherent(c: LiveState, b: Bootstrap, streamId: int, log: seq<Event>, n: nat, historyLimit: nat)
    requires forall e :: e in c.buffered ==> FromStream(e) && (e.streamId == Some(streamId) ==> InLog(e, streamId, log))
    requires CoherentBootstrap(b, streamId, log, n, historyLimit)
    ensures Coherent(ApplyBootstrap(c, b), streamId, log, historyLimit)
    ensures ApplyBootstrap(c, b).watermark >= n
  {
    NewerMembers(c.buffered, b);
    ReplayKeepsCoherence(Fresh(c, b), streamId, log, historyLimit, Newer(c.buffered, b));
  }

  lemma HistoryInterval(streamId: int, log: seq<Event>, n: nat, historyLimit: nat)
    requires Gapless(streamId, log) && n <= |log|
    ensures Interval(LastN(LastN(log[..n], historyLimit), CLIENT_EVENT_LIMIT), n, log, historyLimit)
    ensures var history := LastN(log[..n], historyLimit);
      forall i, j :: 0 <= i < j < |history| ==> history[i].sequence < history[j].sequence
  {
    var history := LastN(log[..n], historyLimit);
    assert history == log[n - |history|..n];
    LastOfLast(log, n, historyLimit);
    forall i, j | 0 <= i < j < |history|
      ensures history[i].sequence < history[j].sequence
    {
      assert history[i] == log[n - |history| + i] && history[j] == log[n - |history| + j];
    }
  }

  lemma LastOfLast(log: seq<Event>, n: nat, historyLimit: nat)
    requires n <= |log|
    ensures Interval(LastN(LastN(log[..n], historyLimit), CLIENT_EVENT_LIMIT), n, log, historyLimit)
  {
    var history := LastN(log[..n], historyLimit);
    assert history == log[n - |history|..n];
    var kept := LastN(history, CLIENT_EVENT_LIMIT);
    assert kept == log[n - |kept|..n];
  }

  // ---- the view beside the events ----

  /** While nothing has been evicted and no event diverges, the client shows the server's view. */
  ghost predicate ShowsServerView(c: LiveState, streamId: int, log: seq<Event>)
    requires c.watermark <= |log|
  {
    SameView(c.view, ServerView(streamId, log[..c.watermark]))
  }

  ghost predicate Undivided(streamId: int, log: seq<Event>, historyLimit: nat)
  {
    && WholeStream(streamId, log)
    && |log| <= historyLimit
    && (forall m :: 0 <= m < |log| ==> !Divergent(log, m))
  }

  lemma ApplyKeepsView(c: LiveState, streamId: int, log: seq<Event>, historyLimit: nat, e: Event)
    requires FromStream(e)
    requires Coherent(c, streamId, log, historyLimit) && Undivided(streamId, log, historyLimit)
    requires e.streamId == Some(streamId) ==> InLog(e, streamId, log)
    requires ShowsServerView(c, streamId, log)
    ensures ApplyEvent(c, e).watermark <= |log| && ShowsServerView(ApplyEvent(c, e), streamId, log)
  {
    if e.streamId == Some(streamId) && e.sequence == c.watermark + 1 {
      ViewStep(streamId, log, c.watermark, c.view);
    }
  }

  lemma {:induction false} ReplayKeepsView(next: LiveState, streamId: int, log: seq<Event>, historyLimit: nat, newer: seq<Event>)
    requires Coherent(next, streamId, log, historyLimit) && Undivided(streamId, log, historyLimit)
    requires forall e :: e in newer ==> FromStream(e) && (e.streamId == Some(streamId) ==> InLog(e, streamId, log))
    requires ShowsServerView(next, streamId, log)
    ensures Replayed(next, newer).watermark <= |log| && ShowsServerView(Replayed(next, newer), streamId, log)
    decreases |newer|
  {
    if newer != [] {
      ApplyKeepsCoherence(next, streamId, log, historyLimit, newer[0]);
      ApplyKeepsView(next, streamId, log, historyLimit, newer[0]);
      var after := ApplyEvent(next, newer[0]);
      if after.status.Live? {
        ReplayKeepsView(after, streamId, log, historyLimit, newer[1..]);
      }
    }
  }

  /** A bootstrap that shows the server's view still shows it after the replay. */
  lemma BootstrapShowsView(c: LiveState, b: Bootstrap, streamId: int, log: seq<Event>, n: nat, historyLimit: nat)
    requires forall e :: e in c.buffered ==> FromStream(e) && (e.streamId == Some(streamId) ==> InLog(e, streamId, log))
    requires CoherentBootstrap(b, streamId, log, n, historyLimit) && Undivided(streamId, log, historyLimit)
    requires SameView(b.view, ServerView(streamId, log[..n]))
    ensures ApplyBootstrap(c, b).watermark <= |log| && ShowsServerView(ApplyBootstrap(c, b), streamId, log)
  {
    NewerMembers(c.buffered, b);
    ReplayKeepsView(Fresh(c, b), streamId, log, historyLimit, Newer(c.buffered, b));
  }

  /** A snapshot of an unevicted history shows the server's view. */
  lemma SnapshotShowsServerView(streamId: int, log: seq<Event>)
    ensures SameView(BootstrapOf(BusSnapshot(streamId, |log|, log)).view, ServerView(streamId, log))
  {
  }
}
