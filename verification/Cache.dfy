/** The market-data cache: immutable artifacts, one a request, and what they cover together. */
module Cache {
  import opened Sequences
  import opened Trading
  import opened Quality

  datatype Timeframe = Minute1 | Minute5 | Minute15 | Hour1 | Hour4 | Day1

  /** Ticks of one second. */
  function Duration(t: Timeframe): (d: nat)
    ensures d > 0
  {
    match t
    case Minute1 => 60
    case Minute5 => 300
    case Minute15 => 900
    case Hour1 => 3600
    case Hour4 => 14400
    case Day1 => 86400
  }

  datatype Request = Request(instrument: int, timeframe: Timeframe, start: int, end: int, asOf: int, market: int)
  {
    function Range(): Window { Window(start, end) }
    function Step(): (d: nat) ensures d > 0 { Duration(timeframe) }
  }

  datatype Versions = Versions(source: int, adapter: int)

  datatype History = History(request: Request, fetchedAt: int, bars: seq<Bar>, report: Report, versions: Versions)

  function InRange(r: Request): Bar -> bool
  {
    (b: Bar) => r.start <= b.openedAt < r.end && b.availableAt <= r.asOf
  }

  /** The contract of a historical result. */
  ghost predicate MeetsRequest(h: History)
  {
    && h.request.start < h.request.end
    && (forall b :: b in h.bars ==> InRange(h.request)(b))
    && (forall i, j :: 0 <= i < j < |h.bars| ==>
          h.bars[i].openedAt < h.bars[j].openedAt
          || (h.bars[i].openedAt == h.bars[j].openedAt && h.bars[i].closedAt < h.bars[j].closedAt))
  }

  /** What the cache compares of two reports: everything but the row counts and the disorder flag. */
  predicate SameCoverage(a: Report, b: Report)
  {
    && a.outputRows == b.outputRows && a.gaps == b.gaps && a.expected == b.expected
    && a.leading == b.leading && a.trailing == b.trailing && a.complete == b.complete
  }

  function Reassessed(h: History): Result<Assessment>
  {
    Assess(h.bars, h.request.Step(), Some(h.request.Range()))
  }

  predicate QualityVerified(h: History)
  {
    Reassessed(h).Good? && SameCoverage(h.report, Reassessed(h).value.report)
  }

  predicate SameContent(a: History, b: History)
  {
    a.request == b.request && a.versions == b.versions && a.bars == b.bars
  }

  // ---- what the files cover ----

  predicate Matches(h: History, r: Request, versions: Versions)
  {
    && h.request.instrument == r.instrument && h.request.timeframe == r.timeframe && h.request.market == r.market
    && h.versions == versions
  }

  /** The matching artifacts, in order of their paths. */
  function Matching(files: map<int, History>, paths: seq<int>, r: Request, versions: Versions): (m: seq<History>)
    requires forall i :: 0 <= i < |paths| ==> paths[i] in files
    ensures forall h :: h in m <==> exists i :: 0 <= i < |paths| && files[paths[i]] == h && Matches(h, r, versions)
  {
    if paths == [] then []
    else
      var n := |paths| - 1;
      var rest, last := Matching(files, paths[..n], r, versions), files[paths[n]];
      assert forall i :: 0 <= i < n ==> paths[..n][i] == paths[i];
      if Matches(last, r, versions) then rest + [last] else rest
  }

  lemma PathsExist(files: map<int, History>)
    ensures forall i :: 0 <= i < |SortedInts(files.Keys)| ==> SortedInts(files.Keys)[i] in files
  {
    var paths := SortedInts(files.Keys);
    assert forall i :: 0 <= i < |paths| ==> paths[i] in paths;
  }

  function ValidatedResults(files: map<int, History>, r: Request, versions: Versions): seq<History>
  {
    PathsExist(files);
    Matching(files, SortedInts(files.Keys), r, versions)
  }

  ghost predicate IsFile(files: map<int, History>, h: History) { exists p :: p in files && files[p] == h }

  lemma ResultsMean(files: map<int, History>, r: Request, versions: Versions, h: History)
    ensures h in ValidatedResults(files, r, versions) <==> IsFile(files, h) && Matches(h, r, versions)
  {
    PathsExist(files);
    var paths := SortedInts(files.Keys);
    if IsFile(files, h) && Matches(h, r, versions) {
      var p :| p in files && files[p] == h;
      assert p in paths;
      var i :| 0 <= i < |paths| && paths[i] == p;
      assert files[paths[i]] == h;
    }
  }

  function BarsInRange(results: seq<History>, r: Request): (bars: seq<Bar>)
    ensures forall b :: b in bars <==> InRange(r)(b) && exists h :: h in results && b in h.bars
  {
    if results == [] then []
    else
      var n := |results| - 1;
      assert results == results[..n] + [results[n]];
      BarsInRange(results[..n], r) + Filter(results[n].bars, InRange(r))
  }

  function LatestFetch(results: seq<History>): int
    requires results != []
  {
    if |results| == 1 then results[0].fetchedAt
    else
      var before := LatestFetch(results[..|results| - 1]);
      var last := results[|results| - 1].fetchedAt;
      if before < last then last else before
  }

  datatype RangeResult = Found(history: History) | NotCovered | Conflict

  function LoadRangeFrom(results: seq<History>, r: Request, versions: Versions): RangeResult
  {
    var assessed := Assess(BarsInRange(results, r), r.Step(), Some(r.Range()));
    if assessed.Bad? then Conflict
    else if !assessed.value.report.complete || results == [] then NotCovered
    else Found(History(r, LatestFetch(results), assessed.value.bars, assessed.value.report, versions))
  }

  /** The bars by opening, or nothing when two artifacts disagree on a candle. */
  function Merged(bars: seq<Bar>): Option<map<int, Bar>>
  {
    if bars == [] then Some(map[])
    else
      var before, bar := Merged(bars[..|bars| - 1]), bars[|bars| - 1];
      if before.None? then None
      else if bar.openedAt in before.value && before.value[bar.openedAt] != bar then None
      else Some(before.value[bar.openedAt := bar])
  }

  function AllBars(results: seq<History>): (bars: seq<Bar>)
    ensures forall b :: b in bars <==> exists h :: h in results && b in h.bars
  {
    if results == [] then []
    else
      var n := |results| - 1;
      assert results == results[..n] + [results[n]];
      AllBars(results[..n]) + results[n].bars
  }

  function CachedOpens(byOpen: map<int, Bar>, r: Request): set<int>
  {
    set o | o in byOpen && InRange(r)(byOpen[o])
  }

  /** The openings still to fetch, in runs. `open` is where the run under way began. */
  function MissingFrom(cached: set<int>, r: Request, cursor: int, open: Option<int>): seq<Request>
    decreases r.end - cursor
  {
    if cursor >= r.end then
      if open.Some? then [r.(start := open.value, end := r.end)] else []
    else if cursor !in cached && open.None? then MissingFrom(cached, r, cursor + r.Step(), Some(cursor))
    else if cursor in cached && open.Some? then
      [r.(start := open.value, end := cursor)] + MissingFrom(cached, r, cursor + r.Step(), None)
    else MissingFrom(cached, r, cursor + r.Step(), open)
  }

  function Missing(cached: set<int>, r: Request): seq<Request> { MissingFrom(cached, r, r.start, None) }

  // ---- the complement ----

  /** One of the openings a request asks for. */
  predicate IsOpening(r: Request, o: int)
  {
    r.start <= o < r.end && (o - r.start) % r.Step() == 0
  }

  lemma NextOpening(r: Request, cursor: int)
    requires (cursor - r.start) % r.Step() == 0
    ensures (cursor + r.Step() - r.start) % r.Step() == 0
    ensures forall o :: IsOpening(r, o) && cursor < o ==> cursor + r.Step() <= o
  {
    var d := r.Step();
    var k := (cursor - r.start) / d;
    SlotTimes(cursor - r.start, d);
    assert cursor + d - r.start == (k + 1) * d;
    DivideExact(k + 1, d);
    forall o | IsOpening(r, o) && cursor < o
      ensures cursor + d <= o
    {
      var j := (o - r.start) / d;
      SlotTimes(o - r.start, d);
      assert j <= k ==> (k - j) * d >= 0;
      assert (j - k - 1) * d >= 0;
    }
  }

  /** Where a pass that has come to `cursor` stands. */
  ghost predicate Underway(cached: set<int>, r: Request, cursor: int, open: Option<int>)
  {
    && r.start <= cursor && (cursor - r.start) % r.Step() == 0
    && (open.None? ==> cursor == r.start || cursor - r.Step() in cached)
    && (open.Some? ==>
          && r.start <= open.value < cursor && IsOpening(r, open.value)
          && (open.value == r.start || open.value - r.Step() in cached)
          && (forall o :: IsOpening(r, o) && open.value <= o < cursor ==> o !in cached))
  }

  function From(cursor: int, open: Option<int>): int { if open.Some? then open.value else cursor }

  /** A maximal run of missing openings: nothing cached inside, something cached (or the request's
      own bound) on either side. */
  ghost predicate MaximalRun(cached: set<int>, r: Request, w: Request)
  {
    && w == r.(start := w.start, end := w.end)
    && IsOpening(r, w.start) && w.start < w.end <= r.end
    && (forall o :: IsOpening(r, o) && w.start <= o < w.end ==> o !in cached)
    && (w.start == r.start || w.start - r.Step() in cached)
    && (w.end == r.end || (IsOpening(r, w.end) && w.end in cached))
  }

  lemma StepUnderway(cached: set<int>, r: Request, cursor: int, open: Option<int>)
    requires Underway(cached, r, cursor, open) && cursor < r.end
    ensures IsOpening(r, cursor)
    ensures cursor !in cached && open.None? ==> Underway(cached, r, cursor + r.Step(), Some(cursor))
    ensures cursor in cached ==> Underway(cached, r, cursor + r.Step(), None)
    ensures cursor !in cached && open.Some? ==> Underway(cached, r, cursor + r.Step(), open)
  {
    NextOpening(r, cursor);
  }

  lemma {:induction false} RunsAreMaximal(cached: set<int>, r: Request, cursor: int, open: Option<int>)
    requires Underway(cached, r, cursor, open)
    ensures forall w :: w in MissingFrom(cached, r, cursor, open) ==> MaximalRun(cached, r, w) && From(cursor, open) <= w.start
    decreases r.end - cursor
  {
    var next := cursor + r.Step();
    if cursor >= r.end {
      if open.Some? {
        RunIsMaximal(cached, r, cursor, open.value, r.end);
      }
    } else {
      StepUnderway(cached, r, cursor, open);
      if cursor !in cached && open.None? {
        RunsAreMaximal(cached, r, next, Some(cursor));
      } else if cursor in cached && open.Some? {
        RunsAreMaximal(cached, r, next, None);
        RunIsMaximal(cached, r, cursor, open.value, cursor);
      } else {
        RunsAreMaximal(cached, r, next, open);
      }
    }
  }

  lemma RunIsMaximal(cached: set<int>, r: Request, cursor: int, open: int, end: int)
    requires Underway(cached, r, cursor, Some(open)) && end <= r.end
    requires end == cursor || (cursor >= r.end && end == r.end)
    requires end == r.end || (IsOpening(r, end) && end in cached)
    ensures MaximalRun(cached, r, r.(start := open, end := end))
  {
  }

  /** In order, with something in between. */
  ghost predicate Disjoint(ws: seq<Request>)
  {
    forall i, j :: 0 <= i < j < |ws| ==> ws[i].end < ws[j].start
  }

  lemma {:induction false} RunsAreOrdered(cached: set<int>, r: Request, cursor: int, open: Option<int>)
    requires Underway(cached, r, cursor, open)
    ensures Disjoint(MissingFrom(cached, r, cursor, open))
    decreases r.end - cursor
  {
    hide Underway, MaximalRun, Duration, IsOpening;
    var next := cursor + r.Step();
    if cursor < r.end {
      StepUnderway(cached, r, cursor, open);
      if cursor !in cached && open.None? {
        RunsAreOrdered(cached, r, next, Some(cursor));
      } else if cursor in cached && open.Some? {
        RunsAreOrdered(cached, r, next, None);
        RunsAreMaximal(cached, r, next, None);
        Prepended(r.(start := open.value, end := cursor), MissingFrom(cached, r, next, None));
      } else {
        RunsAreOrdered(cached, r, next, open);
      }
    }
  }

  lemma Prepended(w: Request, rest: seq<Request>)
    requires forall x :: x in rest ==> w.end < x.start
    requires Disjoint(rest)
    ensures Disjoint([w] + rest)
  {
    forall i, j | 0 <= i < j < |[w] + rest|
      ensures ([w] + rest)[i].end < ([w] + rest)[j].start
    {
      assert rest[j - 1] in rest;
      assert i > 0 ==> ([w] + rest)[i] == rest[i - 1];
    }
  }

  predicate Covered(ws: seq<Request>, o: int)
  {
    exists i :: 0 <= i < |ws| && ws[i].start <= o < ws[i].end
  }

  lemma CoveredLater(w: Request, ws: seq<Request>, o: int)
    requires Covered(ws, o)
    ensures Covered([w] + ws, o)
  {
    var i :| 0 <= i < |ws| && ws[i].start <= o < ws[i].end;
    assert ([w] + ws)[i + 1] == ws[i];
  }

  lemma {:induction false} MissingIsCovered(cached: set<int>, r: Request, cursor: int, open: Option<int>, o: int)
    requires Underway(cached, r, cursor, open) && IsOpening(r, o) && o !in cached && From(cursor, open) <= o
    ensures Covered(MissingFrom(cached, r, cursor, open), o)
    decreases r.end - cursor
  {
    var next := cursor + r.Step();
    if cursor >= r.end {
      var w := r.(start := open.value, end := r.end);
      assert [w][0].start <= o < [w][0].end;
    } else {
      StepUnderway(cached, r, cursor, open);
      NextOpening(r, cursor);
      if cursor !in cached && open.None? {
        MissingIsCovered(cached, r, next, Some(cursor), o);
      } else if cursor in cached && open.Some? {
        var w, rest := r.(start := open.value, end := cursor), MissingFrom(cached, r, next, None);
        if o < cursor {
          assert ([w] + rest)[0] == w;
        } else {
          MissingIsCovered(cached, r, next, None, o);
          CoveredLater(w, rest, o);
        }
      } else {
        MissingIsCovered(cached, r, next, open, o);
      }
    }
  }

  /** The exact complement: ordered, disjoint, maximal runs inside the request, covering precisely
      the openings that are not cached. */
  lemma MissingIsTheComplement(cached: set<int>, r: Request)
    requires r.start < r.end
    ensures var ws := Missing(cached, r);
      && (forall w :: w in ws ==> MaximalRun(cached, r, w))
      && Disjoint(ws)
      && (forall o :: IsOpening(r, o) ==> (Covered(ws, o) <==> o !in cached))
      && (ws == [] <==> forall o :: IsOpening(r, o) ==> o in cached)
  {
    hide MissingFrom, Underway, MaximalRun, IsOpening;
    var ws := Missing(cached, r);
    AtTheStart(cached, r);
    RunsAreMaximal(cached, r, r.start, None);
    RunsAreOrdered(cached, r, r.start, None);
    forall o | IsOpening(r, o)
      ensures Covered(ws, o) <==> o !in cached
    {
      OpeningIsInside(r, o);
      if o !in cached {
        MissingIsCovered(cached, r, r.start, None, o);
      }
      if Covered(ws, o) {
        var i :| 0 <= i < |ws| && ws[i].start <= o < ws[i].end;
        assert ws[i] in ws;
        RunIsMissing(cached, r, ws[i], o);
      }
    }
    if ws != [] {
      assert ws[0] in ws;
      RunStarts(cached, r, ws[0]);
    }
    assert ws == [] ==> forall o :: !Covered(ws, o);
  }

  lemma AtTheStart(cached: set<int>, r: Request)
    ensures Underway(cached, r, r.start, None)
  {
  }

  lemma OpeningIsInside(r: Request, o: int)
    requires IsOpening(r, o)
    ensures r.start <= o < r.end
  {
  }

  lemma RunIsMissing(cached: set<int>, r: Request, w: Request, o: int)
    requires MaximalRun(cached, r, w) && IsOpening(r, o) && w.start <= o < w.end
    ensures o !in cached
  {
  }

  lemma RunStarts(cached: set<int>, r: Request, w: Request)
    requires MaximalRun(cached, r, w)
    ensures IsOpening(r, w.start) && w.start !in cached
  {
  }

  // ---- empty exactly when the range can be loaded ----

  ghost predicate OnePerOpening(bars: seq<Bar>)
  {
    forall x, y :: x in bars && y in bars && x.openedAt == y.openedAt ==> x == y
  }

  lemma {:induction false} MergedMeans(bars: seq<Bar>)
    ensures Merged(bars).Some? <==> OnePerOpening(bars)
    ensures Merged(bars).Some? ==> Indexes(Merged(bars).value, bars)
  {
    if bars != [] {
      var n := |bars| - 1;
      var rest, bar := bars[..n], bars[n];
      MergedMeans(rest);
      assert bars == rest + [bar];
      assert forall x :: x in bars <==> x in rest || x == bar;
      if Merged(rest).Some? && bar.openedAt in Merged(rest).value {
        assert Merged(rest).value[bar.openedAt] in bars;
      }
    }
  }

  /** Artifacts whose candles agree with each other and lie on the request's grid. */
  ghost predicate GridAligned(results: seq<History>, r: Request)
  {
    && r.start < r.end && (r.end - r.start) % r.Step() == 0
    && Consistent(AllBars(results), r.Step())
    && (forall b :: b in AllBars(results) && InRange(r)(b) ==> (b.openedAt - r.start) % r.Step() == 0)
  }

  function OpensOf(bars: seq<Bar>): (r: seq<int>)
    ensures |r| == |bars|
    ensures forall i :: 0 <= i < |r| ==> r[i] == bars[i].openedAt
  {
    seq(|bars|, i requires 0 <= i < |bars| => bars[i].openedAt)
  }

  function Grid(start: int, step: nat, n: nat): (r: seq<int>)
    ensures |r| == n
    ensures forall i :: 0 <= i < n ==> r[i] == start + i * step
  {
    seq(n, i => start + i * step)
  }

  lemma InRangeBars(results: seq<History>, r: Request)
    requires GridAligned(results, r)
    ensures Consistent(BarsInRange(results, r), r.Step())
    ensures forall b :: b in BarsInRange(results, r) <==> b in AllBars(results) && InRange(r)(b)
  {
  }

  predicate OnRequest(r: Request, b: Bar)
  {
    r.start <= b.openedAt < r.end && (b.openedAt - r.start) % r.Step() == 0
  }

  /** Candles of the request's range that agree with each other and lie on its grid. */
  ghost predicate GridSupply(supplied: seq<Bar>, r: Request)
  {
    Consistent(supplied, r.Step()) && forall b :: b in supplied ==> OnRequest(r, b)
  }

  lemma OrderedOnGrid(supplied: seq<Bar>, r: Request)
    requires GridSupply(supplied, r) && Collect(supplied, r.Step()).Good?
    ensures OnGrid(Ordered(Collect(supplied, r.Step()).value.byOpen), r.Step(), r.Range())
  {
    hide Collect, Ordered, Consistent, Indexes, OnRequest, OnGrid, Quality.Steady, Duration;
    CollectMeans(supplied, r.Step());
    OrderedMeans(Collect(supplied, r.Step()).value.byOpen, supplied);
    OrderedIsStrict(supplied, r.Step());
    var bars := Ordered(Collect(supplied, r.Step()).value.byOpen);
    forall i | 0 <= i < |bars|
      ensures OnRequest(r, bars[i])
    {
      assert bars[i] in bars;
    }
    GridAssembled(bars, r);
  }

  lemma GridAssembled(bars: seq<Bar>, r: Request)
    requires Quality.Steady(bars, r.Step()) && forall i :: 0 <= i < |bars| ==> OnRequest(r, bars[i])
    ensures OnGrid(bars, r.Step(), r.Range())
  {
    hide Duration;
    forall i | 0 <= i < |bars|
      ensures r.start <= bars[i].openedAt < r.end && (bars[i].openedAt - r.start) % r.Step() == 0
    {
      assert OnRequest(r, bars[i]);
    }
  }

  lemma AssessedSupply(supplied: seq<Bar>, r: Request)
    requires GridSupply(supplied, r)
    ensures Assess(supplied, r.Step(), Some(r.Range())).Good?
    ensures OnGrid(Assess(supplied, r.Step(), Some(r.Range())).value.bars, r.Step(), r.Range())
  {
    hide Collect, Ordered, Duration, Consistent, Indexes, OnGrid, Gaps, ReportFor;
    CollectMeans(supplied, r.Step());
    OrderedOnGrid(supplied, r);
    GapsOnGrid(Ordered(Collect(supplied, r.Step()).value.byOpen), r.Step(), r.Range());
  }

  lemma AssessedOnGrid(results: seq<History>, r: Request)
    requires GridAligned(results, r)
    ensures Assess(BarsInRange(results, r), r.Step(), Some(r.Range())).Good?
    ensures var bars := Assess(BarsInRange(results, r), r.Step(), Some(r.Range())).value.bars;
      OnGrid(bars, r.Step(), r.Range()) && SameCandles(bars, BarsInRange(results, r)) && Quality.Steady(bars, r.Step())
  {
    hide Assess, Duration, Consistent, OnGrid, SameCandles;
    var supplied := BarsInRange(results, r);
    InRangeBars(results, r);
    assert GridSupply(supplied, r);
    AssessedSupply(supplied, r);
    AssessedAreSupplied(supplied, r.Step(), Some(r.Range()));
  }

  /** Bars on the grid that leave out no opening tile the range. */
  lemma FullGridTiles(bars: seq<Bar>, r: Request)
    requires r.start < r.end && (r.end - r.start) % r.Step() == 0
    requires OnGrid(bars, r.Step(), r.Range())
    requires forall o :: IsOpening(r, o) ==> OpensAt(bars, o)
    ensures Tiles(bars, r.Step(), r.Range())
  {
    hide OnGrid, IsOpening, Tiles, OpensAt, Duration;
    var d := r.Step();
    SlotTimes(r.end - r.start, d);
    var n := (r.end - r.start) / d;
    var opens, grid := OpensOf(bars), Grid(r.start, d, n);
    OpensAreSorted(bars, r);
    GridIsSorted(r.start, d, n);
    forall o
      ensures o in opens <==> o in grid
    {
      OpenIsInGrid(bars, r, n, o);
    }
    SortedUnique(opens, grid, Below);
    GridCloses(bars, r);
    FillTiles(bars, d, r.Range());
  }

  lemma OpensAreSorted(bars: seq<Bar>, r: Request)
    requires OnGrid(bars, r.Step(), r.Range())
    ensures Sorted(OpensOf(bars), Below)
  {
  }

  lemma GridCloses(bars: seq<Bar>, r: Request)
    requires OnGrid(bars, r.Step(), r.Range())
    ensures forall i :: 0 <= i < |bars| ==> bars[i].closedAt == bars[i].openedAt + r.Step()
  {
  }

  lemma GridIsSorted(start: int, step: nat, n: nat)
    requires step > 0
    ensures Sorted(Grid(start, step, n), Below)
  {
    forall i, j | 0 <= i < j < n
      ensures Grid(start, step, n)[i] < Grid(start, step, n)[j]
    {
      Earlier(i, j, step);
    }
  }

  lemma OpenIsInGrid(bars: seq<Bar>, r: Request, n: nat, o: int)
    requires OnGrid(bars, r.Step(), r.Range()) && n * r.Step() == r.end - r.start
    requires IsOpening(r, o) ==> OpensAt(bars, o)
    ensures o in OpensOf(bars) <==> o in Grid(r.start, r.Step(), n)
  {
    hide Duration, OnGrid, IsOpening, OpensAt, OpensOf;
    OpenIsOpening(bars, r, o);
    InGrid(r, n, o);
    OpensMean(bars, o);
  }

  lemma OpensMean(bars: seq<Bar>, o: int)
    ensures o in OpensOf(bars) <==> OpensAt(bars, o)
  {
    var opens := OpensOf(bars);
    if OpensAt(bars, o) {
      var b :| b in bars && b.openedAt == o;
      var i :| 0 <= i < |bars| && bars[i] == b;
      assert opens[i] == o;
    }
    if o in opens {
      var i :| 0 <= i < |opens| && opens[i] == o;
      assert bars[i] in bars;
    }
  }

  lemma OpenIsOpening(bars: seq<Bar>, r: Request, o: int)
    requires OnGrid(bars, r.Step(), r.Range())
    ensures OpensAt(bars, o) ==> IsOpening(r, o)
  {
    hide Duration;
  }

  lemma InGrid(r: Request, n: nat, o: int)
    requires n * r.Step() == r.end - r.start
    ensures IsOpening(r, o) <==> o in Grid(r.start, r.Step(), n)
  {
    hide Duration;
    var d, grid := r.Step(), Grid(r.start, r.Step(), n);
    if IsOpening(r, o) {
      SlotTimes(o - r.start, d);
      var k := (o - r.start) / d;
      assert k >= n ==> (k - n) * d >= 0;
      assert grid[k] == o;
    }
    if o in grid {
      var k :| 0 <= k < n && grid[k] == o;
      DivideExact(k, d);
      Earlier(k, n, d);
    }
  }

  lemma LoadedMeansComplete(results: seq<History>, r: Request, versions: Versions)
    requires r.start < r.end && Assess(BarsInRange(results, r), r.Step(), Some(r.Range())).Good?
    ensures LoadRangeFrom(results, r, versions).Found?
       <==> Assess(BarsInRange(results, r), r.Step(), Some(r.Range())).value.report.complete
    ensures LoadRangeFrom(results, r, versions).Found? || LoadRangeFrom(results, r, versions).NotCovered?
  {
    hide Gaps, Collect, Ordered, Duration;
    if results == [] {
      assert Collect(BarsInRange(results, r), r.Step()) == Good(Collected(map[], 0)) by { EmptyCollect(r.Step()); }
      assert Ordered(map[]) == [] by { EmptyOrder(); }
      SlotTimesUnlessSmall(r.end - r.start, r.Step());
    }
  }

  lemma EmptyCollect(step: nat)
    ensures Collect([], step) == Good(Collected(map[], 0))
  {
  }

  lemma EmptyOrder()
    ensures Ordered(map[]) == []
  {
  }

  lemma SlotTimesUnlessSmall(x: int, d: nat)
    requires d > 0 && x > 0
    ensures x % d == 0 ==> x / d > 0
  {
    if x % d == 0 {
      SlotTimes(x, d);
    }
  }

  /** For an aligned request over consistent, grid-aligned artifacts: nothing is missing exactly when
      the range can be loaded. The fallback to the whole request is therefore never taken. */
  lemma NothingMissingIffLoadable(results: seq<History>, r: Request, versions: Versions)
    requires GridAligned(results, r)
    ensures var merged := Merged(AllBars(results));
      merged.Some? && (Missing(CachedOpens(merged.value, r), r) == [] <==> LoadRangeFrom(results, r, versions).Found?)
    ensures !LoadRangeFrom(results, r, versions).Conflict?
  {
    hide Gaps, Assess, LoadRangeFrom, MaximalRun, Missing, Tiles, Duration, OnGrid, IsOpening, ReportFor, Consistent, AllBars,
         BarsInRange;
    MergedMeans(AllBars(results));
    ConsistentIsOne(AllBars(results), r.Step());
    var opens := CachedOpens(Merged(AllBars(results)).value, r);
    AssessedOnGrid(results, r);
    InRangeBars(results, r);
    LoadedMeansComplete(results, r, versions);
    MissingIsTheComplement(opens, r);
    var bars := Assess(BarsInRange(results, r), r.Step(), Some(r.Range())).value.bars;
    if Missing(opens, r) == [] {
      forall o | IsOpening(r, o)
        ensures OpensAt(bars, o)
      {
        CachedIsOpen(results, r, bars, o);
      }
      FullGridTiles(bars, r);
      AssessedTiles(BarsInRange(results, r), r);
    }
    if LoadRangeFrom(results, r, versions).Found? {
      CompleteOnGrid(BarsInRange(results, r), r);
      forall o | IsOpening(r, o)
        ensures o in opens
      {
        OpeningTile(bars, r, o);
        CachedIsOpen(results, r, bars, o);
      }
    }
  }

  lemma ConsistentIsOne(bars: seq<Bar>, step: nat)
    requires Consistent(bars, step)
    ensures OnePerOpening(bars)
  {
  }

  lemma CachedIsOpen(results: seq<History>, r: Request, bars: seq<Bar>, o: int)
    requires Merged(AllBars(results)).Some? && Indexes(Merged(AllBars(results)).value, AllBars(results))
    requires SameCandles(bars, BarsInRange(results, r))
    requires forall b :: b in BarsInRange(results, r) <==> b in AllBars(results) && InRange(r)(b)
    ensures o in CachedOpens(Merged(AllBars(results)).value, r) <==> OpensAt(bars, o)
  {
    hide AllBars, BarsInRange, Merged, InRange;
    var byOpen := Merged(AllBars(results)).value;
    if OpensAt(bars, o) {
      var b :| b in bars && b.openedAt == o;
      assert b in BarsInRange(results, r);
      assert byOpen[o] == b;
    }
    if o in CachedOpens(byOpen, r) {
      assert byOpen[o] in bars;
    }
  }

  /** An assessment whose bars tile the range is complete. */
  lemma AssessedTiles(supplied: seq<Bar>, r: Request)
    requires r.start < r.end && Assess(supplied, r.Step(), Some(r.Range())).Good?
    requires Tiles(Assess(supplied, r.Step(), Some(r.Range())).value.bars, r.Step(), r.Range())
    ensures Assess(supplied, r.Step(), Some(r.Range())).value.report.complete
  {
    hide Gaps, Tiles, Collect, ReportFor, Ordered, Duration;
    TilesAreComplete(supplied, Assess(supplied, r.Step(), Some(r.Range())).value.bars,
                     Collect(supplied, r.Step()).value.duplicates, r.Step(), r.Range());
  }

  /** A complete assessment of bars on the grid tiles the range. */
  lemma CompleteOnGrid(supplied: seq<Bar>, r: Request)
    requires r.start < r.end && Assess(supplied, r.Step(), Some(r.Range())).Good?
    requires Assess(supplied, r.Step(), Some(r.Range())).value.report.complete
    requires OnGrid(Assess(supplied, r.Step(), Some(r.Range())).value.bars, r.Step(), r.Range())
    ensures Tiles(Assess(supplied, r.Step(), Some(r.Range())).value.bars, r.Step(), r.Range())
  {
    hide Gaps, Tiles, Collect, Ordered, Duration, OnGrid, SomeOnGrid;
    var bars := Assess(supplied, r.Step(), Some(r.Range())).value.bars;
    OrderedIsStrict(supplied, r.Step());
    SlotTimesUnlessSmall(r.end - r.start, r.Step());
    assert bars != [];
    GridHasOne(bars, r);
    CompleteTiles(supplied, bars, Collect(supplied, r.Step()).value.duplicates, r.Step(), r.Range());
  }

  lemma GridHasOne(bars: seq<Bar>, r: Request)
    requires bars != [] && OnGrid(bars, r.Step(), r.Range())
    ensures SomeOnGrid(bars, r.Step(), r.Range())
  {
    assert bars[0] in bars && (bars[0].openedAt - r.start) % r.Step() == 0;
  }

  lemma OpeningTile(bars: seq<Bar>, r: Request, o: int)
    requires Tiles(bars, r.Step(), r.Range()) && IsOpening(r, o)
    ensures OpensAt(bars, o)
  {
    hide Tiles, OpensAt, Duration;
    SlotTimes(o - r.start, r.Step());
    TileAt(bars, r.Step(), r.Range(), (o - r.start) / r.Step());
  }

  // ---- the cache itself ----

  /** What every stored artifact satisfies: it was complete and verified when it was stored. */
  ghost predicate Storable(h: History)
  {
    MeetsRequest(h) && QualityVerified(h) && h.report.complete
  }

  class MarketDataCache {
    var files: map<int, History>
    /** The file name of a request; distinct requests have distinct names. */
    const pathFor: Request -> int

    ghost predicate Valid()
      reads this
    {
      && (forall a, b :: pathFor(a) == pathFor(b) ==> a == b)
      && (forall p :: p in files ==> Storable(files[p]) && pathFor(files[p].request) == p)
    }

    constructor (pathFor: Request -> int)
      requires forall a, b :: pathFor(a) == pathFor(b) ==> a == b
      ensures Valid() && files == map[]
    {
      this.files, this.pathFor := map[], pathFor;
    }

    function Exact(r: Request, versions: Versions): Option<History>
      reads this
    {
      if pathFor(r) in files && files[pathFor(r)].request == r && files[pathFor(r)].versions == versions
      then Some(files[pathFor(r)]) else None
    }

    /** An artifact once stored is never changed; a request is stored at most once. */
    method Store(h: History) returns (ok: bool)
      requires Valid() && MeetsRequest(h)
      modifies this
      ensures Valid()
      ensures ok <==> QualityVerified(h) && h.report.complete
                      && (pathFor(h.request) in old(files) ==> SameContent(old(files)[pathFor(h.request)], h))
      ensures files == if ok && pathFor(h.request) !in old(files) then old(files)[pathFor(h.request) := h] else old(files)
    {
      var verified := CheckQuality(h);
      if !verified || !h.report.complete {
        return false;
      }
      var path := pathFor(h.request);
      if path in files {
        return SameContent(files[path], h);
      }
      files := files[path := h];
      return true;
    }

    method LoadRange(r: Request, versions: Versions) returns (found: RangeResult)
      ensures found == LoadRangeFrom(ValidatedResults(files, r, versions), r, versions)
    {
      var results := ValidatedResults(files, r, versions);
      var assessed := NormalizeAndAssess(BarsInRange(results, r), r.Step(), Some(r.Range()));
      if assessed.Bad? {
        return Conflict;
      }
      if !assessed.value.report.complete || results == [] {
        return NotCovered;
      }
      return Found(History(r, LatestFetch(results), assessed.value.bars, assessed.value.report, versions));
    }

    /** The source's walk over the request's openings. */
    method MissingRanges(r: Request, versions: Versions) returns (missing: Option<seq<Request>>)
      ensures var merged := Merged(AllBars(ValidatedResults(files, r, versions)));
        missing == if merged.None? then None else Some(Missing(CachedOpens(merged.value, r), r))
    {
      var merged := MergeLoop(AllBars(ValidatedResults(files, r, versions)));
      if merged.None? {
        return None;
      }
      var cached := CachedOpens(merged.value, r);
      var ranges: seq<Request> := [];
      var cursor, open := r.start, None;
      while cursor < r.end
        invariant ranges + MissingFrom(cached, r, cursor, open) == Missing(cached, r)
        decreases r.end - cursor
      {
        if cursor !in cached && open.None? {
          open := Some(cursor);
        } else if cursor in cached && open.Some? {
          var range := r.(start := open.value, end := cursor);
          assert ranges + ([range] + MissingFrom(cached, r, cursor + r.Step(), None))
              == (ranges + [range]) + MissingFrom(cached, r, cursor + r.Step(), None);
          ranges := ranges + [range];
          open := None;
        }
        cursor := cursor + r.Step();
      }
      assert open.None? ==> MissingFrom(cached, r, cursor, open) == [];
      if open.Some? {
        ranges := ranges + [r.(start := open.value, end := r.end)];
      }
      assert ranges + [] == ranges;
      return Some(ranges);
    }

    /** The source's `inspect_availability`: refused when two artifacts disagree on a candle; otherwise
        contiguous ranges that hold exactly the moments the cached candles of the market hold, with a
        real gap between any two exactly when no two of those candles overlap. */
    method InspectAvailability(r: Request, versions: Versions) returns (bounds: Option<seq<Window>>)
      requires Valid()
      ensures var all := AllBars(ValidatedResults(files, r, versions));
        && (bounds.None? <==> !OnePerOpening(all))
        && (bounds.Some? ==>
              && (forall t :: Spans(bounds.value, t) <==> Holds(all, t))
              && (Separate(bounds.value) <==> NoneOverlap(all))
              && (forall w :: w in bounds.value ==> w.start < w.end))
    {
      hide Merged, Ordered, Spans, AllBars, ValidatedResults, Assess;
      var all := AllBars(ValidatedResults(files, r, versions));
      MergedMeans(all);
      var merged := MergeLoop(all);
      if merged.None? {
        return None;
      }
      AllHaveDuration(r, versions);
      MergedIsByOpening(all);
      var found := BoundsLoop(Ordered(merged.value));
      SameHolds(Ordered(merged.value), all);
      return Some(found);
    }

    lemma AllHaveDuration(r: Request, versions: Versions)
      requires Valid()
      ensures forall b :: b in AllBars(ValidatedResults(files, r, versions)) ==> b.openedAt < b.closedAt
    {
      hide ValidatedResults, QualityVerified, MeetsRequest;
      var results := ValidatedResults(files, r, versions);
      forall b | b in AllBars(results)
        ensures b.openedAt < b.closedAt
      {
        var h :| h in results && b in h.bars;
        ResultsMean(files, r, versions, h);
        var p :| p in files && files[p] == h;
        assert Storable(files[p]);
        StoredDuration(h);
      }
    }
  }

  lemma SameHolds(a: seq<Bar>, b: seq<Bar>)
    requires SameCandles(a, b)
    ensures forall t :: Holds(a, t) <==> Holds(b, t)
  {
    forall t
      ensures Holds(a, t) <==> Holds(b, t)
    {
      if Holds(a, t) {
        var x :| x in a && x.openedAt <= t < x.closedAt;
        assert x in b;
      }
      if Holds(b, t) {
        var x :| x in b && x.openedAt <= t < x.closedAt;
        assert x in a;
      }
    }
  }

  method CheckQuality(h: History) returns (verified: bool)
    ensures verified <==> QualityVerified(h)
  {
    var recomputed := NormalizeAndAssess(h.bars, h.request.Step(), Some(h.request.Range()));
    verified := recomputed.Good? && SameCoverage(h.report, recomputed.value.report);
  }

  /** The source's merge of every cached candle by its opening. */
  method MergeLoop(bars: seq<Bar>) returns (merged: Option<map<int, Bar>>)
    ensures merged == Merged(bars)
  {
    var byOpen: map<int, Bar> := map[];
    for i := 0 to |bars|
      invariant Merged(bars[..i]) == Some(byOpen)
    {
      assert bars[..i + 1][..i] == bars[..i];
      if bars[i].openedAt in byOpen && byOpen[bars[i].openedAt] != bars[i] {
        StaysInConflict(bars, i + 1);
        return None;
      }
      byOpen := byOpen[bars[i].openedAt := bars[i]];
    }
    assert bars[..|bars|] == bars;
    return Some(byOpen);
  }

  lemma {:induction false} StaysInConflict(bars: seq<Bar>, n: nat)
    requires n <= |bars| && Merged(bars[..n]).None?
    ensures Merged(bars).None?
    decreases |bars| - n
  {
    if n == |bars| {
      assert bars[..n] == bars;
    } else {
      assert bars[..n + 1][..n] == bars[..n];
      StaysInConflict(bars, n + 1);
    }
  }

  // ---- what the artifacts prove available ----

  predicate Holds(bars: seq<Bar>, t: int) { exists b :: b in bars && b.openedAt <= t < b.closedAt }

  predicate Spans(bounds: seq<Window>, t: int) { exists w :: w in bounds && w.start <= t < w.end }

  /** Candles by distinct openings, as the cache merges them. They may overlap. */
  ghost predicate ByOpening(bars: seq<Bar>)
  {
    && (forall b :: b in bars ==> b.openedAt < b.closedAt)
    && (forall i, j :: 0 <= i < j < |bars| ==> bars[i].openedAt < bars[j].openedAt)
  }

  ghost predicate Apart(bars: seq<Bar>)
  {
    forall i, j :: 0 <= i < j < |bars| ==> bars[i].closedAt <= bars[j].openedAt
  }

  ghost predicate Separate(bounds: seq<Window>)
  {
    forall i, j :: 0 <= i < j < |bounds| ==> bounds[i].end < bounds[j].start
  }

  /** The ranges hold exactly the moments the candles hold, and a real gap lies between any two of
      them exactly when no two candles overlap. */
  ghost predicate Bounding(bounds: seq<Window>, bars: seq<Bar>)
  {
    && (forall t :: Spans(bounds, t) <==> Holds(bars, t))
    && (Separate(bounds) <==> Apart(bars))
    && (forall w :: w in bounds ==> w.start < w.end)
  }

  /** The source's loop over the merged candles. */
  method BoundsLoop(bars: seq<Bar>) returns (bounds: seq<Window>)
    requires ByOpening(bars)
    ensures Bounding(bounds, bars)
  {
    hide Spans, Holds;
    bounds := [];
    if bars == [] {
      NothingBounds();
      return;
    }
    assert bars[0] in bars;
    var start, end := bars[0].openedAt, bars[0].closedAt;
    FirstRange(bars);
    for i := 1 to |bars|
      invariant start < end == bars[i - 1].closedAt && Bounding(bounds + [Window(start, end)], bars[..i])
    {
      NextRange(bars, i, bounds, start, end);
      if bars[i].openedAt == end {
        end := bars[i].closedAt;
      } else {
        bounds := bounds + [Window(start, end)];
        start, end := bars[i].openedAt, bars[i].closedAt;
      }
    }
    assert bars[..|bars|] == bars;
    bounds := bounds + [Window(start, end)];
  }

  lemma NothingBounds()
    ensures Bounding([], [])
  {
  }

  lemma FirstRange(bars: seq<Bar>)
    requires bars != []
    requires bars[0].openedAt < bars[0].closedAt
    ensures Bounding([] + [Window(bars[0].openedAt, bars[0].closedAt)], bars[..1])
  {
    assert bars[..1] == [bars[0]];
    forall t
      ensures Spans([] + [Window(bars[0].openedAt, bars[0].closedAt)], t) <==> Holds(bars[..1], t)
    {
      assert Window(bars[0].openedAt, bars[0].closedAt) in [] + [Window(bars[0].openedAt, bars[0].closedAt)];
      assert bars[0] in bars[..1];
    }
  }

  lemma SpansSnoc(bounds: seq<Window>, w: Window, t: int)
    ensures Spans(bounds + [w], t) <==> Spans(bounds, t) || w.start <= t < w.end
  {
    assert forall x :: x in bounds + [w] <==> x in bounds || x == w;
  }

  lemma HoldsSnoc(bars: seq<Bar>, i: nat, t: int)
    requires i < |bars|
    ensures Holds(bars[..i + 1], t) <==> Holds(bars[..i], t) || bars[i].openedAt <= t < bars[i].closedAt
  {
    assert bars[..i + 1] == bars[..i] + [bars[i]];
    assert forall b :: b in bars[..i + 1] <==> b in bars[..i] || b == bars[i];
  }

  lemma NextRange(bars: seq<Bar>, i: nat, bounds: seq<Window>, start: int, end: int)
    requires ByOpening(bars) && 0 < i < |bars| && start < end == bars[i - 1].closedAt
    requires Bounding(bounds + [Window(start, end)], bars[..i])
    ensures bars[i].openedAt < bars[i].closedAt
    ensures bars[i].openedAt == end ==>
      start < bars[i].closedAt && Bounding(bounds + [Window(start, bars[i].closedAt)], bars[..i + 1])
    ensures bars[i].openedAt != end ==>
      Bounding(bounds + [Window(start, end)] + [Window(bars[i].openedAt, bars[i].closedAt)], bars[..i + 1])
  {
    hide Spans, Holds, Separate, Apart;
    assert bars[i] in bars;
    SeparateParts(bounds, start, end, bars[i].openedAt, bars[i].closedAt);
    ApartSnoc(bars, i);
    WindowsGrow(bounds, Window(start, end), Window(start, bars[i].closedAt), Window(bars[i].openedAt, bars[i].closedAt));
    forall t
      ensures bars[i].openedAt == end ==> (Spans(bounds + [Window(start, bars[i].closedAt)], t) <==> Holds(bars[..i + 1], t))
      ensures Spans(bounds + [Window(start, end)] + [Window(bars[i].openedAt, bars[i].closedAt)], t) <==> Holds(bars[..i + 1], t)
    {
      HoldsSnoc(bars, i, t);
      SpansSnoc(bounds, Window(start, end), t);
      SpansSnoc(bounds, Window(start, bars[i].closedAt), t);
      SpansSnoc(bounds + [Window(start, end)], Window(bars[i].openedAt, bars[i].closedAt), t);
    }
  }

  lemma WindowsGrow(bounds: seq<Window>, last: Window, longer: Window, next: Window)
    requires next.start < next.end && forall w :: w in bounds + [last] ==> w.start < w.end
    ensures longer.start < longer.end ==> forall w :: w in bounds + [longer] ==> w.start < w.end
    ensures forall w :: w in bounds + [last] + [next] ==> w.start < w.end
  {
    assert forall w :: w in bounds ==> w in bounds + [last];
  }

  lemma ApartSnoc(bars: seq<Bar>, i: nat)
    requires ByOpening(bars) && 0 < i < |bars|
    ensures Apart(bars[..i + 1]) <==> Apart(bars[..i]) && bars[i - 1].closedAt <= bars[i].openedAt
  {
    var before, all := bars[..i], bars[..i + 1];
    if Apart(before) && bars[i - 1].closedAt <= bars[i].openedAt {
      forall j | 0 <= j < i
        ensures all[j].closedAt <= all[i].openedAt
      {
        assert bars[i - 1] in bars;
        assert j < i - 1 ==> before[j].closedAt <= before[i - 1].openedAt;
      }
      forall j, k | 0 <= j < k < i
        ensures all[j].closedAt <= all[k].openedAt
      {
        assert before[j].closedAt <= before[k].openedAt;
      }
    }
    if Apart(all) {
      assert all[i - 1].closedAt <= all[i].openedAt;
      forall j, k | 0 <= j < k < i
        ensures before[j].closedAt <= before[k].openedAt
      {
        assert all[j].closedAt <= all[k].openedAt;
      }
    }
  }

  lemma SeparateParts(bounds: seq<Window>, start: int, end: int, from: int, to: int)
    requires start < end && from < to
    ensures Separate(bounds + [Window(start, to)]) <==> Separate(bounds + [Window(start, end)])
    ensures Separate(bounds + [Window(start, end)] + [Window(from, to)]) <==> Separate(bounds + [Window(start, end)]) && end < from
  {
    SeparateSnoc(bounds, Window(start, to));
    SeparateSnoc(bounds, Window(start, end));
    SeparateSnoc(bounds + [Window(start, end)], Window(from, to));
    var before := bounds + [Window(start, end)];
    assert before[|bounds|] == Window(start, end);
    forall k | 0 <= k < |bounds|
      ensures before[k] == bounds[k]
    {
    }
  }

  lemma SeparateSnoc(bounds: seq<Window>, w: Window)
    ensures Separate(bounds + [w]) <==> Separate(bounds) && forall k :: 0 <= k < |bounds| ==> bounds[k].end < w.start
  {
    var all := bounds + [w];
    if Separate(all) {
      forall i, j | 0 <= i < j < |bounds|
        ensures bounds[i].end < bounds[j].start
      {
        assert all[i].end < all[j].start;
      }
      forall k | 0 <= k < |bounds|
        ensures bounds[k].end < w.start
      {
        assert all[k].end < all[|bounds|].start;
      }
    }
  }

  // ---- what the cache holds ----

  ghost predicate NoneOverlap(bars: seq<Bar>)
  {
    forall x, y :: x in bars && y in bars && x.openedAt < y.openedAt ==> x.closedAt <= y.openedAt
  }

  /** A verified artifact's candles have the duration of its timeframe. */
  lemma StoredDuration(h: History)
    requires QualityVerified(h)
    ensures forall b :: b in h.bars ==> b.openedAt < b.closedAt
  {
    hide Collect, Ordered, Gaps, Duration;
    CollectMeans(h.bars, h.request.Step());
  }

  lemma MergedIsByOpening(bars: seq<Bar>)
    requires Merged(bars).Some? && forall b :: b in bars ==> b.openedAt < b.closedAt
    ensures var ordered := Ordered(Merged(bars).value);
      && ByOpening(ordered) && SameCandles(ordered, bars) && (Apart(ordered) <==> NoneOverlap(bars))
  {
    hide Merged, Ordered, Indexes, OnePerOpening, Apart, NoneOverlap;
    MergedMeans(bars);
    OrderedMeans(Merged(bars).value, bars);
    ApartMeans(Ordered(Merged(bars).value), bars);
  }

  lemma ApartMeans(ordered: seq<Bar>, bars: seq<Bar>)
    requires forall i, j :: 0 <= i < j < |ordered| ==> ordered[i].openedAt < ordered[j].openedAt
    requires SameCandles(ordered, bars)
    ensures Apart(ordered) <==> NoneOverlap(bars)
  {
    if Apart(ordered) {
      forall x, y | x in bars && y in bars && x.openedAt < y.openedAt
        ensures x.closedAt <= y.openedAt
      {
        LaterIsAfter(ordered, x, y);
      }
    }
    if NoneOverlap(bars) {
      forall i, j | 0 <= i < j < |ordered|
        ensures ordered[i].closedAt <= ordered[j].openedAt
      {
        assert ordered[i] in bars && ordered[j] in bars;
      }
    }
  }

  lemma LaterIsAfter(ordered: seq<Bar>, x: Bar, y: Bar)
    requires forall i, j :: 0 <= i < j < |ordered| ==> ordered[i].openedAt < ordered[j].openedAt
    requires Apart(ordered) && x in ordered && y in ordered && x.openedAt < y.openedAt
    ensures x.closedAt <= y.openedAt
  {
    var i :| 0 <= i < |ordered| && ordered[i] == x;
    var j :| 0 <= j < |ordered| && ordered[j] == y;
  }
}
