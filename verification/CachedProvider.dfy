/** The caching provider, and its agreement with the provider it speeds up. */
module CachedProvider {
  import opened Sequences
  import opened Trading
  import opened Quality
  import opened Cache

  /** What a provider holds: fixed candles of one market, under one version. */
  datatype Source = Source(instrument: int, timeframe: Timeframe, bars: seq<Bar>, versions: Versions)

  /** A provider's own answer. */
  function Direct(s: Source, r: Request, fetchedAt: int): Option<History>
  {
    if r.instrument != s.instrument || r.timeframe != s.timeframe then None
    else
      var assessed := Assess(Filter(s.bars, InRange(r)), r.Step(), Some(r.Range()));
      if assessed.Bad? then None
      else Some(History(r, fetchedAt, assessed.value.bars, assessed.value.report, s.versions))
  }

  /** Candles of the timeframe's duration that never overlap. */
  ghost predicate FixedCandles(s: Source)
  {
    && (forall x :: x in s.bars ==> x.closedAt - x.openedAt == Duration(s.timeframe))
    && (forall x, y :: x in s.bars && y in s.bars ==> x == y || x.closedAt <= y.openedAt || y.closedAt <= x.openedAt)
  }

  class HistoricalProvider {
    const source: Source
    /** The clock, by the number of the call. */
    const clock: nat -> int
    var calls: nat

    constructor (source: Source, clock: nat -> int)
      ensures this.source == source && this.clock == clock && calls == 0
    {
      this.source, this.clock, this.calls := source, clock, 0;
    }

    method FetchHistorical(r: Request) returns (h: Option<History>)
      modifies this
      ensures calls == old(calls) + 1
      ensures h == Direct(source, r, clock(old(calls)))
    {
      hide Assess, Duration, InRange;
      calls := calls + 1;
      if r.instrument != source.instrument || r.timeframe != source.timeframe {
        return None;
      }
      var assessed := NormalizeAndAssess(Filter(source.bars, InRange(r)), r.Step(), Some(r.Range()));
      if assessed.Bad? {
        return None;
      }
      return Some(History(r, clock(calls - 1), assessed.value.bars, assessed.value.report, source.versions));
    }
  }

  // ---- everything cached under the provider's version comes from the provider ----

  /** Artifacts of other versions may lie beside them, and say what they like. */
  ghost predicate FromSource(files: map<int, History>, s: Source)
  {
    forall p :: p in files && files[p].request.instrument == s.instrument && files[p].request.timeframe == s.timeframe
                && files[p].versions == s.versions ==>
      forall b :: b in files[p].bars ==> b in s.bars
  }

  ghost predicate OnePerRequest(files: map<int, History>)
  {
    forall p, q :: p in files && q in files && files[p].request == files[q].request ==> p == q
  }

  /** The request's artifact was stored under another version. It is never overwritten. */
  ghost predicate Taken(files: map<int, History>, s: Source, r: Request)
  {
    exists p :: p in files && files[p].request == r && files[p].versions != s.versions
  }

  ghost predicate About(r: Request, s: Source)
  {
    r.instrument == s.instrument && r.timeframe == s.timeframe && r.start < r.end
  }

  // ---- complete coverage leaves no room for another candle ----

  lemma Slot0(first: int, o: int, d: nat)
    requires d > 0 && first <= o
    ensures var i := (o - first) / d; i >= 0 && first + i * d <= o < first + i * d + d
  {
    var x := o - first;
    assert x == x / d * d + x % d;
  }

  /** Any candle of the source in the range is one of a complete run's bars. */
  lemma NoRoom(s: Source, r: Request, bars: seq<Bar>, candle: Bar)
    requires FixedCandles(s) && About(r, s) && candle in s.bars && r.start <= candle.openedAt < r.end
    requires bars != [] && |bars| * r.Step() == r.end - r.start && bars[0].openedAt - r.start < r.Step()
    requires forall i :: 0 <= i < |bars| ==> bars[i] in s.bars && bars[i].openedAt == bars[0].openedAt + i * r.Step()
    requires r.start <= bars[0].openedAt
    ensures candle in bars
  {
    hide Duration;
    var d, first, o := r.Step(), bars[0].openedAt, candle.openedAt;
    assert bars[0] in s.bars && bars[0].closedAt == first + d && candle.closedAt == o + d;
    assert first <= o;
    Slot0(first, o, d);
    var i := (o - first) / d;
    assert i >= |bars| ==> (i - |bars|) * d >= 0;
    assert bars[i].openedAt == first + i * d && bars[i].closedAt == bars[i].openedAt + d;
    assert bars[i] == candle;
  }

  /** Supplied candles of the source whose assessment is complete are all the source has there. */
  lemma CompleteIsEverything(s: Source, r: Request, supplied: seq<Bar>)
    requires FixedCandles(s) && About(r, s)
    requires forall b :: b in supplied ==> b in s.bars && InRange(r)(b)
    requires Assess(supplied, r.Step(), Some(r.Range())).Good?
    requires Assess(supplied, r.Step(), Some(r.Range())).value.report.complete
    ensures SameCandles(supplied, Filter(s.bars, InRange(r)))
  {
    hide Assess, FixedCandles, Duration, Consistent, Quality.Steady;
    var bars := Assess(supplied, r.Step(), Some(r.Range())).value.bars;
    AssessedAreSupplied(supplied, r.Step(), Some(r.Range()));
    CompleteRun(supplied, r);
    assert bars[0] in bars;
    forall b | b in Filter(s.bars, InRange(r))
      ensures b in supplied
    {
      NoRoom(s, r, bars, b);
    }
  }

  /** A complete assessment is a run of exactly the expected length. */
  lemma CompleteRun(supplied: seq<Bar>, r: Request)
    requires r.start < r.end && Assess(supplied, r.Step(), Some(r.Range())).Good?
    requires Assess(supplied, r.Step(), Some(r.Range())).value.report.complete
    ensures var bars := Assess(supplied, r.Step(), Some(r.Range())).value.bars;
      && bars != [] && |bars| * r.Step() == r.end - r.start && bars[0].openedAt - r.start < r.Step()
      && (forall i :: 0 <= i < |bars| ==> bars[i].openedAt == bars[0].openedAt + i * r.Step())
  {
    hide Gaps, Collect, Ordered, Duration;
    var bars := Assess(supplied, r.Step(), Some(r.Range())).value.bars;
    SlotTimesUnlessSmall(r.end - r.start, r.Step());
    CompleteMeans(supplied, bars, Collect(supplied, r.Step()).value.duplicates, r.Step(), r.Range());
    GaplessRun(bars, r.Step());
    BelowOne(bars[0].openedAt - r.start, r.Step());
  }

  // ---- agreement with the provider ----

  /** A complete assessment of the source's candles is the source's own answer. */
  lemma CompleteAgrees(s: Source, r: Request, supplied: seq<Bar>, at: int)
    requires FixedCandles(s) && About(r, s)
    requires forall b :: b in supplied ==> b in s.bars && InRange(r)(b)
    requires Assess(supplied, r.Step(), Some(r.Range())).Good?
    requires Assess(supplied, r.Step(), Some(r.Range())).value.report.complete
    ensures Direct(s, r, at).Some?
    ensures Direct(s, r, at).value.bars == Assess(supplied, r.Step(), Some(r.Range())).value.bars
    ensures Direct(s, r, at).value.report.complete
  {
    hide Assess, FixedCandles, Duration, SameCandles;
    CompleteIsEverything(s, r, supplied);
    OrderOfCandlesIsIrrelevant(supplied, Filter(s.bars, InRange(r)), r.Step(), Some(r.Range()));
  }

  function LoadedFrom(files: map<int, History>, s: Source, r: Request): RangeResult
  {
    LoadRangeFrom(ValidatedResults(files, r, s.versions), r, s.versions)
  }

  function SuppliedFrom(files: map<int, History>, s: Source, r: Request): seq<Bar>
  {
    BarsInRange(ValidatedResults(files, r, s.versions), r)
  }

  lemma SuppliedIsFromSource(files: map<int, History>, s: Source, r: Request, b: Bar)
    requires FromSource(files, s) && About(r, s) && b in SuppliedFrom(files, s, r)
    ensures b in s.bars && InRange(r)(b)
  {
    hide ValidatedResults, InRange;
    var h :| h in ValidatedResults(files, r, s.versions) && b in h.bars;
    ResultsMean(files, r, s.versions, h);
    var p :| p in files && files[p] == h;
    assert files[p].request.instrument == s.instrument;
  }

  lemma LoadedParts(files: map<int, History>, s: Source, r: Request)
    requires r.start < r.end && LoadedFrom(files, s, r).Found?
    ensures var assessed := Assess(SuppliedFrom(files, s, r), r.Step(), Some(r.Range()));
      && assessed.Good? && assessed.value.report.complete
      && LoadedFrom(files, s, r).history.bars == assessed.value.bars
      && LoadedFrom(files, s, r).history.report == assessed.value.report
      && LoadedFrom(files, s, r).history.request == r && LoadedFrom(files, s, r).history.versions == s.versions
  {
    hide Assess, BarsInRange, ValidatedResults, LatestFetch;
  }

  /** What the cache composes is what the provider would have answered. */
  lemma LoadedAgrees(files: map<int, History>, s: Source, r: Request, at: int)
    requires FromSource(files, s) && FixedCandles(s) && About(r, s) && LoadedFrom(files, s, r).Found?
    ensures Direct(s, r, at).Some? && LoadedFrom(files, s, r).history.bars == Direct(s, r, at).value.bars
    ensures Direct(s, r, at).value.report.complete
  {
    hide Assess, FixedCandles, FromSource, Duration, SuppliedFrom, LoadedFrom, InRange, Direct;
    LoadedParts(files, s, r);
    forall b | b in SuppliedFrom(files, s, r)
      ensures b in s.bars && InRange(r)(b)
    {
      SuppliedIsFromSource(files, s, r, b);
    }
    CompleteAgrees(s, r, SuppliedFrom(files, s, r), at);
  }

  /** A verified artifact's bars are already in normal form. */
  lemma StoredIsNormal(h: History)
    requires Storable(h)
    ensures Reassessed(h).Good? && Reassessed(h).value.bars == h.bars && Reassessed(h).value.report.complete
  {
    hide Assess, Duration, InRange;
    AssessedAreSupplied(h.bars, h.request.Step(), Some(h.request.Range()));
    var bars := Reassessed(h).value.bars;
    forall i, j | 0 <= i < j < |h.bars|
      ensures OpensBefore(h.bars[i], h.bars[j])
    {
      assert h.bars[i] in h.bars && h.bars[j] in h.bars;
    }
    StrictIsSorted(bars, h.request.Step());
    SortedUnique(bars, h.bars, OpensBefore);
  }

  lemma StrictIsSorted(bars: seq<Bar>, step: nat)
    requires Quality.Steady(bars, step)
    ensures Sorted(bars, OpensBefore)
  {
  }

  /** A stored artifact is the provider's answer to its own request. */
  lemma StoredAgrees(s: Source, h: History, at: int)
    requires Storable(h) && FixedCandles(s) && About(h.request, s) && forall b :: b in h.bars ==> b in s.bars
    ensures Direct(s, h.request, at).Some? && Direct(s, h.request, at).value.bars == h.bars
    ensures Direct(s, h.request, at).value.report.complete
  {
    hide Assess, FixedCandles, Duration, Direct;
    StoredIsNormal(h);
    CompleteAgrees(s, h.request, h.bars, at);
  }

  // ---- warm requests ----

  ghost predicate Grew(before: map<int, History>, after: map<int, History>)
  {
    forall p :: p in before ==> p in after && after[p] == before[p]
  }

  lemma SuppliedGrows(before: map<int, History>, after: map<int, History>, s: Source, r: Request, b: Bar)
    requires Grew(before, after) && b in SuppliedFrom(before, s, r)
    ensures b in SuppliedFrom(after, s, r)
  {
    hide ValidatedResults, InRange;
    var h :| h in ValidatedResults(before, r, s.versions) && b in h.bars;
    ResultsMean(before, r, s.versions, h);
    var p :| p in before && before[p] == h;
    assert after[p] == h;
    ResultsMean(after, r, s.versions, h);
  }

  /** A range that can be loaded stays loadable, whatever else of the provider's is cached. */
  lemma StaysLoadable(before: map<int, History>, after: map<int, History>, s: Source, r: Request)
    requires Grew(before, after) && FromSource(before, s) && FromSource(after, s) && FixedCandles(s) && About(r, s)
    requires LoadedFrom(before, s, r).Found?
    ensures LoadedFrom(after, s, r).Found?
  {
    hide Assess, FixedCandles, FromSource, Duration, SuppliedFrom, InRange, Direct, Grew, LoadRangeFrom, ValidatedResults;
    LoadedParts(before, s, r);
    forall b | b in SuppliedFrom(before, s, r)
      ensures b in s.bars && InRange(r)(b)
    {
      SuppliedIsFromSource(before, s, r, b);
    }
    CompleteIsEverything(s, r, SuppliedFrom(before, s, r));
    forall b
      ensures b in SuppliedFrom(after, s, r) <==> b in SuppliedFrom(before, s, r)
    {
      if b in SuppliedFrom(after, s, r) {
        SuppliedIsFromSource(after, s, r, b);
      }
      if b in SuppliedFrom(before, s, r) {
        SuppliedGrows(before, after, s, r, b);
      }
    }
    OrderOfCandlesIsIrrelevant(SuppliedFrom(before, s, r), SuppliedFrom(after, s, r), r.Step(), Some(r.Range()));
    SuppliedLoads(after, s, r);
  }

  lemma SuppliedLoads(files: map<int, History>, s: Source, r: Request)
    requires r.start < r.end
    requires Assess(SuppliedFrom(files, s, r), r.Step(), Some(r.Range())).Good?
    requires Assess(SuppliedFrom(files, s, r), r.Step(), Some(r.Range())).value.report.complete
    ensures LoadedFrom(files, s, r).Found?
  {
    LoadedMeansComplete(ValidatedResults(files, r, s.versions), r, s.versions);
  }

  /** What was composed is a well-formed, verified and complete result. */
  lemma ComposedIsStorable(files: map<int, History>, s: Source, r: Request)
    requires FromSource(files, s) && r.start < r.end && LoadedFrom(files, s, r).Found?
    ensures var h := LoadedFrom(files, s, r).history;
      && Storable(h) && h.request == r && h.versions == s.versions
      && (About(r, s) ==> forall b :: b in h.bars ==> b in s.bars)
  {
    hide Assess, FromSource, Duration, LoadedFrom, InRange;
    var h := LoadedFrom(files, s, r).history;
    LoadedParts(files, s, r);
    AssessedAreSupplied(SuppliedFrom(files, s, r), r.Step(), Some(r.Range()));
    forall b | b in h.bars
      ensures InRange(r)(b) && (About(r, s) ==> b in s.bars)
    {
      assert b in SuppliedFrom(files, s, r);
      if About(r, s) {
        SuppliedIsFromSource(files, s, r, b);
      }
    }
    NormalIsStable(SuppliedFrom(files, s, r), r);
  }

  /** Assessing normalized bars again gives the same coverage. */
  lemma NormalIsStable(supplied: seq<Bar>, r: Request)
    requires Assess(supplied, r.Step(), Some(r.Range())).Good?
    ensures var a := Assess(supplied, r.Step(), Some(r.Range())).value;
      var again := Assess(a.bars, r.Step(), Some(r.Range()));
      && again.Good? && again.value.bars == a.bars && SameCoverage(a.report, again.value.report)
  {
    hide Assess, Duration;
    var a := Assess(supplied, r.Step(), Some(r.Range())).value;
    AssessedAreSupplied(supplied, r.Step(), Some(r.Range()));
    OrderOfCandlesIsIrrelevant(supplied, a.bars, r.Step(), Some(r.Range()));
  }

  // ---- a complete answer can always be cached ----

  /** The provider's own answer is there and complete. */
  ghost predicate Answered(s: Source, r: Request)
  {
    About(r, s) && Direct(s, r, 0).Some? && Direct(s, r, 0).value.report.complete
  }

  /** The provider's candles that a request can see. */
  function Seen(s: Source, r: Request): seq<Bar> { Filter(s.bars, InRange(r)) }

  /** The openings of a complete answer: every interval from the first one on, and nothing else. */
  ghost predicate RunsFrom(s: Source, r: Request, first: int)
  {
    && r.start <= first < r.start + r.Step() && first < r.end && (r.end - r.start) % r.Step() == 0
    && (forall b :: b in Seen(s, r) ==> first <= b.openedAt && (b.openedAt - first) % r.Step() == 0)
    && (forall o :: first <= o < r.end && (o - first) % r.Step() == 0 ==> OpensAt(Seen(s, r), o))
  }

  lemma BarIsSlot(bars: seq<Bar>, first: int, d: nat, b: Bar)
    requires d > 0 && b in bars && forall i :: 0 <= i < |bars| ==> bars[i].openedAt == first + i * d
    ensures first <= b.openedAt && (b.openedAt - first) % d == 0
  {
    var i :| 0 <= i < |bars| && bars[i] == b;
    DivideExact(i, d);
    assert i * d >= 0;
  }

  lemma SlotIsBar(bars: seq<Bar>, first: int, d: nat, length: int, o: int)
    requires d > 0 && (forall i :: 0 <= i < |bars| ==> bars[i].openedAt == first + i * d)
    requires |bars| * d == length && first <= o < first + length && (o - first) % d == 0
    ensures OpensAt(bars, o)
  {
    SlotTimes(o - first, d);
    var i := (o - first) / d;
    assert i >= |bars| ==> (i - |bars|) * d >= 0;
    assert i < 0 ==> (-i) * d >= 0;
    assert bars[i] in bars;
  }

  lemma AnsweredRuns(s: Source, r: Request) returns (first: int)
    requires Answered(s, r)
    ensures RunsFrom(s, r, first)
  {
    hide Assess, Duration, InRange;
    var bars := Direct(s, r, 0).value.bars;
    CompleteRun(Seen(s, r), r);
    AssessedAreSupplied(Seen(s, r), r.Step(), Some(r.Range()));
    first := bars[0].openedAt;
    assert bars[0] in bars;
    FirstIsSeen(s, r, bars[0]);
    DivideExact(|bars|, r.Step());
    forall b | b in Seen(s, r)
      ensures first <= b.openedAt && (b.openedAt - first) % r.Step() == 0
    {
      BarIsSlot(bars, first, r.Step(), b);
    }
    forall o | first <= o < r.end && (o - first) % r.Step() == 0
      ensures OpensAt(Seen(s, r), o)
    {
      SlotIsBar(bars, first, r.Step(), r.end - r.start, o);
      var b :| b in bars && b.openedAt == o;
      assert b in Seen(s, r);
    }
  }

  lemma FirstIsSeen(s: Source, r: Request, b: Bar)
    requires b in Seen(s, r)
    ensures r.start <= b.openedAt < r.end
  {
  }

  lemma SourceIsConsistent(s: Source, bars: seq<Bar>)
    requires FixedCandles(s) && forall b :: b in bars ==> b in s.bars
    ensures Consistent(bars, Duration(s.timeframe)) && OnePerOpening(bars)
  {
    hide Duration;
  }

  lemma WindowIsIrrelevant(bars: seq<Bar>, d: nat, a: Window, b: Window)
    requires d > 0
    ensures Assess(bars, d, Some(a)).Good? <==> Assess(bars, d, Some(b)).Good?
  {
  }

  /** Any part of what a complete answer holds can be assessed. */
  lemma PartsAreGood(s: Source, r: Request, first: int, supplied: seq<Bar>)
    requires FixedCandles(s) && About(r, s) && RunsFrom(s, r, first) && forall b :: b in supplied ==> b in Seen(s, r)
    ensures Assess(supplied, r.Step(), Some(r.Range())).Good?
  {
    hide Assess, Duration, FixedCandles, InRange, Consistent;
    SourceIsConsistent(s, supplied);
    var shifted := r.(start := first);
    forall b | b in supplied
      ensures OnRequest(shifted, b)
    {
      FirstIsSeen(s, r, b);
    }
    AssessedSupply(supplied, shifted);
    WindowIsIrrelevant(supplied, r.Step(), r.Range(), shifted.Range());
  }

  lemma NeverInConflict(files: map<int, History>, s: Source, r: Request)
    requires FromSource(files, s) && FixedCandles(s) && Answered(s, r)
    ensures !LoadedFrom(files, s, r).Conflict?
    ensures Merged(AllBars(ValidatedResults(files, r, s.versions))).Some?
  {
    hide Assess, FixedCandles, FromSource, Duration, InRange, Direct, ValidatedResults;
    var first := AnsweredRuns(s, r);
    forall b | b in SuppliedFrom(files, s, r)
      ensures b in Seen(s, r)
    {
      SuppliedIsFromSource(files, s, r, b);
    }
    PartsAreGood(s, r, first, SuppliedFrom(files, s, r));
    CachedIsFromSource(files, s, r);
    SourceIsConsistent(s, AllBars(ValidatedResults(files, r, s.versions)));
    MergedMeans(AllBars(ValidatedResults(files, r, s.versions)));
  }

  lemma CachedIsFromSource(files: map<int, History>, s: Source, r: Request)
    requires FromSource(files, s) && About(r, s)
    ensures forall b :: b in AllBars(ValidatedResults(files, r, s.versions)) ==> b in s.bars
  {
    hide ValidatedResults;
    var results := ValidatedResults(files, r, s.versions);
    forall b | b in AllBars(results)
      ensures b in s.bars
    {
      var h :| h in results && b in h.bars;
      ResultsMean(files, r, s.versions, h);
      var p :| p in files && files[p] == h;
      assert files[p].request.instrument == s.instrument;
    }
  }

  ghost predicate AllFree(files: map<int, History>, s: Source, parts: seq<Request>)
  {
    forall w :: w in parts ==> !Taken(files, s, w)
  }

  /** What the source's loop fetches for a request. */
  function PartsFor(files: map<int, History>, s: Source, r: Request): seq<Request>
    requires CachedFrom(files, s, r).Some?
  {
    PartsOf(Missing(CachedOpens(CachedFrom(files, s, r).value, r), r), r)
  }

  /** Nothing taken stands between the request and its answer: not the request's own artifact, nor, when
      the cached artifacts do not compose it, that of a part to be fetched. */
  ghost predicate Free(files: map<int, History>, s: Source, r: Request)
  {
    && !Taken(files, s, r)
    && (LoadedFrom(files, s, r).Found? || (CachedFrom(files, s, r).Some? ==> AllFree(files, s, PartsFor(files, s, r))))
  }

  /** What the source's loop fetches: the missing runs, or the whole request. */
  function PartsOf(missing: seq<Request>, r: Request): seq<Request> { if missing == [] then [r] else missing }

  lemma SumOfSlots(x: int, y: int, d: nat)
    requires d > 0 && x % d == 0 && y % d == 0
    ensures (x + y) % d == 0 && (x - y) % d == 0
  {
    SlotTimes(x, d);
    SlotTimes(y, d);
    var p, q := x / d, y / d;
    DivideExact(p + q, d);
    DivideExact(p - q, d);
    assert (p + q) * d == x + y && (p - q) * d == x - y;
  }

  /** A stretch of whole intervals of a complete answer is answered completely. */
  lemma StretchIsAnswered(s: Source, r: Request, w: Request)
    requires FixedCandles(s) && About(r, s) && RunsFrom(s, r, r.start)
    requires w == r.(start := w.start, end := w.end) && r.start <= w.start < w.end <= r.end
    requires (w.start - r.start) % r.Step() == 0 && (w.end - r.start) % r.Step() == 0
    ensures Answered(s, w)
  {
    hide Assess, Duration, FixedCandles, InRange, Consistent, IsOpening, OpensAt, OnGrid, Tiles;
    var supplied := Seen(s, w);
    SumOfSlots(w.end - r.start, w.start - r.start, r.Step());
    forall b | b in supplied
      ensures b in s.bars && OnRequest(w, b)
    {
      SeenInside(s, r, w, b);
      SumOfSlots(b.openedAt - r.start, w.start - r.start, r.Step());
    }
    SourceIsConsistent(s, supplied);
    AssessedSupply(supplied, w);
    AssessedAreSupplied(supplied, w.Step(), Some(w.Range()));
    var bars := Assess(supplied, w.Step(), Some(w.Range())).value.bars;
    forall o | IsOpening(w, o)
      ensures OpensAt(bars, o)
    {
      OpeningInside(r, w, o);
      OpenInStretch(s, r, w, o, bars);
    }
    FullGridTiles(bars, w);
    AssessedTiles(supplied, w);
  }

  lemma SeenInside(s: Source, r: Request, w: Request, b: Bar)
    requires w == r.(start := w.start, end := w.end) && r.start <= w.start && w.end <= r.end
    requires b in Seen(s, w)
    ensures b in s.bars && b in Seen(s, r) && w.start <= b.openedAt < w.end
  {
  }

  lemma OpeningInside(r: Request, w: Request, o: int)
    requires w == r.(start := w.start, end := w.end) && r.start <= w.start && w.end <= r.end
    requires (w.start - r.start) % r.Step() == 0 && IsOpening(w, o)
    ensures IsOpening(r, o) && w.start <= o < w.end && r.start <= o < r.end && (o - r.start) % r.Step() == 0
  {
    hide Duration;
    SumOfSlots(o - w.start, w.start - r.start, r.Step());
  }

  lemma OpenInStretch(s: Source, r: Request, w: Request, o: int, bars: seq<Bar>)
    requires w == r.(start := w.start, end := w.end) && w.start <= o < w.end
    requires OpensAt(Seen(s, r), o) && SameCandles(bars, Seen(s, w))
    ensures OpensAt(bars, o)
  {
    var b :| b in Seen(s, r) && b.openedAt == o;
    assert b in Seen(s, w);
    assert b in bars;
  }

  /** Off the grid nothing the cache holds is at an opening of the request, so all of it is missing. */
  lemma OffGridIsWhole(cached: set<int>, r: Request, w: Request)
    requires r.start < r.end && MaximalRun(cached, r, w) && forall o :: IsOpening(r, o) ==> o !in cached
    ensures w == r
  {
    hide Duration;
    if w.start != r.start {
      SumOfSlots(w.start - r.start, r.Step(), r.Step());
      DivideExact(1, r.Step());
    }
  }

  lemma NotOnGrid(s: Source, r: Request, first: int, b: Bar)
    requires RunsFrom(s, r, first) && first != r.start && b in Seen(s, r)
    ensures (b.openedAt - r.start) % r.Step() != 0
  {
    hide Duration, InRange, OpensAt;
    Between(first - r.start, r.Step());
    if (b.openedAt - r.start) % r.Step() == 0 {
      SumOfSlots(b.openedAt - r.start, b.openedAt - first, r.Step());
    }
  }

  lemma Between(x: int, d: nat)
    requires 0 < x < d
    ensures x % d != 0
  {
  }

  function CachedFrom(files: map<int, History>, s: Source, r: Request): Option<map<int, Bar>>
  {
    Merged(AllBars(ValidatedResults(files, r, s.versions)))
  }

  lemma OffGridCachesNothing(files: map<int, History>, s: Source, r: Request, first: int, o: int)
    requires FromSource(files, s) && About(r, s) && RunsFrom(s, r, first) && first != r.start
    requires CachedFrom(files, s, r).Some? && IsOpening(r, o)
    ensures o !in CachedOpens(CachedFrom(files, s, r).value, r)
  {
    hide Duration, ValidatedResults, AllBars, FromSource, RunsFrom;
    var byOpen := CachedFrom(files, s, r).value;
    MergedMeans(AllBars(ValidatedResults(files, r, s.versions)));
    CachedIsFromSource(files, s, r);
    if o in CachedOpens(byOpen, r) {
      assert byOpen[o] in Seen(s, r);
      NotOnGrid(s, r, first, byOpen[o]);
    }
  }

  lemma RunIsAligned(cached: set<int>, r: Request, w: Request)
    requires MaximalRun(cached, r, w) && (r.end - r.start) % r.Step() == 0
    ensures w == r.(start := w.start, end := w.end) && r.start <= w.start < w.end <= r.end
    ensures (w.start - r.start) % r.Step() == 0 && (w.end - r.start) % r.Step() == 0
  {
  }

  /** Every part the loop fetches is answered completely. */
  lemma PartsAreAnswered(files: map<int, History>, s: Source, r: Request)
    requires FromSource(files, s) && FixedCandles(s) && Answered(s, r) && CachedFrom(files, s, r).Some?
    ensures forall w :: w in PartsFor(files, s, r) ==> Answered(s, w)
  {
    hide Assess, Duration, FixedCandles, FromSource, Missing, MaximalRun, RunsFrom, IsOpening, CachedFrom, CachedOpens, Direct;
    var first := AnsweredRuns(s, r);
    var cached := CachedOpens(CachedFrom(files, s, r).value, r);
    MissingIsTheComplement(cached, r);
    RunsWhole(s, r, first);
    forall w | w in Missing(cached, r)
      ensures Answered(s, w)
    {
      if first == r.start {
        RunIsAligned(cached, r, w);
        StretchIsAnswered(s, r, w);
      } else {
        forall o | IsOpening(r, o)
          ensures o !in cached
        {
          OffGridCachesNothing(files, s, r, first, o);
        }
        OffGridIsWhole(cached, r, w);
      }
    }
  }

  lemma RunsWhole(s: Source, r: Request, first: int)
    requires RunsFrom(s, r, first)
    ensures (r.end - r.start) % r.Step() == 0
  {
  }

  /** An artifact with the provider's own candles for a part. */
  ghost predicate Held(files: map<int, History>, s: Source, w: Request)
  {
    exists p :: p in files && files[p].request == w && files[p].versions == s.versions && SameCandles(files[p].bars, Seen(s, w))
  }

  lemma HeldIsSupplied(files: map<int, History>, s: Source, r: Request, w: Request, b: Bar)
    requires Held(files, s, w) && w == r.(start := w.start, end := w.end) && b in Seen(s, w) && InRange(r)(b)
    ensures b in SuppliedFrom(files, s, r)
  {
    hide ValidatedResults;
    var p :| p in files && files[p].request == w && files[p].versions == s.versions && SameCandles(files[p].bars, Seen(s, w));
    ResultsMean(files, r, s.versions, files[p]);
  }

  lemma CachedIsSupplied(files: map<int, History>, s: Source, r: Request, b: Bar)
    requires FromSource(files, s) && FixedCandles(s) && About(r, s) && CachedFrom(files, s, r).Some? && b in Seen(s, r)
    requires b.openedAt in CachedOpens(CachedFrom(files, s, r).value, r)
    ensures b in SuppliedFrom(files, s, r)
  {
    hide ValidatedResults, AllBars, FromSource, Duration;
    var results := ValidatedResults(files, r, s.versions);
    MergedMeans(AllBars(results));
    CachedIsFromSource(files, s, r);
    var x := CachedFrom(files, s, r).value[b.openedAt];
    SourceIsConsistent(s, [x, b]);
    assert x in [x, b] && b in [x, b];
    assert x == b;
    AllIsSupplied(results, r, b);
  }

  lemma AllIsSupplied(results: seq<History>, r: Request, b: Bar)
    requires b in AllBars(results) && InRange(r)(b)
    ensures b in BarsInRange(results, r)
  {
  }

  /** Each candle the request can see is cached already or lies in a part that is fetched. */
  lemma SomePartHolds(files: map<int, History>, s: Source, r: Request, b: Bar)
    requires FromSource(files, s) && FixedCandles(s) && Answered(s, r) && CachedFrom(files, s, r).Some? && b in Seen(s, r)
    ensures var cached := CachedOpens(CachedFrom(files, s, r).value, r);
      b.openedAt in cached
      || exists w :: w in PartsOf(Missing(cached, r), r) && w == r.(start := w.start, end := w.end) && b in Seen(s, w)
  {
    hide Assess, Duration, FixedCandles, FromSource, Missing, MaximalRun, IsOpening, CachedFrom, CachedOpens, Direct, RunsFrom, InRange;
    var first := AnsweredRuns(s, r);
    var cached := CachedOpens(CachedFrom(files, s, r).value, r);
    var ws := Missing(cached, r);
    MissingIsTheComplement(cached, r);
    if ws == [] {
      assert PartsOf(ws, r)[0] == r;
    } else if first == r.start {
      BarOpens(s, r, b);
      if b.openedAt !in cached {
        var i :| 0 <= i < |ws| && ws[i].start <= b.openedAt < ws[i].end;
        RunIsPart(cached, r, ws[i]);
        SeenInPart(s, r, ws[i], b);
      }
    } else {
      forall o | IsOpening(r, o)
        ensures o !in cached
      {
        OffGridCachesNothing(files, s, r, first, o);
      }
      OffGridIsWhole(cached, r, ws[0]);
    }
  }

  lemma RunIsPart(cached: set<int>, r: Request, w: Request)
    requires MaximalRun(cached, r, w)
    ensures w == r.(start := w.start, end := w.end)
  {
  }

  lemma SeenInPart(s: Source, r: Request, w: Request, b: Bar)
    requires b in Seen(s, r) && w == r.(start := w.start, end := w.end) && w.start <= b.openedAt < w.end
    ensures b in Seen(s, w)
  {
  }

  lemma BarOpens(s: Source, r: Request, b: Bar)
    requires RunsFrom(s, r, r.start) && b in Seen(s, r)
    ensures IsOpening(r, b.openedAt)
  {
    hide Duration, OpensAt;
  }

  /** With the parts cached, the whole request loads. */
  lemma FetchedLoads(before: map<int, History>, after: map<int, History>, s: Source, r: Request)
    requires Grew(before, after) && FromSource(before, s) && FromSource(after, s) && FixedCandles(s) && Answered(s, r)
    requires CachedFrom(before, s, r).Some?
    requires forall w :: w in PartsFor(before, s, r) ==> Held(after, s, w)
    ensures LoadedFrom(after, s, r).Found?
  {
    hide Assess, FixedCandles, FromSource, Duration, SuppliedFrom, Grew, LoadRangeFrom, ValidatedResults, Held, Missing, CachedFrom,
         CachedOpens;
    forall b | b in Seen(s, r)
      ensures b in SuppliedFrom(after, s, r)
    {
      SomePartHolds(before, s, r, b);
      var cached := CachedOpens(CachedFrom(before, s, r).value, r);
      if b.openedAt in cached {
        CachedIsSupplied(before, s, r, b);
        SuppliedGrows(before, after, s, r, b);
      } else {
        var w :| w in PartsOf(Missing(cached, r), r) && w == r.(start := w.start, end := w.end) && b in Seen(s, w);
        HeldIsSupplied(after, s, r, w, b);
      }
    }
    forall b | b in SuppliedFrom(after, s, r)
      ensures b in Seen(s, r)
    {
      SuppliedIsFromSource(after, s, r, b);
    }
    OrderOfCandlesIsIrrelevant(Seen(s, r), SuppliedFrom(after, s, r), r.Step(), Some(r.Range()));
    SuppliedLoads(after, s, r);
  }

  // ---- the caching provider itself ----

  lemma DirectMeetsRequest(s: Source, r: Request, at: int)
    requires r.start < r.end && Direct(s, r, at).Some?
    ensures MeetsRequest(Direct(s, r, at).value)
    ensures Direct(s, r, at).value.request == r && About(r, s)
    ensures Direct(s, r, at).value.versions == s.versions && forall b :: b in Direct(s, r, at).value.bars ==> b in s.bars
  {
    hide Assess, Duration, InRange;
    AssessedAreSupplied(Filter(s.bars, InRange(r)), r.Step(), Some(r.Range()));
  }

  lemma PartsAreRequests(cached: set<int>, r: Request)
    requires r.start < r.end
    ensures forall w :: w in Missing(cached, r) ==>
      w.start < w.end && w.instrument == r.instrument && w.timeframe == r.timeframe
  {
    hide Missing, IsOpening;
    MissingIsTheComplement(cached, r);
  }

  lemma FromSourceKept(files: map<int, History>, s: Source, p: int, h: History)
    requires FromSource(files, s) && h.versions == s.versions
    requires h.request.instrument == s.instrument && h.request.timeframe == s.timeframe ==> forall b :: b in h.bars ==> b in s.bars
    ensures FromSource(files[p := h], s)
  {
  }

  // ---- taken requests ----

  /** The cache's paths tell requests apart, so a taken request is one whose own artifact has another version. */
  lemma TakenIsStored(cache: MarketDataCache, s: Source, r: Request)
    requires cache.Valid()
    ensures OnePerRequest(cache.files)
    ensures Taken(cache.files, s, r) <==>
      cache.pathFor(r) in cache.files && cache.files[cache.pathFor(r)].versions != s.versions
    ensures cache.pathFor(r) in cache.files ==> cache.files[cache.pathFor(r)].request == r
  {
    hide Storable;
    var p := cache.pathFor(r);
    assert p in cache.files ==> cache.pathFor(cache.files[p].request) == p;
    forall q | q in cache.files
      ensures cache.files[q].request == r ==> q == p
    {
      assert cache.pathFor(cache.files[q].request) == q;
    }
  }

  /** No artifact leaves, so what is taken stays taken. */
  lemma TakenForGood(before: map<int, History>, s: Source, r: Request)
    ensures Taken(before, s, r) ==> forall after: map<int, History> :: Grew(before, after) ==> Taken(after, s, r)
  {
    if Taken(before, s, r) {
      var p :| p in before && before[p].request == r && before[p].versions != s.versions;
      forall after: map<int, History> | Grew(before, after)
        ensures Taken(after, s, r)
      {
        assert p in after && after[p] == before[p];
      }
    }
  }

  /** Storing under the provider's version takes nothing. */
  lemma TakenBefore(before: map<int, History>, after: map<int, History>, s: Source, r: Request, w: Request, p: int, h: History)
    requires after == before || (p !in before && after == before[p := h] && h.versions == s.versions)
    ensures Taken(after, s, w) ==> Taken(before, s, w)
  {
    if Taken(after, s, w) {
      var q :| q in after && after[q].request == w && after[q].versions != s.versions;
      assert q in before && before[q] == after[q];
    }
  }

  /** What is held under the provider's version is not taken, and was not. */
  lemma HeldWereFree(before: map<int, History>, cache: MarketDataCache, s: Source, parts: seq<Request>)
    requires cache.Valid() && Grew(before, cache.files) && forall w :: w in parts ==> Held(cache.files, s, w)
    ensures AllFree(before, s, parts)
  {
    hide Storable, Taken;
    forall w | w in parts
      ensures !Taken(before, s, w)
    {
      TakenForGood(before, s, w);
      TakenIsStored(cache, s, w);
      var p :| p in cache.files && cache.files[p].request == w && cache.files[p].versions == s.versions;
    }
  }

  lemma FreeWhenFetched(files: map<int, History>, s: Source, r: Request)
    ensures !LoadedFrom(files, s, r).Found? && CachedFrom(files, s, r).Some? ==>
      (Free(files, s, r) <==> !Taken(files, s, r) && AllFree(files, s, PartsFor(files, s, r)))
  {
    hide LoadedFrom, Taken, AllFree, PartsOf, CachedFrom;
  }

  lemma FreeWhenLoaded(files: map<int, History>, s: Source, r: Request)
    ensures LoadedFrom(files, s, r).Found? ==> (Free(files, s, r) <==> !Taken(files, s, r))
  {
    hide LoadedFrom, Taken, AllFree, CachedFrom;
  }

  /** The exact artifact alone composes its request. */
  lemma ExactLoads(files: map<int, History>, s: Source, r: Request, p: int)
    requires FromSource(files, s) && p in files && Storable(files[p]) && files[p].request == r && files[p].versions == s.versions
    ensures FixedCandles(s) && About(r, s) ==> LoadedFrom(files, s, r).Found?
  {
    hide Assess, FixedCandles, FromSource, Duration, SuppliedFrom, LoadRangeFrom, ValidatedResults, Storable, LoadedFrom, InRange;
    if FixedCandles(s) && About(r, s) {
      ExactAgrees(files, s, r, p);
      AnsweredParts(s, r);
      assert SameCandles(files[p].bars, Seen(s, r)) by { AssessedAreSupplied(Seen(s, r), r.Step(), Some(r.Range())); }
      assert Held(files, s, r);
      forall b
        ensures b in SuppliedFrom(files, s, r) <==> b in Seen(s, r)
      {
        if b in SuppliedFrom(files, s, r) {
          SuppliedIsFromSource(files, s, r, b);
        }
        if b in Seen(s, r) {
          HeldIsSupplied(files, s, r, r, b);
        }
      }
      OrderOfCandlesIsIrrelevant(Seen(s, r), SuppliedFrom(files, s, r), r.Step(), Some(r.Range()));
      SuppliedLoads(files, s, r);
    }
  }

  lemma AnsweredParts(s: Source, r: Request)
    requires Answered(s, r)
    ensures Assess(Seen(s, r), r.Step(), Some(r.Range())).Good?
    ensures Assess(Seen(s, r), r.Step(), Some(r.Range())).value.report.complete
    ensures Direct(s, r, 0).value.bars == Assess(Seen(s, r), r.Step(), Some(r.Range())).value.bars
  {
    hide Assess, Duration, InRange;
  }

  class CachedHistoricalProvider {
    const provider: HistoricalProvider
    const cache: MarketDataCache

    constructor (provider: HistoricalProvider, cache: MarketDataCache)
      ensures this.provider == provider && this.cache == cache
    {
      this.provider, this.cache := provider, cache;
    }

    ghost predicate Valid()
      reads this, cache
    {
      cache.Valid() && FromSource(cache.files, provider.source)
    }

    /** A request the cache can answer alone: an exact artifact fetched after the range ended, or
        artifacts that compose it while its own is not taken. */
    ghost predicate Warm(r: Request)
      reads this, cache
    {
      || ExactlyCached(r)
      || (LoadedFrom(cache.files, provider.source, r).Found? && !Taken(cache.files, provider.source, r))
    }

    predicate ExactlyCached(r: Request)
      reads this, cache
    {
      var exact := cache.Exact(r, provider.source.versions);
      exact.Some? && exact.value.report.complete && r.end <= exact.value.fetchedAt
    }

    /** Stores a composed range, which fails, for the provider's own market, exactly when it is taken. */
    method StoreComposed(r: Request, h: History) returns (ok: bool)
      requires Valid() && r.start < r.end && LoadedFrom(cache.files, provider.source, r) == Found(h)
      modifies cache
      ensures Valid() && Grew(old(cache.files), cache.files)
      ensures Taken(old(cache.files), provider.source, r) ==> !ok
      ensures FixedCandles(provider.source) && About(r, provider.source) ==>
        (ok <==> !Taken(old(cache.files), provider.source, r)) && (ok ==> Warm(r))
    {
      hide Assess, FixedCandles, Direct, LoadedFrom, Duration, FromSource, QualityVerified, MeetsRequest, Taken;
      ghost var s, before := provider.source, cache.files;
      ComposedIsStorable(before, s, r);
      TakenIsStored(cache, s, r);
      if FixedCandles(s) && About(r, s) && cache.pathFor(r) in before && !Taken(before, s, r) {
        ExistingIsSame(before, s, r, cache.pathFor(r));
      }
      ok := cache.Store(h);
      FromSourceKept(before, s, cache.pathFor(r), h);
      if ok && FixedCandles(s) && About(r, s) {
        StaysLoadable(before, cache.files, s, r);
        TakenBefore(before, cache.files, s, r, r, cache.pathFor(r), h);
      }
    }

    /** The source's `fetch_historical`. Whatever happens, no stored artifact changes, and a request whose
        artifact was stored under another version is refused for good. When the request is about the
        provider's market and its candles are fixed: there is a result exactly when the provider itself
        would answer completely and neither the request nor, unless the cache composes it, a part to be
        fetched is taken, whatever else is cached; a result is exactly what the provider would answer,
        and leaves the request warm; and a warm request is answered without a single call to the
        provider. */
    method FetchHistorical(r: Request) returns (h: Option<History>)
      requires Valid() && r.start < r.end
      modifies cache, provider
      ensures Valid() && Grew(old(cache.files), cache.files)
      ensures Taken(old(cache.files), provider.source, r) ==> h.None? && Taken(cache.files, provider.source, r)
      ensures FixedCandles(provider.source) && About(r, provider.source) ==>
        (h.Some? <==> Answered(provider.source, r) && Free(old(cache.files), provider.source, r))
      ensures FixedCandles(provider.source) && About(r, provider.source) && h.Some? ==>
        h.value.bars == Direct(provider.source, r, 0).value.bars && Warm(r)
      ensures FixedCandles(provider.source) && About(r, provider.source) && old(Warm(r)) ==>
        h.Some? && provider.calls == old(provider.calls)
    {
      hide Assess, FixedCandles, Direct, LoadedFrom, Duration, FromSource, Storable, MeetsRequest, QualityVerified, Answered,
           ValidatedResults, LoadRangeFrom, AllBars, Merged, About, Taken, Free, Missing, PartsOf, CachedOpens, CachedFrom;
      var s := provider.source;
      if FixedCandles(s) && Answered(s, r) {
        NeverInConflict(cache.files, s, r);
      }
      TakenIsStored(cache, s, r);
      FreeWhenLoaded(cache.files, s, r);
      var exact := cache.Exact(r, s.versions);
      if exact.Some? && exact.value.report.complete && r.end <= exact.value.fetchedAt {
        ExactAgrees(cache.files, s, r, cache.pathFor(r));
        ExactLoads(cache.files, s, r, cache.pathFor(r));
        return exact;
      }
      var composed := cache.LoadRange(r, s.versions);
      if composed.Conflict? {
        IsLoaded(cache.files, s, r, composed);
        return None;
      }
      if composed.Found? {
        IsLoaded(cache.files, s, r, composed);
        ComposedAgrees(cache.files, s, r);
        TakenForGood(cache.files, s, r);
        var ok := StoreComposed(r, composed.history);
        return if ok then Some(composed.history) else None;
      }
      IsLoaded(cache.files, s, r, composed);
      h := Refill(r);
    }

    /** The second half of the source's `fetch_historical`: fetch what is missing, then compose. */
    method Refill(r: Request) returns (h: Option<History>)
      requires Valid() && r.start < r.end && !LoadedFrom(cache.files, provider.source, r).Found?
      modifies cache, provider
      ensures Valid() && Grew(old(cache.files), cache.files)
      ensures Taken(old(cache.files), provider.source, r) ==> h.None? && Taken(cache.files, provider.source, r)
      ensures FixedCandles(provider.source) && About(r, provider.source) ==>
        (h.Some? <==> Answered(provider.source, r) && Free(old(cache.files), provider.source, r))
      ensures FixedCandles(provider.source) && About(r, provider.source) && h.Some? ==>
        h.value.bars == Direct(provider.source, r, 0).value.bars && Warm(r)
    {
      hide Assess, FixedCandles, Direct, LoadedFrom, Duration, FromSource, Storable, MeetsRequest, QualityVerified, Missing, About,
           Answered, Held, Taken, Free, AllFree, AllBars, Merged, ValidatedResults, CachedOpens, LoadRangeFrom, PartsOf;
      ghost var s, before := provider.source, cache.files;
      TakenForGood(before, s, r);
      if FixedCandles(s) && Answered(s, r) {
        AnsweredIsAbout(s, r);
        NeverInConflict(before, s, r);
        PartsAreAnswered(before, s, r);
      }
      FreeWhenFetched(before, s, r);
      var missing := cache.MissingRanges(r, provider.source.versions);
      if missing.None? {
        return None;
      }
      PartsAre(cache.files, s, r);
      var fetched := FetchParts(PartsOf(missing.value, r));
      if !fetched {
        return None;
      }
      HeldWereFree(before, cache, s, PartsFor(before, s, r));
      if FixedCandles(s) && Answered(s, r) {
        FetchedLoads(before, cache.files, s, r);
      }
      var loaded := cache.LoadRange(r, provider.source.versions);
      IsLoaded(cache.files, s, r, loaded);
      if !loaded.Found? {
        return None;
      }
      ComposedAgrees(cache.files, s, r);
      var ok := StoreComposed(r, loaded.history);
      return if ok then Some(loaded.history) else None;
    }

    /** The source's loop over the missing parts: fetch one, store it, go on. It succeeds whenever the
        provider answers every part completely and none is taken, then holds the provider's candles for
        each, and takes nothing. */
    method FetchParts(parts: seq<Request>) returns (ok: bool)
      requires Valid()
      requires forall w :: w in parts ==> w.start < w.end
      modifies cache, provider
      ensures Valid() && Grew(old(cache.files), cache.files)
      ensures ok ==> forall w :: w in parts ==> Held(cache.files, provider.source, w)
      ensures FixedCandles(provider.source) && AllFree(old(cache.files), provider.source, parts) ==>
        (forall w :: w in parts ==> Answered(provider.source, w)) ==> ok
      ensures forall w :: Taken(cache.files, provider.source, w) ==> Taken(old(cache.files), provider.source, w)
    {
      hide Assess, FixedCandles, Direct, Duration, FromSource, Storable, MeetsRequest, QualityVerified, Answered, Held, Taken;
      for i := 0 to |parts|
        invariant Valid() && Grew(old(cache.files), cache.files)
        invariant forall k :: 0 <= k < i ==> Held(cache.files, provider.source, parts[k])
        invariant forall w :: Taken(cache.files, provider.source, w) ==> Taken(old(cache.files), provider.source, w)
      {
        ghost var at, before := provider.clock(provider.calls), cache.files;
        assert parts[i] in parts;
        var result := provider.FetchHistorical(parts[i]);
        if FixedCandles(provider.source) && Answered(provider.source, parts[i]) {
          AnswerIsStorable(provider.source, parts[i], at);
          TakenIsStored(cache, provider.source, parts[i]);
          if cache.pathFor(parts[i]) in before && !Taken(before, provider.source, parts[i]) {
            StoredIsAnswer(before, provider.source, parts[i], cache.pathFor(parts[i]), at);
          }
        }
        if result.None? || result.value.versions != provider.source.versions {
          return false;
        }
        DirectMeetsRequest(provider.source, parts[i], at);
        var stored := cache.Store(result.value);
        FromSourceKept(before, provider.source, cache.pathFor(parts[i]), result.value);
        forall w
          ensures Taken(cache.files, provider.source, w) ==> Taken(before, provider.source, w)
        {
          TakenBefore(before, cache.files, provider.source, parts[i], w, cache.pathFor(parts[i]), result.value);
        }
        if !stored {
          return false;
        }
        NowHeld(cache.files, provider.source, parts[i], cache.pathFor(parts[i]), at);
        forall k | 0 <= k < i
          ensures Held(cache.files, provider.source, parts[k])
        {
          StillHeld(before, cache.files, provider.source, parts[k]);
        }
      }
      return true;
    }
  }

  lemma AnsweredIsAbout(s: Source, r: Request)
    requires Answered(s, r)
    ensures About(r, s)
  {
  }

  lemma AnswerIsStorable(s: Source, r: Request, at: int)
    requires Answered(s, r)
    ensures Direct(s, r, at).Some? && Direct(s, r, at).value.versions == s.versions
    ensures QualityVerified(Direct(s, r, at).value) && Direct(s, r, at).value.report.complete
  {
    hide Assess, Duration, InRange;
    NormalIsStable(Filter(s.bars, InRange(r)), r);
  }

  lemma StoredIsAnswer(files: map<int, History>, s: Source, r: Request, p: int, at: int)
    requires FromSource(files, s) && FixedCandles(s) && Answered(s, r)
    requires p in files && Storable(files[p]) && files[p].request == r && files[p].versions == s.versions
    ensures Direct(s, r, at).Some? && SameContent(files[p], Direct(s, r, at).value)
  {
    hide Assess, Duration, InRange, FixedCandles, Storable;
    StoredAgrees(s, files[p], at);
  }

  lemma NowHeld(files: map<int, History>, s: Source, r: Request, p: int, at: int)
    requires r.start < r.end && Direct(s, r, at).Some? && p in files && SameContent(files[p], Direct(s, r, at).value)
    ensures Held(files, s, r)
  {
    hide Assess, Duration, InRange;
    AssessedAreSupplied(Filter(s.bars, InRange(r)), r.Step(), Some(r.Range()));
  }

  lemma StillHeld(before: map<int, History>, after: map<int, History>, s: Source, w: Request)
    requires Held(before, s, w) && Grew(before, after)
    ensures Held(after, s, w)
  {
    hide Duration;
    var p :| p in before && before[p].request == w && before[p].versions == s.versions && SameCandles(before[p].bars, Seen(s, w));
    assert after[p] == before[p];
  }

  lemma IsLoaded(files: map<int, History>, s: Source, r: Request, found: RangeResult)
    requires found == LoadRangeFrom(ValidatedResults(files, r, s.versions), r, s.versions)
    ensures found == LoadedFrom(files, s, r)
  {
  }

  lemma PartsAre(files: map<int, History>, s: Source, r: Request)
    requires r.start < r.end
    ensures CachedFrom(files, s, r).Some? ==> forall w :: w in PartsFor(files, s, r) ==> w.start < w.end
  {
    hide Missing, CachedFrom;
    if CachedFrom(files, s, r).Some? {
      PartsAreRequests(CachedOpens(CachedFrom(files, s, r).value, r), r);
    }
  }

  lemma ComposedAgrees(files: map<int, History>, s: Source, r: Request)
    requires FromSource(files, s) && LoadedFrom(files, s, r).Found?
    ensures FixedCandles(s) && About(r, s) ==>
      Answered(s, r) && LoadedFrom(files, s, r).history.bars == Direct(s, r, 0).value.bars
  {
    hide FromSource, LoadedFrom, Direct, FixedCandles;
    if FixedCandles(s) && About(r, s) {
      LoadedAgrees(files, s, r, 0);
    }
  }

  lemma ExactAgrees(files: map<int, History>, s: Source, r: Request, p: int)
    requires FromSource(files, s) && p in files && Storable(files[p]) && files[p].request == r && files[p].versions == s.versions
    ensures FixedCandles(s) && About(r, s) ==> Answered(s, r) && files[p].bars == Direct(s, r, 0).value.bars
  {
    hide Direct, FixedCandles, Storable;
    if FixedCandles(s) && About(r, s) {
      StoredAgrees(s, files[p], 0);
    }
  }

  /** What is already stored for the request is what would be stored again. */
  lemma ExistingIsSame(files: map<int, History>, s: Source, r: Request, p: int)
    requires FromSource(files, s) && FixedCandles(s) && About(r, s) && LoadedFrom(files, s, r).Found?
    requires p in files && Storable(files[p]) && files[p].request == r && files[p].versions == s.versions
    ensures SameContent(files[p], LoadedFrom(files, s, r).history)
  {
    hide Direct, FixedCandles, Storable, LoadedFrom, Assess;
    LoadedAgrees(files, s, r, 0);
    LoadedParts(files, s, r);
    ExactAgrees(files, s, r, p);
  }
}
