/** Candle quality: normalization, gap accounting and what complete coverage means. */
module Quality {
  import opened Sequences
  import opened Trading

  datatype DataGap = DataGap(after: int, before: int, missing: nat)

  datatype Report = Report(
    inputRows: nat, outputRows: nat, duplicates: nat, outOfOrder: bool, gaps: seq<DataGap>,
    expected: nat, leading: nat, trailing: nat, complete: bool)

  datatype QualityError = ConflictingDuplicate | WrongDuration | Overlapping | EmptyGap

  datatype Window = Window(start: int, end: int)

  datatype Result<+T> = Good(value: T) | Bad(error: QualityError)

  // ---- collecting ----

  datatype Collected = Collected(byOpen: map<int, Bar>, duplicates: nat)

  function Collect(bars: seq<Bar>, duration: nat): Result<Collected>
  {
    if bars == [] then Good(Collected(map[], 0))
    else
      var before, bar := Collect(bars[..|bars| - 1], duration), bars[|bars| - 1];
      if before.Bad? then before
      else if bar.openedAt in before.value.byOpen then
        if before.value.byOpen[bar.openedAt] != bar then Bad(ConflictingDuplicate)
        else Good(before.value.(duplicates := before.value.duplicates + 1))
      else if bar.closedAt - bar.openedAt != duration then Bad(WrongDuration)
      else Good(before.value.(byOpen := before.value.byOpen[bar.openedAt := bar]))
  }

  function Values(byOpen: map<int, Bar>, opens: seq<int>): (r: seq<Bar>)
    requires forall i :: 0 <= i < |opens| ==> opens[i] in byOpen
    ensures |r| == |opens|
    ensures forall i :: 0 <= i < |r| ==> r[i] == byOpen[opens[i]]
  {
    seq(|opens|, i requires 0 <= i < |opens| => byOpen[opens[i]])
  }

  lemma SortedKeys(byOpen: map<int, Bar>)
    ensures forall i :: 0 <= i < |SortedInts(byOpen.Keys)| ==> SortedInts(byOpen.Keys)[i] in byOpen
  {
    var keys := SortedInts(byOpen.Keys);
    assert forall i :: 0 <= i < |keys| ==> keys[i] in keys;
  }

  /** The collected candles in order of opening. */
  function Ordered(byOpen: map<int, Bar>): seq<Bar>
  {
    SortedKeys(byOpen);
    Values(byOpen, SortedInts(byOpen.Keys))
  }

  // ---- gaps ----

  function GapBetween(previous: Bar, current: Bar, duration: nat): Result<seq<DataGap>>
    requires duration > 0
  {
    var delta := current.openedAt - previous.openedAt;
    if delta < duration then Bad(Overlapping)
    else if delta == duration then Good([])
    else if delta / duration - 1 == 0 then Bad(EmptyGap)
    else Good([DataGap(previous.closedAt, current.openedAt, delta / duration - 1)])
  }

  function Gaps(bars: seq<Bar>, duration: nat): Result<seq<DataGap>>
    requires duration > 0
  {
    if |bars| <= 1 then Good([])
    else
      var before := Gaps(bars[..|bars| - 1], duration);
      if before.Bad? then before
      else
        var last := GapBetween(bars[|bars| - 2], bars[|bars| - 1], duration);
        if last.Bad? then last else Good(before.value + last.value)
  }

  function SumMissing(gaps: seq<DataGap>): nat
  {
    if gaps == [] then 0 else SumMissing(gaps[..|gaps| - 1]) + gaps[|gaps| - 1].missing
  }

  // ---- the report ----

  predicate OpensInOrder(bars: seq<Bar>)
  {
    forall i :: 0 <= i < |bars| - 1 ==> bars[i].openedAt <= bars[i + 1].openedAt
  }

  /** `max(0, int(delta / duration))`. */
  function WholeIntervals(delta: int, duration: nat): nat
    requires duration > 0
  {
    if delta <= 0 then 0 else delta / duration
  }

  function ReportFor(supplied: seq<Bar>, ordered: seq<Bar>, duplicates: nat, gaps: seq<DataGap>, duration: nat, window: Option<Window>): Report
    requires duration > 0
  {
    var outOfOrder := !OpensInOrder(supplied);
    match window
    case None => Report(|supplied|, |ordered|, duplicates, outOfOrder, gaps, 0, 0, 0, false)
    case Some(w) =>
      var expected := WholeIntervals(w.end - w.start, duration);
      var leading := if ordered == [] then expected else WholeIntervals(ordered[0].openedAt - w.start, duration);
      var trailing := if ordered == [] then 0 else WholeIntervals(w.end - ordered[|ordered| - 1].closedAt, duration);
      Report(|supplied|, |ordered|, duplicates, outOfOrder, gaps, expected, leading, trailing,
             (w.end - w.start) % duration == 0 && |ordered| == expected && leading == 0 && trailing == 0
             && SumMissing(gaps) == 0)
  }

  datatype Assessment = Assessment(bars: seq<Bar>, report: Report)

  function Assess(supplied: seq<Bar>, duration: nat, window: Option<Window>): Result<Assessment>
    requires duration > 0
  {
    var collected := Collect(supplied, duration);
    if collected.Bad? then Bad(collected.error)
    else
      var ordered := Ordered(collected.value.byOpen);
      var gaps := Gaps(ordered, duration);
      if gaps.Bad? then Bad(gaps.error)
      else Good(Assessment(ordered, ReportFor(supplied, ordered, collected.value.duplicates, gaps.value, duration, window)))
  }

  // ---- the source's loops ----

  method CollectLoop(supplied: seq<Bar>, duration: nat) returns (r: Result<Collected>)
    ensures r == Collect(supplied, duration)
  {
    var byOpen: map<int, Bar> := map[];
    var duplicates: nat := 0;
    for i := 0 to |supplied|
      invariant Collect(supplied[..i], duration) == Good(Collected(byOpen, duplicates))
    {
      var bar := supplied[i];
      assert supplied[..i + 1][..i] == supplied[..i];
      if bar.openedAt in byOpen && byOpen[bar.openedAt] == bar {
        duplicates := duplicates + 1;
      } else if bar.openedAt in byOpen {
        CollectStaysBad(supplied, duration, i + 1);
        return Bad(ConflictingDuplicate);
      } else if bar.closedAt - bar.openedAt != duration {
        CollectStaysBad(supplied, duration, i + 1);
        return Bad(WrongDuration);
      } else {
        byOpen := byOpen[bar.openedAt := bar];
      }
    }
    assert supplied[..|supplied|] == supplied;
    return Good(Collected(byOpen, duplicates));
  }

  lemma {:induction false} CollectStaysBad(supplied: seq<Bar>, duration: nat, n: nat)
    requires n <= |supplied| && Collect(supplied[..n], duration).Bad?
    ensures Collect(supplied, duration) == Collect(supplied[..n], duration)
    decreases |supplied| - n
  {
    if n == |supplied| {
      assert supplied[..n] == supplied;
    } else {
      assert supplied[..n + 1][..n] == supplied[..n];
      CollectStaysBad(supplied, duration, n + 1);
    }
  }

  method GapLoop(ordered: seq<Bar>, duration: nat) returns (r: Result<seq<DataGap>>)
    requires duration > 0
    ensures r == Gaps(ordered, duration)
  {
    hide Gaps;
    var gaps: seq<DataGap> := [];
    NoGapYet(ordered, duration);
    if |ordered| == 0 {
      return Good([]);
    }
    for i := 0 to |ordered| - 1
      invariant Gaps(ordered[..i + 1], duration) == Good(gaps)
    {
      var previous, current := ordered[i], ordered[i + 1];
      var delta := current.openedAt - previous.openedAt;
      GapsGrow(ordered, duration, i);
      if delta > duration {
        if delta / duration - 1 <= 0 {
          AtLeastOne(delta, duration);
          GapsStayBad(ordered, duration, i + 2);
          return Bad(EmptyGap);
        }
        gaps := gaps + [DataGap(previous.closedAt, current.openedAt, delta / duration - 1)];
      } else if delta < duration {
        GapsStayBad(ordered, duration, i + 2);
        return Bad(Overlapping);
      } else {
        assert gaps + [] == gaps;
      }
    }
    assert ordered[..|ordered|] == ordered;
    return Good(gaps);
  }

  lemma NoGapYet(ordered: seq<Bar>, duration: nat)
    requires duration > 0
    ensures Gaps([], duration) == Good([]) && (|ordered| > 0 ==> Gaps(ordered[..1], duration) == Good([]))
  {
  }

  lemma GapsGrow(ordered: seq<Bar>, duration: nat, i: nat)
    requires duration > 0 && i + 1 < |ordered| && Gaps(ordered[..i + 1], duration).Good?
    ensures var last := GapBetween(ordered[i], ordered[i + 1], duration);
      Gaps(ordered[..i + 2], duration) == if last.Bad? then last else Good(Gaps(ordered[..i + 1], duration).value + last.value)
  {
    assert ordered[..i + 2][..i + 1] == ordered[..i + 1];
  }

  lemma AtLeastOne(delta: int, duration: nat)
    requires delta > duration > 0
    ensures delta / duration >= 1
  {
  }

  lemma {:induction false} GapsStayBad(bars: seq<Bar>, duration: nat, n: nat)
    requires n <= |bars| && duration > 0 && Gaps(bars[..n], duration).Bad?
    ensures Gaps(bars, duration) == Gaps(bars[..n], duration)
    decreases |bars| - n
  {
    if n == |bars| {
      assert bars[..n] == bars;
    } else {
      assert bars[..n + 1][..n] == bars[..n];
      GapsStayBad(bars, duration, n + 1);
    }
  }

  /** The source's `normalize_and_assess`. */
  method NormalizeAndAssess(supplied: seq<Bar>, duration: nat, window: Option<Window>)
    returns (r: Result<Assessment>)
    requires duration > 0
    ensures r == Assess(supplied, duration, window)
  {
    var collected := CollectLoop(supplied, duration);
    if collected.Bad? {
      return Bad(collected.error);
    }
    var ordered := Ordered(collected.value.byOpen);
    var gaps := GapLoop(ordered, duration);
    if gaps.Bad? {
      return Bad(gaps.error);
    }
    return Good(Assessment(ordered, ReportFor(supplied, ordered, collected.value.duplicates, gaps.value, duration, window)));
  }

  // ---- what collecting means ----

  /** One candle per opening, each of the timeframe's duration. */
  ghost predicate Consistent(bars: seq<Bar>, duration: nat)
  {
    && (forall x :: x in bars ==> x.closedAt - x.openedAt == duration)
    && (forall x, y :: x in bars && y in bars && x.openedAt == y.openedAt ==> x == y)
  }

  /** `byOpen` holds exactly the candles of `bars`, by their openings. */
  ghost predicate Indexes(byOpen: map<int, Bar>, bars: seq<Bar>)
  {
    && (forall x :: x in bars ==> x.openedAt in byOpen && byOpen[x.openedAt] == x)
    && (forall o :: o in byOpen ==> byOpen[o] in bars && byOpen[o].openedAt == o)
  }

  lemma {:induction false} CollectMeans(bars: seq<Bar>, duration: nat)
    ensures Collect(bars, duration).Good? <==> Consistent(bars, duration)
    ensures Collect(bars, duration).Good? ==>
      Indexes(Collect(bars, duration).value.byOpen, bars)
      && Collect(bars, duration).value.duplicates + |Collect(bars, duration).value.byOpen| == |bars|
  {
    if bars != [] {
      var n := |bars| - 1;
      var rest, bar := bars[..n], bars[n];
      CollectMeans(rest, duration);
      assert bars == rest + [bar];
      if Collect(rest, duration).Good? {
        var byOpen := Collect(rest, duration).value.byOpen;
        LastIsConsistent(rest, bar, byOpen, duration);
      } else {
        assert forall x :: x in rest ==> x in bars;
      }
    }
  }

  lemma LastIsConsistent(rest: seq<Bar>, bar: Bar, byOpen: map<int, Bar>, duration: nat)
    requires Consistent(rest, duration) && Indexes(byOpen, rest)
    ensures Consistent(rest + [bar], duration)
       <==> (if bar.openedAt in byOpen then byOpen[bar.openedAt] == bar else bar.closedAt - bar.openedAt == duration)
  {
    var bars := rest + [bar];
    assert bar in bars;
    assert forall x :: x in bars <==> x in rest || x == bar;
    if bar.openedAt in byOpen {
      assert byOpen[bar.openedAt] in bars;
      if byOpen[bar.openedAt] == bar {
        assert Consistent(bars, duration);
      }
    }
  }

  lemma OrderedMeans(byOpen: map<int, Bar>, bars: seq<Bar>)
    requires Indexes(byOpen, bars)
    ensures var ordered := Ordered(byOpen);
      && |ordered| == |SortedInts(byOpen.Keys)|
      && (forall x :: x in ordered <==> x in bars)
      && (forall i, j :: 0 <= i < j < |ordered| ==> ordered[i].openedAt < ordered[j].openedAt)
  {
    SortedKeys(byOpen);
    var keys := SortedInts(byOpen.Keys);
    var ordered := Ordered(byOpen);
    forall i, j | 0 <= i < j < |ordered|
      ensures ordered[i].openedAt < ordered[j].openedAt
    {
      assert Below(keys[i], keys[j]);
    }
    forall x | x in bars
      ensures x in ordered
    {
      assert x.openedAt in keys;
      var i :| 0 <= i < |keys| && keys[i] == x.openedAt;
      assert ordered[i] == x;
    }
  }

  ghost predicate SameCandles(a: seq<Bar>, b: seq<Bar>)
  {
    forall x :: x in a <==> x in b
  }

  lemma SameIndex(a: seq<Bar>, b: seq<Bar>, m: map<int, Bar>, n: map<int, Bar>)
    requires SameCandles(a, b) && Indexes(m, a) && Indexes(n, b)
    ensures m == n
  {
    forall o
      ensures o in m <==> o in n
    {
      if o in m {
        assert m[o] in b;
      }
      if o in n {
        assert n[o] in a;
      }
    }
    forall o | o in m
      ensures m[o] == n[o]
    {
      assert m[o] in b;
    }
  }

  /** The same candles, in whatever order and however often repeated, normalize to the same bars
      and the same coverage; only the row counts and the disorder flag tell them apart. */
  lemma OrderOfCandlesIsIrrelevant(a: seq<Bar>, b: seq<Bar>, duration: nat, window: Option<Window>)
    requires duration > 0 && SameCandles(a, b)
    ensures Assess(a, duration, window).Good? <==> Assess(b, duration, window).Good?
    ensures Assess(a, duration, window).Good? ==>
      var x, y := Assess(a, duration, window).value, Assess(b, duration, window).value;
      x.bars == y.bars
      && x.report == y.report.(inputRows := |a|, duplicates := x.report.duplicates, outOfOrder := x.report.outOfOrder)
      && (|a| == |b| ==> x.report.duplicates == y.report.duplicates)
  {
    hide Consistent;
    CollectMeans(a, duration);
    CollectMeans(b, duration);
    SameConsistency(a, b, duration);
    if Collect(a, duration).Good? {
      SameIndex(a, b, Collect(a, duration).value.byOpen, Collect(b, duration).value.byOpen);
    }
  }

  lemma SameConsistency(a: seq<Bar>, b: seq<Bar>, duration: nat)
    requires SameCandles(a, b)
    ensures Consistent(a, duration) <==> Consistent(b, duration)
  {
  }

  // ---- accounting ----

  /** On the grid of the window, inside it, one bar an opening. */
  ghost predicate OnGrid(bars: seq<Bar>, duration: nat, w: Window)
    requires duration > 0
  {
    && (forall i :: 0 <= i < |bars| ==>
          w.start <= bars[i].openedAt < w.end && (bars[i].openedAt - w.start) % duration == 0
          && bars[i].closedAt == bars[i].openedAt + duration)
    && (forall i, j :: 0 <= i < j < |bars| ==> bars[i].openedAt < bars[j].openedAt)
  }

  /** How many whole intervals an opening lies after the start of the window. */
  function Slot(bar: Bar, duration: nat, w: Window): int
    requires duration > 0
  {
    (bar.openedAt - w.start) / duration
  }

  lemma SlotTimes(x: int, duration: nat)
    requires duration > 0 && x % duration == 0
    ensures x / duration * duration == x
  {
  }

  lemma SlotDifference(x: int, y: int, duration: nat)
    requires duration > 0 && x % duration == 0 && y % duration == 0
    ensures (y - x) % duration == 0 && (y - x) / duration == y / duration - x / duration
    ensures y > x ==> y / duration > x / duration
    ensures y - x >= 2 * duration || y - x <= duration
  {
    var p, q := x / duration, y / duration;
    SlotTimes(x, duration);
    SlotTimes(y, duration);
    assert y - x == (q - p) * duration;
    DivideExact(q - p, duration);
    if q - p >= 2 {
      assert (q - p) * duration >= 2 * duration;
    } else {
      assert (q - p) * duration <= duration;
    }
    if q <= p {
      assert (q - p) * duration <= 0;
    }
  }

  lemma DivideExact(k: int, duration: nat)
    requires duration > 0
    ensures k * duration % duration == 0 && k * duration / duration == k
  {
    QuotientUnique(k * duration, k, 0, duration);
    assert k * duration == (k * duration) / duration * duration + k * duration % duration;
  }

  lemma GapOnGrid(previous: Bar, current: Bar, duration: nat, w: Window)
    requires duration > 0 && previous.openedAt < current.openedAt
    requires (previous.openedAt - w.start) % duration == 0 && (current.openedAt - w.start) % duration == 0
    ensures GapBetween(previous, current, duration).Good?
    ensures SumMissing(GapBetween(previous, current, duration).value) == Slot(current, duration, w) - Slot(previous, duration, w) - 1
  {
    SlotDifference(previous.openedAt - w.start, current.openedAt - w.start, duration);
    var delta := current.openedAt - previous.openedAt;
    DivideExact(1, duration);
    var gaps := GapBetween(previous, current, duration);
    TwoIntervals(delta, duration);
    if delta > duration {
      assert gaps.value[..0] == [];
    }
  }

  lemma TwoIntervals(delta: int, duration: nat)
    requires duration > 0
    ensures delta >= 2 * duration ==> delta / duration >= 2
  {
  }

  lemma SumSplits(a: seq<DataGap>, b: seq<DataGap>)
    ensures SumMissing(a + b) == SumMissing(a) + SumMissing(b)
    decreases |b|
  {
    if b == [] {
      assert a + b == a;
    } else {
      assert (a + b)[..|a + b| - 1] == a + b[..|b| - 1];
      SumSplits(a, b[..|b| - 1]);
    }
  }

  /** Between the first and the last bar, rows and gaps account for every slot. */
  lemma {:induction false} GapsOnGrid(bars: seq<Bar>, duration: nat, w: Window)
    requires duration > 0 && OnGrid(bars, duration, w)
    ensures Gaps(bars, duration).Good?
    ensures bars == [] ==> SumMissing(Gaps(bars, duration).value) == 0
    ensures bars != [] ==>
      SumMissing(Gaps(bars, duration).value)
        == Slot(bars[|bars| - 1], duration, w) - Slot(bars[0], duration, w) - (|bars| - 1)
  {
    if |bars| > 1 {
      var n := |bars| - 1;
      GapsOnGrid(bars[..n], duration, w);
      GapOnGrid(bars[n - 1], bars[n], duration, w);
      SumSplits(Gaps(bars[..n], duration).value, GapBetween(bars[n - 1], bars[n], duration).value);
    }
  }

  lemma TrailingSlots(last: Bar, duration: nat, w: Window)
    requires duration > 0 && w.start <= last.openedAt < w.end && (last.openedAt - w.start) % duration == 0
    requires last.closedAt == last.openedAt + duration
    ensures WholeIntervals(w.end - w.start, duration)
      == Slot(last, duration, w) + WholeIntervals(w.end - last.closedAt, duration) + (if last.closedAt <= w.end then 1 else 0)
  {
    var k, total := Slot(last, duration, w), w.end - w.start;
    SlotTimes(last.openedAt - w.start, duration);
    assert w.end - last.closedAt == total - (k + 1) * duration;
    QuotientShift(total, k + 1, duration);
    QuotientShift(total, k, duration);
    if last.closedAt > w.end {
      SmallQuotient(total - k * duration, duration);
    }
  }

  lemma QuotientShift(x: int, k: int, d: nat)
    requires d > 0
    ensures (x - k * d) / d == x / d - k
  {
    var q, r := x / d, x % d;
    assert x - k * d == (q - k) * d + r;
    QuotientUnique(x - k * d, q - k, r, d);
  }

  lemma QuotientUnique(x: int, q: int, r: int, d: nat)
    requires d > 0 && x == q * d + r && 0 <= r < d
    ensures x / d == q
  {
    var p, s := x / d, x % d;
    assert x == p * d + s && 0 <= s < d;
    assert (p - q) * d == r - s;
    assert p - q >= 1 ==> (p - q) * d >= d;
    assert p - q <= -1 ==> (p - q) * d + d <= 0;
  }

  lemma SmallQuotient(x: int, d: nat)
    requires 0 <= x < d
    ensures x / d == 0
  {
  }

  /** Coverage accounting, exactly. For distinct bars on the window's grid: the expected intervals
      are the rows plus everything reported missing if and only if the last bar closes inside the
      window; a last bar that closes after it, which needs a window that is not a whole number of
      intervals, is counted once too often. */
  lemma CoverageAddsUp(supplied: seq<Bar>, bars: seq<Bar>, duplicates: nat, duration: nat, w: Window)
    requires duration > 0 && OnGrid(bars, duration, w) && w.start < w.end
    ensures Gaps(bars, duration).Good?
    ensures var r := ReportFor(supplied, bars, duplicates, Gaps(bars, duration).value, duration, Some(w));
      var counted := r.outputRows + r.leading + SumMissing(r.gaps) + r.trailing;
      if bars == [] || bars[|bars| - 1].closedAt <= w.end then r.expected == counted else r.expected + 1 == counted
  {
    hide Gaps, OnGrid, Slot;
    GapsOnGrid(bars, duration, w);
    if bars != [] {
      EndsOnGrid(bars, duration, w);
      TrailingSlots(bars[|bars| - 1], duration, w);
    }
  }

  lemma EndsOnGrid(bars: seq<Bar>, duration: nat, w: Window)
    requires duration > 0 && OnGrid(bars, duration, w) && bars != []
    ensures var last := bars[|bars| - 1];
      w.start <= last.openedAt < w.end && (last.openedAt - w.start) % duration == 0 && last.closedAt == last.openedAt + duration
    ensures WholeIntervals(bars[0].openedAt - w.start, duration) == Slot(bars[0], duration, w)
  {
    assert bars[0].openedAt >= w.start;
  }

  // ---- what complete coverage means ----

  /** The bars fill the window, one after another, from its start. */
  ghost predicate Tiles(bars: seq<Bar>, duration: nat, w: Window)
  {
    && |bars| * duration == w.end - w.start
    && (forall i :: 0 <= i < |bars| ==>
          bars[i].openedAt == w.start + i * duration && bars[i].closedAt == w.start + (i + 1) * duration)
  }

  ghost predicate Steady(bars: seq<Bar>, duration: nat)
  {
    && (forall i, j :: 0 <= i < j < |bars| ==> bars[i].openedAt < bars[j].openedAt)
    && (forall i :: 0 <= i < |bars| ==> bars[i].closedAt == bars[i].openedAt + duration)
  }

  lemma NoMissing(before: seq<DataGap>, last: seq<DataGap>)
    requires SumMissing(before + last) == 0
    ensures SumMissing(before) == 0 && SumMissing(last) == 0
  {
    SumSplits(before, last);
  }

  lemma NoGapBetween(previous: Bar, current: Bar, duration: nat)
    requires duration > 0 && GapBetween(previous, current, duration).Good?
    requires SumMissing(GapBetween(previous, current, duration).value) == 0
    ensures current.openedAt == previous.openedAt + duration
  {
    var delta := current.openedAt - previous.openedAt;
    if delta > duration {
      AtLeastOne(delta, duration);
      SumOfOne(DataGap(previous.closedAt, current.openedAt, delta / duration - 1));
    }
  }

  lemma SumOfOne(gap: DataGap)
    ensures SumMissing([gap]) == gap.missing
  {
    assert [gap][..0] == [];
  }

  /** Without a missing interval, consecutive bars are exactly one duration apart. */
  lemma {:induction false} GaplessRun(bars: seq<Bar>, duration: nat)
    requires duration > 0 && Gaps(bars, duration).Good? && SumMissing(Gaps(bars, duration).value) == 0
    ensures forall i :: 0 <= i < |bars| ==> bars[i].openedAt == bars[0].openedAt + i * duration
  {
    if |bars| > 1 {
      var n := |bars| - 1;
      NoMissing(Gaps(bars[..n], duration).value, GapBetween(bars[n - 1], bars[n], duration).value);
      GaplessRun(bars[..n], duration);
      NoGapBetween(bars[n - 1], bars[n], duration);
      assert bars[n - 1] == bars[..n][n - 1];
      assert n * duration == (n - 1) * duration + duration;
      forall i | 0 <= i < |bars|
        ensures bars[i].openedAt == bars[0].openedAt + i * duration
      {
        assert i < n ==> bars[i] == bars[..n][i];
      }
    }
  }

  lemma BelowOne(x: int, d: nat)
    requires d > 0 && WholeIntervals(x, d) == 0
    ensures x < d
  {
  }

  lemma AlignedNearZero(x: int, d: nat)
    requires d > 0 && x % d == 0 && 0 < x + d && x < d
    ensures x == 0
  {
    SlotTimes(x, d);
    var k := x / d;
    assert k >= 1 ==> k * d >= d;
    assert k <= -1 ==> k * d + d <= 0;
  }

  /** There are such windows: it ends one tick into its second interval, and both bars are there. */
  lemma UnalignedWindowMiscounts(start: int, duration: nat)
    requires duration > 1
    ensures var w := Window(start, start + duration + 1);
      var bars := [Bar(start, start + duration, start + duration, 1.0, 1.0, 1.0, 1.0, 1.0),
                   Bar(start + duration, start + 2 * duration, start + 2 * duration, 1.0, 1.0, 1.0, 1.0, 1.0)];
      && OnGrid(bars, duration, w) && Gaps(bars, duration).Good?
      && var r := ReportFor(bars, bars, 0, Gaps(bars, duration).value, duration, Some(w));
         r.expected == 1 && r.outputRows + r.leading + SumMissing(r.gaps) + r.trailing == 2
  {
    var w := Window(start, start + duration + 1);
    var bars := [Bar(start, start + duration, start + duration, 1.0, 1.0, 1.0, 1.0, 1.0),
                 Bar(start + duration, start + 2 * duration, start + 2 * duration, 1.0, 1.0, 1.0, 1.0, 1.0)];
    JustOverOne(duration);
    CoverageAddsUp(bars, bars, 0, duration, w);
  }

  lemma JustOverOne(duration: nat)
    requires duration > 1
    ensures (duration + 1) / duration == 1 && duration % duration == 0
  {
    assert duration + 1 == 1 * duration + 1;
  }

  ghost predicate SomeOnGrid(bars: seq<Bar>, duration: nat, w: Window)
    requires duration > 0
  {
    exists b :: b in bars && (b.openedAt - w.start) % duration == 0
  }

  lemma GridIsShared(first: int, i: nat, duration: nat, start: int)
    requires duration > 0 && (first + i * duration - start) % duration == 0
    ensures (first - start) % duration == 0
  {
    var x := first + i * duration - start;
    SlotTimes(x, duration);
    assert first - start == (x / duration - i) * duration;
    DivideExact(x / duration - i, duration);
  }

  /** Complete coverage, and one bar whose opening lies on the window's grid, leave no freedom: the
      bars tile the window exactly. */
  lemma CompleteTiles(supplied: seq<Bar>, bars: seq<Bar>, duplicates: nat, duration: nat, w: Window)
    requires duration > 0 && w.start < w.end && Steady(bars, duration) && Gaps(bars, duration).Good?
    requires ReportFor(supplied, bars, duplicates, Gaps(bars, duration).value, duration, Some(w)).complete
    requires SomeOnGrid(bars, duration, w)
    ensures Tiles(bars, duration, w)
  {
    hide *;
    var b :| b in bars && (b.openedAt - w.start) % duration == 0 by { OneOnGrid(bars, duration, w); }
    var j :| 0 <= j < |bars| && bars[j] == b;
    CompleteMeans(supplied, bars, duplicates, duration, w);
    GaplessRun(bars, duration);
    var first := bars[0].openedAt;
    GridIsShared(first, j, duration, w.start);
    BelowOne(first - w.start, duration);
    BelowOne(w.end - bars[|bars| - 1].closedAt, duration);
    StrictCloses(bars, duration);
    Earlier(|bars| - 1, |bars|, duration);
    TileStart(first, |bars|, duration, w);
    FillTiles(bars, duration, w);
  }

  lemma OneOnGrid(bars: seq<Bar>, duration: nat, w: Window)
    requires duration > 0 && SomeOnGrid(bars, duration, w)
    ensures exists b :: b in bars && (b.openedAt - w.start) % duration == 0
  {
  }

  lemma CompleteMeans(supplied: seq<Bar>, bars: seq<Bar>, duplicates: nat, duration: nat, w: Window)
    requires duration > 0 && w.start < w.end && Gaps(bars, duration).Good? && bars != []
    requires ReportFor(supplied, bars, duplicates, Gaps(bars, duration).value, duration, Some(w)).complete
    ensures |bars| * duration == w.end - w.start && SumMissing(Gaps(bars, duration).value) == 0
    ensures WholeIntervals(bars[0].openedAt - w.start, duration) == 0
    ensures WholeIntervals(w.end - bars[|bars| - 1].closedAt, duration) == 0
  {
    hide Gaps;
    SlotTimes(w.end - w.start, duration);
  }

  lemma TileStart(first: int, n: nat, duration: nat, w: Window)
    requires duration > 0 && n * duration == w.end - w.start && (first - w.start) % duration == 0
    requires first - w.start < duration && w.end - (first + n * duration) < duration
    ensures first == w.start
  {
    AlignedNearZero(first - w.start, duration);
  }

  lemma FillTiles(bars: seq<Bar>, duration: nat, w: Window)
    requires |bars| * duration == w.end - w.start
    requires forall i :: 0 <= i < |bars| ==>
      bars[i].openedAt == w.start + i * duration && bars[i].closedAt == bars[i].openedAt + duration
    ensures Tiles(bars, duration, w)
  {
    forall i | 0 <= i < |bars|
      ensures bars[i].closedAt == w.start + (i + 1) * duration
    {
      assert (i + 1) * duration == i * duration + duration;
    }
  }

  lemma StrictCloses(bars: seq<Bar>, duration: nat)
    requires Steady(bars, duration)
    ensures forall i :: 0 <= i < |bars| ==> bars[i].closedAt == bars[i].openedAt + duration
  {
  }

  lemma TileSlots(i: nat, duration: nat, w: Window)
    requires duration > 0
    ensures (w.start + i * duration - w.start) % duration == 0
    ensures (w.start + i * duration - w.start) / duration == i
  {
    DivideExact(i, duration);
  }

  lemma TilesAreOnGrid(bars: seq<Bar>, duration: nat, w: Window)
    requires duration > 0 && Tiles(bars, duration, w)
    ensures OnGrid(bars, duration, w)
    ensures bars != [] ==> Slot(bars[0], duration, w) == 0 && Slot(bars[|bars| - 1], duration, w) == |bars| - 1
  {
    forall i | 0 <= i < |bars|
      ensures w.start <= bars[i].openedAt < w.end && (bars[i].openedAt - w.start) % duration == 0
      ensures bars[i].closedAt == bars[i].openedAt + duration && Slot(bars[i], duration, w) == i
    {
      TileSlots(i, duration, w);
      Earlier(i, |bars|, duration);
    }
    forall i, j | 0 <= i < j < |bars|
      ensures bars[i].openedAt < bars[j].openedAt
    {
      Earlier(i, j, duration);
    }
  }

  lemma Earlier(i: nat, j: nat, duration: nat)
    requires i < j && duration > 0
    ensures i * duration < j * duration && (i + 1) * duration == i * duration + duration <= j * duration
  {
    assert (j - i) * duration >= duration;
  }

  /** And bars that tile the window are assessed as complete. */
  lemma TilesAreComplete(supplied: seq<Bar>, bars: seq<Bar>, duplicates: nat, duration: nat, w: Window)
    requires duration > 0 && w.start < w.end && Tiles(bars, duration, w)
    ensures Gaps(bars, duration).Good?
    ensures ReportFor(supplied, bars, duplicates, Gaps(bars, duration).value, duration, Some(w)).complete
    ensures bars != [] && SomeOnGrid(bars, duration, w)
  {
    hide Gaps, OnGrid;
    TilesAreOnGrid(bars, duration, w);
    GapsOnGrid(bars, duration, w);
    DivideExact(|bars|, duration);
    TileSlots(0, duration, w);
    assert bars != [];
    assert bars[0] in bars;
    assert (|bars| - 1 + 1) * duration == |bars| * duration;
  }

  /** The engine's two checks, complete coverage and a bar that opens at the evaluation start, hold
      exactly when the bars tile the requested range; and then a bar opens at the evaluation end,
      so the third check never fails. */
  lemma ReplayHistoryTiles(supplied: seq<Bar>, duration: nat, warmup: nat, start: int, end: int)
    requires duration > 0 && start < end
    requires Assess(supplied, duration, Some(ReplayWindow(duration, warmup, start, end))).Good?
    ensures var w := ReplayWindow(duration, warmup, start, end);
      var a := Assess(supplied, duration, Some(w)).value;
      && ((a.report.complete && OpensAt(a.bars, start)) <==> Tiles(a.bars, duration, w))
      && (Tiles(a.bars, duration, w) ==> OpensAt(a.bars, end))
  {
    hide Gaps, Tiles, Steady, Collect, Consistent, Indexes, ReportFor, Ordered, SomeOnGrid, OpensAt;
    var w := ReplayWindow(duration, warmup, start, end);
    var a := Assess(supplied, duration, Some(w)).value;
    var duplicates := Collect(supplied, duration).value.duplicates;
    OrderedIsStrict(supplied, duration);
    assert warmup * duration >= 0;
    if a.report.complete && OpensAt(a.bars, start) {
      StartIsOnGrid(a.bars, duration, warmup, start, end);
      CompleteTiles(supplied, a.bars, duplicates, duration, w);
    }
    if Tiles(a.bars, duration, w) {
      TilesAreComplete(supplied, a.bars, duplicates, duration, w);
      TileAt(a.bars, duration, w, warmup);
      LastTile(a.bars, duration, w);
    }
  }

  /** What the engine requests: the warm-up before the start, and one interval past the end. */
  function ReplayWindow(duration: nat, warmup: nat, start: int, end: int): Window
  {
    Window(start - warmup * duration, end + duration)
  }

  lemma StartIsOnGrid(bars: seq<Bar>, duration: nat, warmup: nat, start: int, end: int)
    requires duration > 0 && OpensAt(bars, start)
    ensures SomeOnGrid(bars, duration, ReplayWindow(duration, warmup, start, end))
  {
    var b :| b in bars && b.openedAt == start;
    DivideExact(warmup, duration);
  }

  lemma OrderedIsStrict(supplied: seq<Bar>, duration: nat)
    requires Collect(supplied, duration).Good?
    ensures Steady(Ordered(Collect(supplied, duration).value.byOpen), duration)
  {
    CollectMeans(supplied, duration);
    var byOpen := Collect(supplied, duration).value.byOpen;
    OrderedMeans(byOpen, supplied);
    var ordered := Ordered(byOpen);
    forall i | 0 <= i < |ordered|
      ensures ordered[i].closedAt == ordered[i].openedAt + duration
    {
      assert ordered[i] in supplied;
    }
  }

  lemma TileAt(bars: seq<Bar>, duration: nat, w: Window, i: nat)
    requires duration > 0 && Tiles(bars, duration, w) && w.start + i * duration < w.end
    ensures OpensAt(bars, w.start + i * duration)
  {
    assert i >= |bars| ==> (i - |bars|) * duration >= 0;
    assert bars[i] in bars;
  }

  lemma LastTile(bars: seq<Bar>, duration: nat, w: Window)
    requires duration > 0 && Tiles(bars, duration, w) && w.start < w.end
    ensures OpensAt(bars, w.end - duration)
  {
    assert |bars| > 0;
    var n := |bars| - 1;
    assert bars[n] in bars;
    assert n * duration + duration == |bars| * duration;
  }

  lemma TilesAbut(bars: seq<Bar>, duration: nat, w: Window)
    requires duration > 0 && Tiles(bars, duration, w)
    ensures forall i, j :: 0 <= i < j < |bars| ==> bars[i].closedAt <= bars[j].openedAt
  {
    forall i, j | 0 <= i < j < |bars|
      ensures bars[i].closedAt <= bars[j].openedAt
    {
      Earlier(i, j, duration);
    }
  }

  /** Normalizing neither invents nor loses a candle. */
  lemma AssessedAreSupplied(supplied: seq<Bar>, duration: nat, window: Option<Window>)
    requires duration > 0 && Assess(supplied, duration, window).Good?
    ensures SameCandles(Assess(supplied, duration, window).value.bars, supplied)
    ensures Consistent(supplied, duration) && Steady(Assess(supplied, duration, window).value.bars, duration)
  {
    hide Consistent, Gaps, ReportFor;
    CollectMeans(supplied, duration);
    OrderedMeans(Collect(supplied, duration).value.byOpen, supplied);
    OrderedIsStrict(supplied, duration);
  }
}
