/** The Librarian: bounded weight moves from the outcomes of past trials. */
module Librarian {
  import opened Sequences
  import opened Trading
  import opened Profiles
  import opened Experience

  datatype LibrarianConfig = LibrarianConfig(
    maximumDelta: real, minimumSamples: nat, fullConfidence: nat, recentWindow: nat, atRandom: real, slope: real)

  predicate ValidLibrarian(c: LibrarianConfig)
  {
    && 0.0 < c.maximumDelta <= 0.5 && c.minimumSamples >= 2 && c.fullConfidence >= c.minimumSamples && c.recentWindow >= 2
    && 0.0 <= c.atRandom <= 4.0 && 0.0 < c.slope <= 2.0
  }

  // ---- what a scope has learned from ----

  predicate EpisodeMatches(e: Episode, s: Scope)
  {
    && (s.assetClass.None? || e.assetClass == s.assetClass)
    && (s.symbol.None? || e.symbol == s.symbol.value)
    && (s.regime.None? || e.regime == s.regime)
    && (s.horizon.None? || exists x :: x in e.signals && x.horizonBars == s.horizon.value)
  }

  function EligibleFor(s: Scope, cutoff: int): Episode -> bool
  {
    (e: Episode) => e.truth.Some? && e.truth.value.availableAt < cutoff && e.decisionAt < cutoff && EpisodeMatches(e, s)
  }

  predicate SignalCounts(x: Signal, agent: int, s: Scope, e: Episode)
    requires e.truth.Some?
  {
    && x.agentId == agent && x.signalType.Alpha? && x.validity.ValidSignal?
    && (s.horizon.None? || x.horizonBars == s.horizon.value)
    && x.horizonBars * e.step == e.truth.value.horizonEnd - e.truth.value.evaluationTime
  }

  function FirstCounting(signals: seq<Signal>, agent: int, s: Scope, e: Episode): Option<Signal>
    requires e.truth.Some?
  {
    if signals == [] then None
    else if SignalCounts(signals[0], agent, s, e) then Some(signals[0])
    else FirstCounting(signals[1..], agent, s, e)
  }

  /** One outcome for every trial in which the agent said something that can be judged. */
  function Correctness(trials: seq<Episode>, agent: int, s: Scope): seq<bool>
    requires forall e :: e in trials ==> e.truth.Some?
  {
    if trials == [] then []
    else
      var n := |trials| - 1;
      var e := trials[n];
      var signal := FirstCounting(e.signals, agent, s, e);
      Correctness(trials[..n], agent, s)
      + (if signal.Some? then [signal.value.direction == e.truth.value.realizedDirection] else [])
  }

  function CountTrue(s: seq<bool>): (n: nat)
    ensures n <= |s|
  {
    if s == [] then 0 else CountTrue(s[..|s| - 1]) + (if s[|s| - 1] then 1 else 0)
  }

  function Accuracy(s: seq<bool>): real
    requires s != []
  {
    CountTrue(s) as real / |s| as real
  }

  // ---- the move ----

  function Clamp(x: real, lo: real, hi: real): real { Max(lo, Min(hi, x)) }

  function TargetWeight(accuracy: real, c: LibrarianConfig): real
  {
    Clamp(c.atRandom + (accuracy - 0.5) * c.slope, 0.0, 4.0)
  }

  function BoundedMove(current: real, target: real, delta: real): real
  {
    Clamp(target, current - delta, current + delta)
  }

  function ConfidenceOf(samples: nat, c: LibrarianConfig): real
    requires c.fullConfidence > 0
  {
    Min(1.0, samples as real / c.fullConfidence as real)
  }

  function Scaled(x: real, fraction: real): real { x * fraction }

  function DeltaFor(samples: nat, c: LibrarianConfig): real
    requires c.fullConfidence > 0
  {
    Scaled(c.maximumDelta, ConfidenceOf(samples, c))
  }

  function Moved(w: AdaptiveWeight, correctness: seq<bool>, c: LibrarianConfig): AdaptiveWeight
    requires correctness != [] && ValidLibrarian(c)
  {
    var delta := DeltaFor(|correctness|, c);
    AdaptiveWeight(
      BoundedMove(w.longTerm, TargetWeight(Accuracy(correctness), c), delta),
      BoundedMove(w.recent, TargetWeight(Accuracy(LastN(correctness, c.recentWindow)), c), delta),
      w.recentMix)
  }

  /** The change proposed for one entry, if any. */
  function Proposed(e: Entry, s: Scope, trials: seq<Episode>, c: LibrarianConfig): seq<Change>
    requires ValidLibrarian(c) && forall x :: x in trials ==> x.truth.Some?
  {
    var correctness := Correctness(trials, e.agentId, s);
    if e.scope != s || |correctness| < c.minimumSamples then []
    else
      var moved := Moved(e.weight, correctness, c);
      if moved == e.weight then [] else [Change(e.agentId, s, e.weight, moved)]
  }

  function Changes(entries: seq<Entry>, s: Scope, trials: seq<Episode>, c: LibrarianConfig): seq<Change>
    requires ValidLibrarian(c) && forall x :: x in trials ==> x.truth.Some?
  {
    if entries == [] then []
    else Changes(entries[..|entries| - 1], s, trials, c) + Proposed(entries[|entries| - 1], s, trials, c)
  }

  function Eligible(episodes: seq<Episode>, s: Scope, cutoff: int): seq<Episode>
  {
    IndependentTrials(Filter(episodes, EligibleFor(s, cutoff)))
  }

  lemma {:induction false} RepresentativesAreMembers(episodes: seq<Episode>)
    ensures forall x :: x in Representatives(episodes) ==> x in episodes
  {
    if episodes != [] {
      var n := |episodes| - 1;
      RepresentativesAreMembers(episodes[..n]);
      KeptAreMembers(Representatives(episodes[..n]), episodes[n]);
    }
  }

  lemma {:induction false} KeptAreMembers(selected: seq<Episode>, e: Episode)
    ensures forall x :: x in Kept(selected, e) ==> x in selected || x == e
  {
    if selected != [] {
      KeptAreMembers(selected[1..], e);
    }
  }

  lemma EligibleAreJudged(episodes: seq<Episode>, s: Scope, cutoff: int)
    ensures forall x :: x in Eligible(episodes, s, cutoff) ==> x in episodes && EligibleFor(s, cutoff)(x)
    ensures forall x :: x in Eligible(episodes, s, cutoff) ==> x.truth.Some?
  {
    var filtered := Filter(episodes, EligibleFor(s, cutoff));
    RepresentativesAreMembers(filtered);
    SortMembers(Representatives(filtered), AtOrBefore);
  }

  /** The source's `propose`: only outcomes known before the cutoff are used. */
  method Propose(entries: seq<Entry>, episodes: seq<Episode>, s: Scope, cutoff: int, c: LibrarianConfig)
    returns (changes: seq<Change>, training: seq<Episode>)
    requires ValidLibrarian(c)
    ensures training == Eligible(episodes, s, cutoff)
    ensures forall x :: x in training ==> x in episodes && x.truth.Some? && x.truth.value.availableAt < cutoff && x.decisionAt < cutoff
    ensures changes == Changes(entries, s, training, c)
  {
    training := TrialLoop(Filter(episodes, EligibleFor(s, cutoff)));
    EligibleAreJudged(episodes, s, cutoff);
    changes := [];
    for i := 0 to |entries|
      invariant changes == Changes(entries[..i], s, training, c)
    {
      assert entries[..i + 1][..i] == entries[..i];
      var entry := entries[i];
      if entry.scope == s {
        var correctness := CorrectnessLoop(training, entry.agentId, s);
        if |correctness| >= c.minimumSamples {
          var moved := Moved(entry.weight, correctness, c);
          if moved != entry.weight {
            changes := changes + [Change(entry.agentId, s, entry.weight, moved)];
          }
        }
      }
    }
    assert entries[..|entries|] == entries;
  }

  method CorrectnessLoop(trials: seq<Episode>, agent: int, s: Scope) returns (correctness: seq<bool>)
    requires forall e :: e in trials ==> e.truth.Some?
    ensures correctness == Correctness(trials, agent, s)
  {
    correctness := [];
    for i := 0 to |trials|
      invariant correctness == Correctness(trials[..i], agent, s)
    {
      assert trials[..i + 1][..i] == trials[..i];
      var signal := FirstCounting(trials[i].signals, agent, s, trials[i]);
      if signal.Some? {
        correctness := correctness + [signal.value.direction == trials[i].truth.value.realizedDirection];
      }
    }
    assert trials[..|trials|] == trials;
  }

  // ---- how far a weight can move ----

  /** At most `delta`, and towards the target: never out of the range that holds both. */
  lemma MoveIsBounded(current: real, target: real, delta: real, lo: real, hi: real)
    requires delta >= 0.0 && lo <= current <= hi && lo <= target <= hi
    ensures lo <= BoundedMove(current, target, delta) <= hi
    ensures Abs(BoundedMove(current, target, delta) - current) <= delta
  {
  }

  lemma ConfidenceIsFraction(samples: nat, c: LibrarianConfig)
    requires c.fullConfidence > 0
    ensures 0.0 <= ConfidenceOf(samples, c) <= 1.0
  {
  }

  lemma DeltaIsSmall(delta: real, confidence: real)
    requires delta >= 0.0 && 0.0 <= confidence <= 1.0
    ensures 0.0 <= Scaled(delta, confidence) <= delta
  {
    assert delta * (1.0 - confidence) >= 0.0;
  }

  /** One change stays in range, keeps the mix, and moves either part by at most `bound`. */
  ghost predicate SmallChange(a: AdaptiveWeight, b: AdaptiveWeight, bound: real)
  {
    && (ValidWeight(a) ==> ValidWeight(b)) && b.recentMix == a.recentMix
    && Abs(b.longTerm - a.longTerm) <= bound && Abs(b.recent - a.recent) <= bound
  }

  lemma MovedIsSmall(w: AdaptiveWeight, correctness: seq<bool>, c: LibrarianConfig)
    requires correctness != [] && ValidLibrarian(c) && ValidWeight(w)
    ensures SmallChange(w, Moved(w, correctness, c), c.maximumDelta)
  {
    hide Accuracy, TargetWeight, BoundedMove, DeltaFor, LastN;
    DeltaInRange(|correctness|, c);
    var delta := DeltaFor(|correctness|, c);
    TargetInRange(Accuracy(correctness), c);
    TargetInRange(Accuracy(LastN(correctness, c.recentWindow)), c);
    MoveIsBounded(w.longTerm, TargetWeight(Accuracy(correctness), c), delta, 0.0, 4.0);
    MoveIsBounded(w.recent, TargetWeight(Accuracy(LastN(correctness, c.recentWindow)), c), delta, 0.0, 4.0);
  }

  lemma DeltaInRange(samples: nat, c: LibrarianConfig)
    requires ValidLibrarian(c)
    ensures 0.0 <= DeltaFor(samples, c) <= c.maximumDelta
  {
    hide ConfidenceOf, Scaled;
    ConfidenceIsFraction(samples, c);
    DeltaIsSmall(c.maximumDelta, ConfidenceOf(samples, c));
  }

  lemma TargetInRange(accuracy: real, c: LibrarianConfig)
    ensures 0.0 <= TargetWeight(accuracy, c) <= 4.0
  {
  }

  lemma HalfIsSmall(a: AdaptiveWeight, b: AdaptiveWeight, bound: real, x: Change)
    requires SmallChange(a, b, bound) && ValidWeight(a) && x.current == a && x.proposed == b
    ensures SmallChange(a, Halved(x).proposed, bound)
  {
  }

  ghost predicate SmallChanges(changes: seq<Change>, bound: real)
  {
    forall x :: x in changes ==> ValidWeight(x.current) && SmallChange(x.current, x.proposed, bound)
  }

  ghost predicate ValidEntries(entries: seq<Entry>) { forall e :: e in entries ==> ValidWeight(e.weight) }

  /** Every proposed change is small and is made to an entry of the proposal's scope. */
  lemma {:induction false} ProposalsAreSmall(entries: seq<Entry>, s: Scope, trials: seq<Episode>, c: LibrarianConfig)
    requires ValidLibrarian(c) && ValidEntries(entries) && forall x :: x in trials ==> x.truth.Some?
    ensures SmallChanges(Changes(entries, s, trials, c), c.maximumDelta)
    ensures forall x :: x in Changes(entries, s, trials, c) ==> x.scope == s && exists e :: e in entries && e == Entry(x.agentId, s, x.current)
  {
    hide ValidLibrarian, Moved, SmallChange, ValidWeight;
    if entries != [] {
      var n := |entries| - 1;
      assert forall e :: e in entries[..n] ==> e in entries;
      ProposalsAreSmall(entries[..n], s, trials, c);
      assert entries[n] in entries;
      OneProposalIsSmall(entries[n], s, trials, c);
    }
  }

  lemma OneProposalIsSmall(e: Entry, s: Scope, trials: seq<Episode>, c: LibrarianConfig)
    requires ValidLibrarian(c) && ValidWeight(e.weight) && forall x :: x in trials ==> x.truth.Some?
    ensures forall x :: x in Proposed(e, s, trials, c) ==>
      x.scope == s && e == Entry(x.agentId, s, x.current) && ValidWeight(x.current) && SmallChange(x.current, x.proposed, c.maximumDelta)
  {
    hide Moved, SmallChange, ValidWeight;
    AtLeastTwo(c);
    var correctness := Correctness(trials, e.agentId, s);
    if |correctness| >= c.minimumSamples {
      MovedIsSmall(e.weight, correctness, c);
    }
  }

  lemma AtLeastTwo(c: LibrarianConfig)
    requires ValidLibrarian(c)
    ensures c.minimumSamples >= 2
  {
  }

  /** A blend of two small moves is small. */
  lemma EffectiveMovesLittle(a: AdaptiveWeight, b: AdaptiveWeight, bound: real)
    requires SmallChange(a, b, bound) && ValidWeight(a)
    ensures Abs(b.Effective() - a.Effective()) <= bound
  {
    var m := a.recentMix;
    var x, y := b.longTerm - a.longTerm, b.recent - a.recent;
    assert b.Effective() - a.Effective() == x * (1.0 - m) + y * m;
    Blend(x, y, m, bound);
  }

  lemma Blend(x: real, y: real, m: real, bound: real)
    requires 0.0 <= m <= 1.0 && Abs(x) <= bound && Abs(y) <= bound
    ensures Abs(x * (1.0 - m) + y * m) <= bound
  {
    NonNegative(bound - x, 1.0 - m);
    NonNegative(bound + x, 1.0 - m);
    NonNegative(bound - y, m);
    NonNegative(bound + y, m);
  }

  lemma NonNegative(a: real, b: real)
    requires a >= 0.0 && b >= 0.0
    ensures a * b >= 0.0
  {
  }

  // ---- any chain of learning steps ----

  /** The scope, the trials and whether the Teacher let the full or the half change through. */
  datatype Lesson = Lesson(scope: Scope, trials: seq<Episode>, reduced: bool)

  /** How far `n` moves of at most `delta` can go. */
  function Reach(n: nat, delta: real): real { n as real * delta }

  predicate Judged(lessons: seq<Lesson>)
  {
    forall i :: 0 <= i < |lessons| ==> forall x :: x in lessons[i].trials ==> x.truth.Some?
  }

  function Accepted(entries: seq<Entry>, l: Lesson, c: LibrarianConfig): seq<Change>
    requires ValidLibrarian(c) && forall x :: x in l.trials ==> x.truth.Some?
  {
    var changes := Changes(entries, l.scope, l.trials, c);
    if l.reduced then ReducedChanges(changes) else changes
  }

  /** Propose, accept and promote, once for each lesson. */
  function Learned(entries: seq<Entry>, lessons: seq<Lesson>, c: LibrarianConfig): Option<seq<Entry>>
    requires ValidLibrarian(c) && Judged(lessons)
  {
    if lessons == [] then Some(entries)
    else
      var n := |lessons| - 1;
      var before := Learned(entries, lessons[..n], c);
      if before.None? then None else ApplyChanges(before.value, Accepted(before.value, lessons[n], c))
  }

  /** The same agent and scope, the same mix, in range, and within `bound` of where it started. */
  ghost predicate Near(e: Entry, f: Entry, bound: real)
  {
    && f.agentId == e.agentId && f.scope == e.scope && ValidWeight(f.weight)
    && f.weight.recentMix == e.weight.recentMix
    && Abs(f.weight.Effective() - e.weight.Effective()) <= bound
  }

  lemma AcceptedAreSmall(entries: seq<Entry>, l: Lesson, c: LibrarianConfig)
    requires ValidLibrarian(c) && ValidEntries(entries) && forall x :: x in l.trials ==> x.truth.Some?
    ensures SmallChanges(Accepted(entries, l, c), c.maximumDelta)
    ensures forall x :: x in Accepted(entries, l, c) ==> x.scope == l.scope
  {
    hide ValidLibrarian, SmallChange, ValidWeight, Halved, Changes;
    ProposalsAreSmall(entries, l.scope, l.trials, c);
    var changes := Changes(entries, l.scope, l.trials, c);
    if l.reduced {
      forall x | x in ReducedChanges(changes)
        ensures ValidWeight(x.current) && SmallChange(x.current, x.proposed, c.maximumDelta) && x.scope == l.scope
      {
        var i :| 0 <= i < |changes| && ReducedChanges(changes)[i] == x;
        assert changes[i] in changes;
        HalvedKeeps(changes[i]);
        HalfIsSmall(changes[i].current, changes[i].proposed, c.maximumDelta, changes[i]);
      }
    }
  }

  lemma HalvedKeeps(x: Change)
    ensures Halved(x).current == x.current && Halved(x).scope == x.scope && Halved(x).agentId == x.agentId
  {
  }

  /** One lesson moves every entry by at most the maximum, and leaves entries of other scopes alone. */
  lemma LessonMovesLittle(entries: seq<Entry>, l: Lesson, c: LibrarianConfig)
    requires ValidLibrarian(c) && ValidEntries(entries) && forall x :: x in l.trials ==> x.truth.Some?
    requires ApplyChanges(entries, Accepted(entries, l, c)).Some?
    ensures var r := ApplyChanges(entries, Accepted(entries, l, c)).value;
      && |r| == |entries| && (forall i :: 0 <= i < |r| ==> Near(entries[i], r[i], c.maximumDelta))
      && (forall i :: 0 <= i < |r| && entries[i].scope != l.scope ==> r[i] == entries[i])
  {
    hide ValidLibrarian, SmallChange, ValidWeight, Accepted, Replaced, AllDeclared, Near;
    var changes := Accepted(entries, l, c);
    AcceptedAreSmall(entries, l, c);
    ReplacedFollows(entries, changes);
    PositiveDelta(c);
    var r := ApplyChanges(entries, changes).value;
    forall i | 0 <= i < |r|
      ensures Near(entries[i], r[i], c.maximumDelta) && (entries[i].scope != l.scope ==> r[i] == entries[i])
    {
      assert entries[i] in entries;
      FollowedIsNear(entries[i], r[i], changes, c.maximumDelta);
    }
  }

  lemma PositiveDelta(c: LibrarianConfig)
    requires ValidLibrarian(c)
    ensures c.maximumDelta > 0.0
  {
  }

  lemma FollowedIsNear(e: Entry, f: Entry, changes: seq<Change>, bound: real)
    requires Follows(e, f, changes) && SmallChanges(changes, bound) && ValidWeight(e.weight) && bound >= 0.0
    ensures Near(e, f, bound)
  {
    var change := ChangeFor(changes, e.agentId, e.scope);
    if change.Some? {
      EffectiveMovesLittle(e.weight, f.weight, bound);
    }
  }

  lemma NearAgain(e: Entry, f: Entry, g: Entry, far: real, near: real)
    requires Near(e, f, far) && Near(f, g, near)
    ensures Near(e, g, far + near)
  {
  }

  /** Over any chain of lessons, full or halved: every weight stays in range with the mix it had, an
      entry whose scope was never taught is untouched, and after `n` lessons no effective weight is
      further than `n` maximum moves from where it started. */
  lemma {:induction false} DriftIsBounded(entries: seq<Entry>, lessons: seq<Lesson>, c: LibrarianConfig)
    requires ValidLibrarian(c) && Judged(lessons) && ValidEntries(entries) && Learned(entries, lessons, c).Some?
    ensures var r := Learned(entries, lessons, c).value;
      && |r| == |entries| && ValidEntries(r)
      && (forall i :: 0 <= i < |r| ==> Near(entries[i], r[i], Reach(|lessons|, c.maximumDelta)))
      && (forall i :: 0 <= i < |r| && (forall l :: l in lessons ==> l.scope != entries[i].scope) ==> r[i] == entries[i])
  {
    hide ValidLibrarian, Near, Accepted, ApplyChanges, ValidWeight, Reach;
    if lessons == [] {
      forall i | 0 <= i < |entries|
        ensures Near(entries[i], entries[i], Reach(0, c.maximumDelta))
      {
        assert entries[i] in entries;
        NearItself(entries[i], c.maximumDelta);
      }
    } else {
      var n := |lessons| - 1;
      var before, r := Learned(entries, lessons[..n], c).value, Learned(entries, lessons, c).value;
      DriftIsBounded(entries, lessons[..n], c);
      assert forall l :: l in lessons[..n] ==> l in lessons;
      LessonMovesLittle(before, lessons[n], c);
      forall i | 0 <= i < |r|
        ensures Near(entries[i], r[i], Reach(|lessons|, c.maximumDelta)) && ValidWeight(r[i].weight)
        ensures (forall l :: l in lessons ==> l.scope != entries[i].scope) ==> r[i] == entries[i]
      {
        NearAgain(entries[i], before[i], r[i], Reach(n, c.maximumDelta), c.maximumDelta);
        OneMoreMove(n, c.maximumDelta);
        NearIsValid(entries[i], r[i], Reach(|lessons|, c.maximumDelta));
        NearIsValid(entries[i], before[i], Reach(n, c.maximumDelta));
        assert lessons[n] in lessons;
      }
    }
  }

  lemma NearItself(e: Entry, delta: real)
    requires ValidWeight(e.weight)
    ensures Near(e, e, Reach(0, delta))
  {
  }

  lemma NearIsValid(e: Entry, f: Entry, bound: real)
    requires Near(e, f, bound)
    ensures ValidWeight(f.weight) && f.scope == e.scope
  {
  }

  lemma OneMoreMove(n: nat, delta: real)
    ensures Reach(n, delta) + delta == Reach(n + 1, delta)
  {
  }

  // ---- a proposal always applies to the profile it was made for ----

  lemma {:induction false} ReplacedWhenCurrent(entries: seq<Entry>, changes: seq<Change>)
    requires forall e :: e in entries ==>
      ChangeFor(changes, e.agentId, e.scope).None? || ChangeFor(changes, e.agentId, e.scope).value.current == e.weight
    ensures Replaced(entries, changes).Some?
  {
    if entries != [] {
      var n := |entries| - 1;
      assert entries[n] in entries;
      ReplacedWhenCurrent(entries[..n], changes);
    }
  }

  lemma OneEntryAnIdentity(entries: seq<Entry>, e: Entry, f: Entry)
    requires UniqueEntries(entries) && e in entries && f in entries && e.agentId == f.agentId && e.scope == f.scope
    ensures e == f
  {
    var i :| 0 <= i < |entries| && entries[i] == e;
    var j :| 0 <= j < |entries| && entries[j] == f;
  }

  /** Full or halved, what the Librarian proposes for a profile can be applied to that profile. */
  lemma ProposalsApply(entries: seq<Entry>, l: Lesson, c: LibrarianConfig)
    requires ValidLibrarian(c) && ValidEntries(entries) && UniqueEntries(entries) && forall x :: x in l.trials ==> x.truth.Some?
    ensures ApplyChanges(entries, Accepted(entries, l, c)).Some?
  {
    hide Changes, SmallChanges, ValidEntries, UniqueEntries, ValidLibrarian;
    var changes := Changes(entries, l.scope, l.trials, c);
    ProposalsAreSmall(entries, l.scope, l.trials, c);
    forall x | x in Accepted(entries, l, c)
      ensures Declared(entries, x)
    {
      var i :| 0 <= i < |Accepted(entries, l, c)| && Accepted(entries, l, c)[i] == x;
      assert changes[i] in changes;
    }
    forall e | e in entries && ChangeFor(Accepted(entries, l, c), e.agentId, e.scope).Some?
      ensures ChangeFor(Accepted(entries, l, c), e.agentId, e.scope).value.current == e.weight
    {
      HalvedChangeFor(changes, e.agentId, e.scope);
      var x := ChangeFor(changes, e.agentId, e.scope).value;
      OneEntryAnIdentity(entries, e, Entry(x.agentId, l.scope, x.current));
    }
    ReplacedWhenCurrent(entries, Accepted(entries, l, c));
  }

  /** So a chain of lessons never fails. */
  lemma {:induction false} LessonsAlwaysApply(entries: seq<Entry>, lessons: seq<Lesson>, c: LibrarianConfig)
    requires ValidLibrarian(c) && Judged(lessons) && ValidEntries(entries) && UniqueEntries(entries)
    ensures Learned(entries, lessons, c).Some? && UniqueEntries(Learned(entries, lessons, c).value)
  {
    hide ValidLibrarian, Accepted, ApplyChanges, UniqueEntries;
    if lessons != [] {
      var n := |lessons| - 1;
      LessonsAlwaysApply(entries, lessons[..n], c);
      DriftIsBounded(entries, lessons[..n], c);
      var before := Learned(entries, lessons[..n], c).value;
      ProposalsApply(before, lessons[n], c);
      UniqueKept(before, Accepted(before, lessons[n], c));
    }
  }
}
