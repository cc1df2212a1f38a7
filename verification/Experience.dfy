/** Judged episodes, and the independent trials among them. */
module Experience {
  import opened Sequences
  import opened Trading

  datatype Truth = Truth(
    availableAt: int, evaluationTime: int, horizonEnd: int, realizedReturn: Option<real>, realizedDirection: Direction)

  datatype Episode = Episode(
    id: int, equivalence: int, decisionAt: int, assetClass: Option<nat>, symbol: nat, regime: Option<nat>, step: nat,
    snapshot: Snapshot, signals: seq<Signal>, minimumConfidence: real, minimumConviction: real, truth: Option<Truth>)

  /** In order of decision, then of identity. */
  predicate AtOrBefore(a: Episode, b: Episode)
  {
    a.decisionAt < b.decisionAt || (a.decisionAt == b.decisionAt && a.id <= b.id)
  }

  predicate Earlier(a: Episode, b: Episode) { AtOrBefore(a, b) && !AtOrBefore(b, a) }

  /** Identities are content hashes: one identity, one episode. */
  ghost predicate Identified(episodes: seq<Episode>)
  {
    forall x, y :: x in episodes && y in episodes && x.id == y.id ==> x == y
  }

  lemma EpisodeOrder()
    ensures TotalPreorder(AtOrBefore)
  {
  }

  /** The insertion-ordered dictionary of representatives, after one more episode. */
  function Kept(selected: seq<Episode>, e: Episode): seq<Episode>
  {
    if selected == [] then [e]
    else if selected[0].equivalence == e.equivalence then
      (if Earlier(e, selected[0]) then [e] + selected[1..] else selected)
    else [selected[0]] + Kept(selected[1..], e)
  }

  function Representatives(episodes: seq<Episode>): seq<Episode>
  {
    if episodes == [] then [] else Kept(Representatives(episodes[..|episodes| - 1]), episodes[|episodes| - 1])
  }

  function IndependentTrials(episodes: seq<Episode>): seq<Episode>
  {
    StableSort(Representatives(episodes), AtOrBefore)
  }

  /** The source's loop over the episodes. */
  method TrialLoop(episodes: seq<Episode>) returns (trials: seq<Episode>)
    ensures trials == IndependentTrials(episodes)
  {
    var selected: seq<Episode> := [];
    for i := 0 to |episodes|
      invariant selected == Representatives(episodes[..i])
    {
      assert episodes[..i + 1][..i] == episodes[..i];
      selected := Kept(selected, episodes[i]);
    }
    assert episodes[..|episodes|] == episodes;
    return StableSort(selected, AtOrBefore);
  }

  ghost predicate OnePerClass(s: seq<Episode>)
  {
    forall i, j :: 0 <= i < j < |s| ==> s[i].equivalence != s[j].equivalence
  }

  /** `e` is the earliest of its class. */
  ghost predicate IsTrial(episodes: seq<Episode>, e: Episode)
  {
    e in episodes && forall x :: x in episodes && x.equivalence == e.equivalence ==> AtOrBefore(e, x)
  }

  lemma {:induction false} KeptMembers(selected: seq<Episode>, e: Episode, x: Episode)
    requires OnePerClass(selected)
    ensures x in Kept(selected, e) <==>
      if x.equivalence != e.equivalence then x in selected
      else ((x == e && forall y :: y in selected && y.equivalence == e.equivalence ==> Earlier(e, y))
            || (x in selected && !Earlier(e, x)))
  {
    if selected != [] {
      var head, rest := selected[0], selected[1..];
      assert selected == [head] + rest;
      assert forall y :: y in rest ==> y.equivalence != head.equivalence;
      assert forall y :: y in selected <==> y == head || y in rest;
      KeptMembers(rest, e, x);
    }
  }

  lemma {:induction false} KeptIsOnePerClass(selected: seq<Episode>, e: Episode)
    requires OnePerClass(selected)
    ensures OnePerClass(Kept(selected, e))
  {
    if selected != [] && selected[0].equivalence != e.equivalence {
      var rest := selected[1..];
      KeptIsOnePerClass(rest, e);
      forall x | x in Kept(rest, e)
        ensures x.equivalence != selected[0].equivalence
      {
        KeptMembers(rest, e, x);
      }
    }
  }

  lemma {:induction false} RepresentativesAreTrials(episodes: seq<Episode>, x: Episode)
    requires Identified(episodes)
    ensures OnePerClass(Representatives(episodes))
    ensures x in Representatives(episodes) <==> IsTrial(episodes, x)
  {
    if episodes != [] {
      var n := |episodes| - 1;
      var rest, last := episodes[..n], episodes[n];
      assert episodes == rest + [last];
      assert forall y :: y in episodes <==> y in rest || y == last;
      forall y
        ensures y in Representatives(rest) <==> IsTrial(rest, y)
      {
        RepresentativesAreTrials(rest, y);
      }
      RepresentativesAreTrials(rest, x);
      KeptIsOnePerClass(Representatives(rest), last);
      KeptMembers(Representatives(rest), last, x);
      OneMoreEpisode(rest, last, x);
    }
  }

  lemma {:induction false} EarliestExists(episodes: seq<Episode>, x: Episode) returns (e: Episode)
    requires x in episodes
    ensures IsTrial(episodes, e) && e.equivalence == x.equivalence
    decreases |episodes|
  {
    var n := |episodes| - 1;
    var rest, last := episodes[..n], episodes[n];
    assert episodes == rest + [last];
    if exists y :: y in rest && y.equivalence == x.equivalence {
      var y :| y in rest && y.equivalence == x.equivalence;
      e := EarliestExists(rest, y);
      if last.equivalence == x.equivalence && !AtOrBefore(e, last) {
        e := last;
      }
    } else {
      e := last;
    }
  }

  lemma OneMoreEpisode(rest: seq<Episode>, last: Episode, x: Episode)
    requires Identified(rest + [last])
    ensures IsTrial(rest + [last], x) <==>
      if x.equivalence != last.equivalence then IsTrial(rest, x)
      else ((x == last && forall y :: IsTrial(rest, y) && y.equivalence == last.equivalence ==> Earlier(last, y))
            || (IsTrial(rest, x) && !Earlier(last, x)))
  {
    var all := rest + [last];
    assert forall y :: y in all <==> y in rest || y == last;
    if x.equivalence == last.equivalence {
      if x == last && forall y :: IsTrial(rest, y) && y.equivalence == last.equivalence ==> Earlier(last, y) {
        forall z | z in rest && z.equivalence == last.equivalence
          ensures AtOrBefore(last, z)
        {
          var y := EarliestExists(rest, z);
          assert AtOrBefore(y, z) && Earlier(last, y);
        }
      }
      if IsTrial(all, x) && x == last && x !in rest {
        forall y | IsTrial(rest, y) && y.equivalence == last.equivalence
          ensures Earlier(last, y)
        {
          assert y in all && AtOrBefore(last, y);
          assert y.id == last.id ==> y == last;
        }
      }
    }
  }

  lemma TrialsHaveNoTies(episodes: seq<Episode>)
    requires Identified(episodes)
    ensures NoTies(Representatives(episodes), AtOrBefore)
  {
    var s := Representatives(episodes);
    forall i, j | 0 <= i < j < |s|
      ensures !(AtOrBefore(s[i], s[j]) && AtOrBefore(s[j], s[i]))
    {
      RepresentativesAreTrials(episodes, s[i]);
      RepresentativesAreTrials(episodes, s[j]);
      assert s[i] in s && s[j] in s;
    }
  }

  /** One trial a class, the earliest, in order of decision; and nothing else. */
  lemma TrialsMean(episodes: seq<Episode>)
    requires Identified(episodes)
    ensures forall x :: x in IndependentTrials(episodes) <==> IsTrial(episodes, x)
    ensures Sorted(IndependentTrials(episodes), Strict(AtOrBefore))
  {
    SortMembers(Representatives(episodes), AtOrBefore);
    forall x
      ensures x in Representatives(episodes) <==> IsTrial(episodes, x)
    {
      RepresentativesAreTrials(episodes, x);
    }
    TrialsHaveNoTies(episodes);
    EpisodeOrder();
    SortStrict(Representatives(episodes), AtOrBefore);
  }

  /** The order and the repetition of the episodes make no difference. */
  lemma OrderOfEpisodesIsIrrelevant(a: seq<Episode>, b: seq<Episode>)
    requires Identified(a) && forall x :: x in a <==> x in b
    ensures IndependentTrials(a) == IndependentTrials(b)
  {
    TrialsMean(a);
    TrialsMean(b);
    SortedUnique(IndependentTrials(a), IndependentTrials(b), Strict(AtOrBefore));
  }

  /** Selecting trials among trials changes nothing. */
  lemma TrialsOfTrials(episodes: seq<Episode>)
    requires Identified(episodes)
    ensures IndependentTrials(IndependentTrials(episodes)) == IndependentTrials(episodes)
  {
    var trials := IndependentTrials(episodes);
    TrialsMean(episodes);
    TrialsMean(trials);
    forall x
      ensures IsTrial(trials, x) <==> IsTrial(episodes, x)
    {
      if IsTrial(trials, x) {
        var e := EarliestExists(episodes, x);
        assert e in trials && AtOrBefore(x, e) && AtOrBefore(e, x);
      }
    }
    SortedUnique(IndependentTrials(trials), trials, Strict(AtOrBefore));
  }
}
