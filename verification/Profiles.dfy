/** Weight profiles: scoped adaptive weights, their resolution, and the changes made to them. */
module Profiles {
  import opened Sequences
  import opened Trading

  /** A scope's horizon is checked to be positive when the scope is built. */
  type Horizon = n: nat | n > 0 witness 1

  /** Text is modelled as naturals in the order of the text; zero is the empty text. */
  datatype Scope = Scope(assetClass: Option<nat>, symbol: Option<nat>, regime: Option<nat>, horizon: Option<Horizon>)

  datatype AdaptiveWeight = AdaptiveWeight(longTerm: real, recent: real, recentMix: real)
  {
    function Effective(): real { longTerm * (1.0 - recentMix) + recent * recentMix }
  }

  predicate ValidWeight(w: AdaptiveWeight)
  {
    0.0 <= w.longTerm <= 4.0 && 0.0 <= w.recent <= 4.0 && 0.0 <= w.recentMix <= 0.5
  }

  datatype Entry = Entry(agentId: int, scope: Scope, weight: AdaptiveWeight)

  datatype Change = Change(agentId: int, scope: Scope, current: AdaptiveWeight, proposed: AdaptiveWeight)

  ghost predicate UniqueEntries(entries: seq<Entry>)
  {
    forall i, j :: 0 <= i < j < |entries| ==>
      entries[i].agentId != entries[j].agentId || entries[i].scope != entries[j].scope
  }

  // ---- resolution ----

  datatype Context = Context(assetClass: Option<nat>, symbol: nat, regime: Option<nat>, horizon: nat)

  predicate ScopeMatches(s: Scope, c: Context)
  {
    && (s.assetClass.None? || s.assetClass == c.assetClass)
    && (s.symbol.None? || s.symbol.value == c.symbol)
    && (s.regime.None? || s.regime == c.regime)
    && (s.horizon.None? || s.horizon.value == c.horizon)
  }

  function Counted(o: Option<nat>): nat { if o.Some? then 1 else 0 }

  function OrZero(o: Option<nat>): nat { if o.Some? then o.value else 0 }

  datatype ScopeKey = ScopeKey(specificity: nat, assetClass: nat, symbol: nat, regime: nat, horizon: nat)

  function KeyOf(s: Scope): ScopeKey
  {
    ScopeKey(Counted(s.assetClass) + Counted(s.symbol) + Counted(s.regime) + Counted(s.horizon),
             OrZero(s.assetClass), OrZero(s.symbol), OrZero(s.regime), OrZero(s.horizon))
  }

  /** Python's tuple order. */
  predicate KeyAbove(a: ScopeKey, b: ScopeKey)
  {
    if a.specificity != b.specificity then a.specificity > b.specificity
    else if a.assetClass != b.assetClass then a.assetClass > b.assetClass
    else if a.symbol != b.symbol then a.symbol > b.symbol
    else if a.regime != b.regime then a.regime > b.regime
    else a.horizon > b.horizon
  }

  /** The entry the source's loop keeps for each agent. */
  function Matched(entries: seq<Entry>, c: Context): map<int, Entry>
  {
    if entries == [] then map[]
    else
      var before, entry := Matched(entries[..|entries| - 1], c), entries[|entries| - 1];
      if ScopeMatches(entry.scope, c)
         && (entry.agentId !in before || KeyAbove(KeyOf(entry.scope), KeyOf(before[entry.agentId].scope)))
      then before[entry.agentId := entry]
      else before
  }

  function Resolve(entries: seq<Entry>, c: Context): map<int, real>
  {
    var matched := Matched(entries, c);
    map a | a in matched :: matched[a].weight.Effective()
  }

  method ResolveLoop(entries: seq<Entry>, c: Context) returns (weights: map<int, real>)
    ensures weights == Resolve(entries, c)
  {
    var matched: map<int, Entry> := map[];
    for i := 0 to |entries|
      invariant matched == Matched(entries[..i], c)
    {
      assert entries[..i + 1][..i] == entries[..i];
      var entry := entries[i];
      if ScopeMatches(entry.scope, c)
         && (entry.agentId !in matched || KeyAbove(KeyOf(entry.scope), KeyOf(matched[entry.agentId].scope))) {
        matched := matched[entry.agentId := entry];
      }
    }
    assert entries[..|entries|] == entries;
    return map a | a in matched :: matched[a].weight.Effective();
  }

  /** An agent's best entry: matching, and no matching entry of that agent ranks above it. */
  ghost predicate IsBest(entries: seq<Entry>, c: Context, e: Entry)
  {
    && e in entries && ScopeMatches(e.scope, c)
    && (forall x :: x in entries && x.agentId == e.agentId && ScopeMatches(x.scope, c) ==> !KeyAbove(KeyOf(x.scope), KeyOf(e.scope)))
  }

  predicate HasMatch(entries: seq<Entry>, c: Context, agent: int)
  {
    exists e :: e in entries && e.agentId == agent && ScopeMatches(e.scope, c)
  }

  lemma KeysAreOrdered(a: ScopeKey, b: ScopeKey, d: ScopeKey)
    ensures KeyAbove(a, b) ==> !KeyAbove(b, a)
    ensures KeyAbove(a, b) && !KeyAbove(d, b) ==> !KeyAbove(d, a)
    ensures KeyAbove(a, b) || KeyAbove(b, a) || a == b
  {
  }

  lemma {:induction false} MatchedIsBest(entries: seq<Entry>, c: Context, agent: int)
    ensures agent in Matched(entries, c) <==> HasMatch(entries, c, agent)
    ensures agent in Matched(entries, c) ==>
      IsBest(entries, c, Matched(entries, c)[agent]) && Matched(entries, c)[agent].agentId == agent
  {
    if entries != [] {
      var n := |entries| - 1;
      var rest, entry := entries[..n], entries[n];
      MatchedIsBest(rest, c, agent);
      assert entries == rest + [entry];
      assert forall x :: x in entries <==> x in rest || x == entry;
      assert HasMatch(entries, c, agent) <==> HasMatch(rest, c, agent) || (entry.agentId == agent && ScopeMatches(entry.scope, c));
      if agent in Matched(rest, c) {
        BestOfMore(rest, c, entry, Matched(rest, c)[agent]);
      }
    }
  }

  lemma BestOfMore(rest: seq<Entry>, c: Context, entry: Entry, best: Entry)
    requires IsBest(rest, c, best)
    ensures ScopeMatches(entry.scope, c) && entry.agentId == best.agentId && KeyAbove(KeyOf(entry.scope), KeyOf(best.scope)) ==>
      IsBest(rest + [entry], c, entry)
    ensures !(ScopeMatches(entry.scope, c) && entry.agentId == best.agentId && KeyAbove(KeyOf(entry.scope), KeyOf(best.scope))) ==>
      IsBest(rest + [entry], c, best)
  {
    forall x | x in rest && x.agentId == best.agentId && ScopeMatches(x.scope, c)
      ensures KeyAbove(KeyOf(entry.scope), KeyOf(best.scope)) ==> !KeyAbove(KeyOf(x.scope), KeyOf(entry.scope))
    {
      KeysAreOrdered(KeyOf(entry.scope), KeyOf(best.scope), KeyOf(x.scope));
    }
    assert !KeyAbove(KeyOf(entry.scope), KeyOf(entry.scope));
  }

  /** How many of a context's texts are the empty text. */
  function EmptyTexts(c: Context): nat
  {
    (if c.assetClass == Some(0) then 1 else 0) + (if c.symbol == 0 then 1 else 0) + (if c.regime == Some(0) then 1 else 0)
  }

  /** With at most one empty text, the key tells the matching scopes apart: the other parts of equal
      keys are equal, and then the specificity decides whether the empty text is named. */
  lemma KeyIdentifiesScope(a: Scope, b: Scope, c: Context)
    requires EmptyTexts(c) <= 1 && ScopeMatches(a, c) && ScopeMatches(b, c) && KeyOf(a) == KeyOf(b)
    ensures a == b
  {
  }

  lemma BestIsUnique(entries: seq<Entry>, others: seq<Entry>, c: Context, a: Entry, b: Entry)
    requires EmptyTexts(c) <= 1 && UniqueEntries(entries) && (forall x :: x in entries <==> x in others)
    requires IsBest(entries, c, a) && IsBest(others, c, b) && a.agentId == b.agentId
    ensures a == b
  {
    KeysAreOrdered(KeyOf(a.scope), KeyOf(b.scope), KeyOf(a.scope));
    KeyIdentifiesScope(a.scope, b.scope, c);
    var i :| 0 <= i < |entries| && entries[i] == a;
    var j :| 0 <= j < |entries| && entries[j] == b;
  }

  /** Resolution does not depend on the order of the entries. */
  lemma OrderOfEntriesIsIrrelevant(entries: seq<Entry>, others: seq<Entry>, c: Context)
    requires EmptyTexts(c) <= 1 && UniqueEntries(entries) && (forall x :: x in entries <==> x in others)
    ensures Resolve(entries, c) == Resolve(others, c)
  {
    hide EmptyTexts, UniqueEntries;
    var m, n := Matched(entries, c), Matched(others, c);
    forall agent
      ensures agent in m <==> agent in n
      ensures agent in m && agent in n ==> m[agent] == n[agent]
    {
      MatchedIsBest(entries, c, agent);
      MatchedIsBest(others, c, agent);
      if agent in m && agent in n {
        BestIsUnique(entries, others, c, m[agent], n[agent]);
      }
    }
    assert m == n;
  }

  /** Two scopes that each name another empty text of the context. */
  function TiedScopes(c: Context): (Scope, Scope)
  {
    var a, s, r := Scope(Some(0), None, None, None), Scope(None, Some(0), None, None), Scope(None, None, Some(0), None);
    if c.assetClass != Some(0) then (s, r) else if c.symbol == 0 then (a, s) else (a, r)
  }

  function TiedEntries(c: Context): (Entry, Entry)
  {
    (Entry(1, TiedScopes(c).0, AdaptiveWeight(1.0, 1.0, 0.0)), Entry(1, TiedScopes(c).1, AdaptiveWeight(2.0, 2.0, 0.0)))
  }

  lemma TiedScopesTie(c: Context)
    requires EmptyTexts(c) >= 2
    ensures var (a, b) := TiedScopes(c);
      a != b && ScopeMatches(a, c) && ScopeMatches(b, c) && KeyOf(a) == KeyOf(b)
  {
  }

  lemma TwoResolved(a: Entry, b: Entry, c: Context)
    requires a.agentId == b.agentId && ScopeMatches(a.scope, c) && ScopeMatches(b.scope, c) && KeyOf(a.scope) == KeyOf(b.scope)
    ensures Resolve([a, b], c) == map[a.agentId := a.weight.Effective()]
  {
    hide Matched;
    TwoEntries(a, b, c);
  }

  /** With two empty texts in the context the order does matter: two scopes that name different
      empty texts tie, and the first one listed wins. */
  lemma EmptyTextsTie(c: Context)
    requires EmptyTexts(c) >= 2
    ensures var (a, b) := TiedEntries(c);
      && UniqueEntries([a, b]) && Resolve([a, b], c) == map[1 := 1.0] && Resolve([b, a], c) == map[1 := 2.0]
  {
    hide EmptyTexts, TiedScopes, ScopeMatches, KeyOf, Resolve;
    TiedScopesTie(c);
    var (a, b) := TiedEntries(c);
    TwoResolved(a, b, c);
    TwoResolved(b, a, c);
  }

  lemma TwoEntries(a: Entry, b: Entry, c: Context)
    requires a.agentId == b.agentId && ScopeMatches(a.scope, c) && ScopeMatches(b.scope, c) && KeyOf(a.scope) == KeyOf(b.scope)
    ensures Matched([a, b], c) == map[a.agentId := a]
  {
    assert [a, b][..1] == [a];
    assert [a][..0] == [];
    assert Matched([], c) == map[];
    assert Matched([a], c) == map[a.agentId := a];
  }

  /** The same entries, with unique identities, in another order. */
  ghost predicate Permuted(entries: seq<Entry>, others: seq<Entry>)
  {
    UniqueEntries(entries) && multiset(entries) == multiset(others)
  }

  /** Every permutation of every profile resolves alike in a context if and only if at most one of its
      asset class, symbol and regime is the empty text. */
  lemma OrderMattersExactly(c: Context)
    ensures (forall entries, others :: Permuted(entries, others) ==> Resolve(entries, c) == Resolve(others, c)) <==> EmptyTexts(c) <= 1
  {
    hide Resolve, EmptyTexts;
    if EmptyTexts(c) <= 1 {
      forall entries, others | Permuted(entries, others)
        ensures Resolve(entries, c) == Resolve(others, c)
      {
        SameMembers(entries, others);
        OrderOfEntriesIsIrrelevant(entries, others, c);
      }
    } else {
      EmptyTextsTie(c);
      var (a, b) := TiedEntries(c);
      assert [a, b] == [a] + [b] && [b, a] == [b] + [a];
      assert Permuted([a, b], [b, a]);
      assert Resolve([a, b], c)[1] != Resolve([b, a], c)[1];
    }
  }

  // ---- changes ----

  /** The last change listed for an entry's identity. */
  function ChangeFor(changes: seq<Change>, agent: int, scope: Scope): (r: Option<Change>)
    ensures r.Some? ==> r.value in changes && r.value.agentId == agent && r.value.scope == scope
    ensures r.None? ==> forall x :: x in changes ==> x.agentId != agent || x.scope != scope
  {
    if changes == [] then None
    else
      var last := changes[|changes| - 1];
      if last.agentId == agent && last.scope == scope then Some(last)
      else ChangeFor(changes[..|changes| - 1], agent, scope)
  }

  /** `None` where the source raises: a change made from another weight, or for no entry. */
  function Replaced(entries: seq<Entry>, changes: seq<Change>): Option<seq<Entry>>
  {
    if entries == [] then Some([])
    else
      var before, entry := Replaced(entries[..|entries| - 1], changes), entries[|entries| - 1];
      if before.None? then None
      else
        var change := ChangeFor(changes, entry.agentId, entry.scope);
        if change.None? then Some(before.value + [entry])
        else if change.value.current != entry.weight then None
        else Some(before.value + [Entry(entry.agentId, entry.scope, change.value.proposed)])
  }

  predicate Declared(entries: seq<Entry>, x: Change)
  {
    exists e :: e in entries && e.agentId == x.agentId && e.scope == x.scope
  }

  predicate AllDeclared(entries: seq<Entry>, changes: seq<Change>)
  {
    forall x :: x in changes ==> Declared(entries, x)
  }

  function ApplyChanges(entries: seq<Entry>, changes: seq<Change>): Option<seq<Entry>>
  {
    var replaced := Replaced(entries, changes);
    if replaced.None? || !AllDeclared(entries, changes) then None else replaced
  }

  /** The source's loop. */
  method ApplyChangesLoop(base: seq<Entry>, changes: seq<Change>) returns (entries: Option<seq<Entry>>)
    ensures entries == ApplyChanges(base, changes)
  {
    var result: seq<Entry> := [];
    for i := 0 to |base|
      invariant Replaced(base[..i], changes) == Some(result)
    {
      assert base[..i + 1][..i] == base[..i];
      var entry := base[i];
      var change := ChangeFor(changes, entry.agentId, entry.scope);
      if change.Some? && change.value.current != entry.weight {
        StaysRaised(base, changes, i + 1);
        return None;
      }
      result := result + [if change.None? then entry else Entry(entry.agentId, entry.scope, change.value.proposed)];
    }
    assert base[..|base|] == base;
    return if AllDeclared(base, changes) then Some(result) else None;
  }

  lemma {:induction false} StaysRaised(base: seq<Entry>, changes: seq<Change>, n: nat)
    requires n <= |base| && Replaced(base[..n], changes).None?
    ensures Replaced(base, changes).None?
    decreases |base| - n
  {
    if n == |base| {
      assert base[..n] == base;
    } else {
      assert base[..n + 1][..n] == base[..n];
      StaysRaised(base, changes, n + 1);
    }
  }

  /** What applying changes does to one entry. */
  ghost predicate Follows(e: Entry, f: Entry, changes: seq<Change>)
  {
    && f.agentId == e.agentId && f.scope == e.scope
    && var change := ChangeFor(changes, e.agentId, e.scope);
       if change.None? then f == e else change.value.current == e.weight && f.weight == change.value.proposed
  }

  /** Entry by entry: same identities in the same order, every declared change made from the weight
      it names, every other entry untouched. */
  lemma {:induction false} ReplacedFollows(entries: seq<Entry>, changes: seq<Change>)
    requires Replaced(entries, changes).Some?
    ensures var r := Replaced(entries, changes).value;
      |r| == |entries| && forall i :: 0 <= i < |r| ==> Follows(entries[i], r[i], changes)
  {
    if entries != [] {
      var n := |entries| - 1;
      ReplacedFollows(entries[..n], changes);
      var r, before := Replaced(entries, changes).value, Replaced(entries[..n], changes).value;
      forall i | 0 <= i < |r|
        ensures Follows(entries[i], r[i], changes)
      {
        if i < n {
          assert Follows(entries[..n][i], before[i], changes);
        }
      }
    }
  }

  lemma UniqueKept(entries: seq<Entry>, changes: seq<Change>)
    requires ApplyChanges(entries, changes).Some? && UniqueEntries(entries)
    ensures UniqueEntries(ApplyChanges(entries, changes).value)
  {
    ReplacedFollows(entries, changes);
    var r := ApplyChanges(entries, changes).value;
    forall i, j | 0 <= i < j < |r|
      ensures r[i].agentId != r[j].agentId || r[i].scope != r[j].scope
    {
      assert Follows(entries[i], r[i], changes) && Follows(entries[j], r[j], changes);
    }
  }

  function Halved(x: Change): Change
  {
    x.(proposed := AdaptiveWeight((x.current.longTerm + x.proposed.longTerm) / 2.0,
                                  (x.current.recent + x.proposed.recent) / 2.0,
                                  x.proposed.recentMix))
  }

  function ReducedChanges(changes: seq<Change>): (r: seq<Change>)
    ensures |r| == |changes|
    ensures forall i :: 0 <= i < |r| ==> r[i] == Halved(changes[i])
  {
    seq(|changes|, i requires 0 <= i < |changes| => Halved(changes[i]))
  }

  lemma {:induction false} HalvedChangeFor(changes: seq<Change>, agent: int, scope: Scope)
    ensures ChangeFor(ReducedChanges(changes), agent, scope).Some? <==> ChangeFor(changes, agent, scope).Some?
    ensures ChangeFor(changes, agent, scope).Some? ==>
      ChangeFor(ReducedChanges(changes), agent, scope).value == Halved(ChangeFor(changes, agent, scope).value)
  {
    if changes != [] {
      var n := |changes| - 1;
      HalvedChangeFor(changes[..n], agent, scope);
      assert ReducedChanges(changes)[..n] == ReducedChanges(changes[..n]);
    }
  }
}
