/** The weight store: immutable generations, one active, and a crash possible between any writes. */
module WeightStore {
  import opened Sequences
  import opened Trading
  import opened Profiles

  /** Generation identities carry four digits. */
  const LAST_GENERATION: nat := 9999

  datatype Profile = Profile(generation: nat, parent: Option<nat>, createdAt: int, entries: seq<Entry>, scoring: int)

  datatype StoreState = StoreState(profiles: map<nat, Profile>, active: Option<nat>)

  const EMPTY_STORE := StoreState(map[], None)

  /** What a promotion is handed: the base it believes active, the proposal's and the result's own
      ideas of the base, whether the result is the proposal's, and the verdict. */
  datatype Promotion = Promotion(
    base: Profile, proposalBase: nat, resultBase: nat, sameProposal: bool, rejected: bool,
    accepted: seq<Change>, evaluatedAt: int, scoring: int)

  datatype Operation =
    | Initialize(profile: Profile)
    | Promote(promotion: Promotion)
    | Rollback(target: nat)

  /** `Crashed`: the process died between two writes. */
  datatype Ending = Completed | Refused | Crashed

  datatype Effect = Effect(state: StoreState, ending: Ending)

  function NextGeneration(profiles: map<nat, Profile>): nat
  {
    var keys := SortedInts(profiles.Keys);
    if keys == [] then 0
    else
      assert keys[|keys| - 1] in keys;
      keys[|keys| - 1] + 1
  }

  /** Strict ancestors of a generation. */
  function Ancestors(profiles: map<nat, Profile>, g: nat): set<nat>
    requires ParentsBefore(profiles) && g in profiles
    decreases g
  {
    if profiles[g].parent.None? then {}
    else {profiles[g].parent.value} + Ancestors(profiles, profiles[g].parent.value)
  }

  predicate ParentsBefore(profiles: map<nat, Profile>)
  {
    forall g :: g in profiles && profiles[g].parent.Some? ==> profiles[g].parent.value in profiles && profiles[g].parent.value < g
  }

  /** `writes` files are replaced before the process dies, if it needs more than that. */
  function Initialized(s: StoreState, p: Profile, writes: nat): Effect
    requires s.active.Some? ==> s.active.value in s.profiles
  {
    if p.generation != 0 || p.parent.Some? then Effect(s, Refused)
    else if 0 in s.profiles && s.profiles[0] != p then Effect(s, Refused)
    else if 0 !in s.profiles && writes == 0 then Effect(s, Crashed)
    else
      var written := s.(profiles := s.profiles[0 := p]);
      if s.active.Some? then Effect(written, if written.profiles[s.active.value] == p then Completed else Refused)
      else if writes == (if 0 in s.profiles then 0 else 1) then Effect(written, Crashed)
      else Effect(written.(active := Some(0)), Completed)
  }

  function Promoted(s: StoreState, x: Promotion, writes: nat): Effect
    requires s.active.Some? ==> s.active.value in s.profiles
  {
    if s.active.None? || s.profiles[s.active.value] != x.base then Effect(s, Refused)
    else if x.proposalBase != x.base.generation || x.resultBase != x.base.generation || !x.sameProposal then Effect(s, Refused)
    else if x.rejected then Effect(s, Refused)
    else
      var entries, generation := ApplyChanges(x.base.entries, x.accepted), NextGeneration(s.profiles);
      if entries.None? || generation > LAST_GENERATION || generation in s.profiles then Effect(s, Refused)
      else if writes == 0 then Effect(s, Crashed)
      else
        var profile := Profile(generation, Some(x.base.generation), x.evaluatedAt, entries.value, x.scoring);
        var written := s.(profiles := s.profiles[generation := profile]);
        if writes == 1 then Effect(written, Crashed) else Effect(written.(active := Some(generation)), Completed)
  }

  function RolledBack(s: StoreState, target: nat, writes: nat): Effect
    requires ParentsBefore(s.profiles) && (s.active.Some? ==> s.active.value in s.profiles)
  {
    if target !in s.profiles || s.active.None? then Effect(s, Refused)
    else if target !in Ancestors(s.profiles, s.active.value) then Effect(s, Refused)
    else if writes == 0 then Effect(s, Crashed)
    else Effect(s.(active := Some(target)), Completed)
  }

  function Apply(s: StoreState, op: Operation, writes: nat): Effect
    requires ParentsBefore(s.profiles) && (s.active.Some? ==> s.active.value in s.profiles)
  {
    match op
    case Initialize(p) => Initialized(s, p, writes)
    case Promote(x) => Promoted(s, x, writes)
    case Rollback(g) => RolledBack(s, g, writes)
  }

  // ---- what every step keeps ----

  ghost predicate StoreValid(s: StoreState)
  {
    && ParentsBefore(s.profiles)
    && (s.active.Some? ==> s.active.value in s.profiles)
    && (forall g :: g in s.profiles ==>
          s.profiles[g].generation == g <= LAST_GENERATION && (s.profiles[g].parent.None? <==> g == 0))
  }

  /** No generation is lost or changed. */
  ghost predicate Extends(before: StoreState, after: StoreState)
  {
    forall g :: g in before.profiles ==> g in after.profiles && after.profiles[g] == before.profiles[g]
  }

  lemma NextIsFresh(profiles: map<nat, Profile>)
    ensures forall g :: g in profiles ==> g < NextGeneration(profiles)
  {
    var keys := SortedInts(profiles.Keys);
    forall g | g in profiles
      ensures g < NextGeneration(profiles)
    {
      assert g in keys;
      var i :| 0 <= i < |keys| && keys[i] == g;
      assert i < |keys| - 1 ==> Below(keys[i], keys[|keys| - 1]);
    }
  }

  lemma {:induction false} AncestorsAreBefore(profiles: map<nat, Profile>, g: nat)
    requires ParentsBefore(profiles) && g in profiles
    ensures forall a :: a in Ancestors(profiles, g) ==> a in profiles && a < g
    decreases g
  {
    if profiles[g].parent.Some? {
      AncestorsAreBefore(profiles, profiles[g].parent.value);
    }
  }

  lemma StepKeepsStore(s: StoreState, op: Operation, writes: nat)
    requires StoreValid(s)
    ensures StoreValid(Apply(s, op, writes).state) && Extends(s, Apply(s, op, writes).state)
  {
    hide StoreValid, Initialized, Promoted, RolledBack;
    match op
    case Initialize(p) => InitializeKeeps(s, p, writes);
    case Promote(x) => PromoteKeeps(s, x, writes);
    case Rollback(g) => RollbackKeeps(s, g, writes);
  }

  lemma InitializeKeeps(s: StoreState, p: Profile, writes: nat)
    requires StoreValid(s)
    ensures StoreValid(Initialized(s, p, writes).state) && Extends(s, Initialized(s, p, writes).state)
  {
  }

  lemma PromoteKeeps(s: StoreState, x: Promotion, writes: nat)
    requires StoreValid(s)
    ensures StoreValid(Promoted(s, x, writes).state) && Extends(s, Promoted(s, x, writes).state)
  {
    hide ApplyChanges, NextGeneration;
    NextIsFresh(s.profiles);
  }

  lemma RollbackKeeps(s: StoreState, target: nat, writes: nat)
    requires StoreValid(s)
    ensures StoreValid(RolledBack(s, target, writes).state) && Extends(s, RolledBack(s, target, writes).state)
  {
    hide Ancestors;
  }

  /** Promotion takes a number above every generation ever written, also after a rollback, and makes
      it active with the previous active generation as its parent. */
  lemma PromotionIsFresh(s: StoreState, x: Promotion, writes: nat)
    requires StoreValid(s)
    ensures var e := Apply(s, Promote(x), writes);
      && (e.ending.Completed? ==>
            s.active.Some? && e.state.active.Some? && e.state.active.value !in s.profiles
            && (forall g :: g in s.profiles ==> g < e.state.active.value)
            && e.state.profiles[e.state.active.value].parent == s.active
            && ApplyChanges(s.profiles[s.active.value].entries, x.accepted) == Some(e.state.profiles[e.state.active.value].entries))
      && (!e.ending.Completed? ==> e.state.active == s.active)
      && (x.rejected ==> e.state == s)
  {
    NextIsFresh(s.profiles);
    StepKeepsStore(s, Promote(x), writes);
  }

  /** A rollback moves the active generation to a strict ancestor, or moves nothing; it never writes
      a profile. */
  lemma RollbackGoesBack(s: StoreState, target: nat, writes: nat)
    requires StoreValid(s)
    ensures var e := Apply(s, Rollback(target), writes);
      && e.state.profiles == s.profiles
      && (e.ending.Completed? ==>
            s.active.Some? && target in Ancestors(s.profiles, s.active.value) && target < s.active.value
            && e.state.active == Some(target))
      && (!e.ending.Completed? ==> e.state == s)
  {
    if target in s.profiles && s.active.Some? {
      AncestorsAreBefore(s.profiles, s.active.value);
    }
  }

  datatype Attempt = Attempt(op: Operation, writes: nat)

  function RunStore(s: StoreState, attempts: seq<Attempt>): (r: StoreState)
    requires StoreValid(s)
    ensures StoreValid(r)
  {
    if attempts == [] then s
    else
      var before, last := RunStore(s, attempts[..|attempts| - 1]), attempts[|attempts| - 1];
      StepKeepsStore(before, last.op, last.writes);
      Apply(before, last.op, last.writes).state
  }

  /** Over every run, whatever is attempted and wherever the process dies: every generation once
      written stays what it was, every parent is there with a smaller number, and the active
      generation resolves. */
  lemma {:induction false} GenerationsAreImmutable(s: StoreState, attempts: seq<Attempt>, n: nat)
    requires StoreValid(s) && n <= |attempts|
    ensures StoreValid(RunStore(s, attempts)) && Extends(RunStore(s, attempts[..n]), RunStore(s, attempts))
    decreases |attempts|
  {
    hide Apply, StoreValid;
    if n == |attempts| {
      assert attempts[..n] == attempts;
    } else {
      var m := |attempts| - 1;
      GenerationsAreImmutable(s, attempts[..m], n);
      assert attempts[..m][..n] == attempts[..n];
      StepKeepsStore(RunStore(s, attempts[..m]), attempts[m].op, attempts[m].writes);
    }
  }

  /** A crash is harmless: trying the same promotion again completes it, under the next number. */
  lemma CrashedPromotionCanBeRepeated(s: StoreState, x: Promotion)
    requires StoreValid(s) && Apply(s, Promote(x), 1).ending.Crashed?
    ensures var crashed := Apply(s, Promote(x), 1).state;
      && StoreValid(crashed) && crashed.active == s.active
      && (NextGeneration(s.profiles) < LAST_GENERATION ==>
            Apply(crashed, Promote(x), 2).ending.Completed?
            && Apply(crashed, Promote(x), 2).state.active == Some(NextGeneration(s.profiles) + 1))
  {
    hide ApplyChanges, NextGeneration, StoreValid, Promoted, Initialized, RolledBack, Extends, Allowed;
    StoreIsSound(s);
    CrashLeaves(s, x);
    var crashed := Apply(s, Promote(x), 1).state;
    StepKeepsStore(s, Promote(x), 1);
    StoreIsSound(crashed);
    NextIsFresh(crashed.profiles);
    AfterNext(s.profiles, crashed.profiles);
    if NextGeneration(s.profiles) < LAST_GENERATION {
      PromotesWhenAllowed(crashed, x);
    }
  }

  lemma StoreIsSound(s: StoreState)
    requires StoreValid(s)
    ensures ParentsBefore(s.profiles) && (s.active.Some? ==> s.active.value in s.profiles)
  {
  }

  /** What a promotion needs of the store and of its own parts. */
  predicate Allowed(s: StoreState, x: Promotion)
    requires s.active.Some? ==> s.active.value in s.profiles
  {
    && s.active.Some? && s.profiles[s.active.value] == x.base
    && x.proposalBase == x.base.generation && x.resultBase == x.base.generation && x.sameProposal && !x.rejected
    && ApplyChanges(x.base.entries, x.accepted).Some?
  }

  lemma CrashLeaves(s: StoreState, x: Promotion)
    requires StoreValid(s) && Apply(s, Promote(x), 1).ending.Crashed?
    ensures var crashed := Apply(s, Promote(x), 1).state;
      && crashed.active == s.active && Allowed(s, x)
      && NextGeneration(s.profiles) !in s.profiles
      && crashed.profiles.Keys == s.profiles.Keys + {NextGeneration(s.profiles)}
      && Extends(s, crashed) && (crashed.active.Some? ==> crashed.active.value in crashed.profiles) && Allowed(crashed, x)
  {
    hide ApplyChanges, NextGeneration;
  }

  lemma PromotesWhenAllowed(s: StoreState, x: Promotion)
    requires StoreValid(s) && ParentsBefore(s.profiles) && (s.active.Some? ==> s.active.value in s.profiles)
    requires Allowed(s, x) && NextGeneration(s.profiles) <= LAST_GENERATION && NextGeneration(s.profiles) !in s.profiles
    ensures Apply(s, Promote(x), 2).ending.Completed?
    ensures Apply(s, Promote(x), 2).state.active == Some(NextGeneration(s.profiles))
  {
    hide ApplyChanges, NextGeneration, StoreValid, ParentsBefore;
  }

  lemma AfterNext(profiles: map<nat, Profile>, more: map<nat, Profile>)
    requires NextGeneration(profiles) !in profiles
    requires more.Keys == profiles.Keys + {NextGeneration(profiles)}
    ensures NextGeneration(more) == NextGeneration(profiles) + 1
  {
    var g, keys := NextGeneration(profiles), SortedInts(more.Keys);
    NextIsFresh(profiles);
    NextIsFresh(more);
    assert g in keys;
    assert keys[|keys| - 1] in keys;
  }

  // ---- the store itself ----

  class WeightProfileStore {
    var profiles: map<nat, Profile>
    var active: Option<nat>

    constructor ()
      ensures State() == EMPTY_STORE && StoreValid(State())
    {
      profiles, active := map[], None;
    }

    function State(): StoreState
      reads this
    {
      StoreState(profiles, active)
    }

    method Initialize(profile: Profile, writes: nat) returns (ending: Ending)
      requires StoreValid(State())
      modifies this
      ensures Effect(State(), ending) == Apply(old(State()), Operation.Initialize(profile), writes)
      ensures StoreValid(State())
    {
      StepKeepsStore(State(), Operation.Initialize(profile), writes);
      if profile.generation != 0 || profile.parent.Some? {
        return Refused;
      }
      var left := writes;
      if 0 in profiles {
        if profiles[0] != profile {
          return Refused;
        }
        assert profiles == profiles[0 := profile];
      } else {
        if left == 0 {
          return Crashed;
        }
        profiles := profiles[0 := profile];
        left := left - 1;
      }
      if active.Some? {
        return if profiles[active.value] == profile then Completed else Refused;
      }
      if left == 0 {
        return Crashed;
      }
      active := Some(0);
      return Completed;
    }

    method Promote(x: Promotion, writes: nat) returns (ending: Ending)
      requires StoreValid(State())
      modifies this
      ensures Effect(State(), ending) == Apply(old(State()), Operation.Promote(x), writes)
      ensures StoreValid(State())
    {
      StepKeepsStore(State(), Operation.Promote(x), writes);
      if active.None? || profiles[active.value] != x.base {
        return Refused;
      }
      if x.proposalBase != x.base.generation || x.resultBase != x.base.generation || !x.sameProposal || x.rejected {
        return Refused;
      }
      var generation := NextGeneration(profiles);
      var entries := ApplyChangesLoop(x.base.entries, x.accepted);
      if entries.None? || generation > LAST_GENERATION || generation in profiles {
        return Refused;
      }
      if writes == 0 {
        return Crashed;
      }
      profiles := profiles[generation := Profile(generation, Some(x.base.generation), x.evaluatedAt, entries.value, x.scoring)];
      if writes == 1 {
        return Crashed;
      }
      active := Some(generation);
      return Completed;
    }

    /** The walk up the parents ends because every parent has a smaller number. */
    method Rollback(target: nat, writes: nat) returns (ending: Ending)
      requires StoreValid(State())
      modifies this
      ensures Effect(State(), ending) == Apply(old(State()), Operation.Rollback(target), writes)
      ensures StoreValid(State())
    {
      StepKeepsStore(State(), Operation.Rollback(target), writes);
      if target !in profiles || active.None? {
        return Refused;
      }
      var ancestors: set<nat> := {};
      var cursor := active.value;
      while profiles[cursor].parent.Some?
        invariant State() == old(State()) && active.Some? && cursor in profiles
        invariant ancestors + Ancestors(profiles, cursor) == Ancestors(profiles, active.value)
        decreases cursor
      {
        ancestors := ancestors + {profiles[cursor].parent.value};
        cursor := profiles[cursor].parent.value;
      }
      if target !in ancestors {
        return Refused;
      }
      if writes == 0 {
        return Crashed;
      }
      active := Some(target);
      return Completed;
    }
  }
}
