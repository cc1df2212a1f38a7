/** Experiments over all runs and crashes: what every stored record has been through, what the oracle
    was shown, and exactly which overlaps of runs and creations can undo it. */
module ExperimentRuns {
  import opened Sequences
  import opened Experiments

  datatype System = System(store: map<int, Record>, runners: map<int, Runner>, calls: seq<OracleCall>)

  /** `who` stands for a thread or process: it does one thing at a time. */
  datatype Action =
    | Create(who: int, request: Request)
    | Start(who: int, id: int)
    | Go(who: int, answer: Answer)
    | Crash(who: int)

  const EMPTY := System(map[], map[], [])

  /** The first half of the source's `create`: a record that is there is returned; otherwise a new one
      is about to be saved. */
  function LookedUp(s: System, who: int, request: Request): System
  {
    if who in s.runners || request.id in s.store then s
    else s.(runners := s.runners[who := Busy(SavingNew, NewRecord(request))])
  }

  predicate Starts(s: System, who: int, id: int)
  {
    who !in s.runners && id in s.store && s.store[id].state.Created?
  }

  function Started(s: System, who: int, id: int): System
  {
    if Starts(s, who, id) then s.(runners := s.runners[who := Busy(Building, s.store[id])]) else s
  }

  function Gone(s: System, who: int, a: Answer): System
  {
    if who !in s.runners || s.runners[who].Idle? then s
    else
      var p := Advance(s.store, s.runners[who], a);
      System(p.store, if p.runner.Idle? then s.runners - {who} else s.runners[who := p.runner],
             if p.call.Some? then s.calls + [p.call.value] else s.calls)
  }

  function Step(s: System, a: Action): System
  {
    match a
    case Create(who, request) => LookedUp(s, who, request)
    case Start(who, id) => Started(s, who, id)
    case Go(who, answer) => Gone(s, who, answer)
    case Crash(who) => s.(runners := s.runners - {who})
  }

  // ---- what a record has been through ----

  predicate HasLocked(lifecycle: seq<LifecycleEvent>)
  {
    exists i :: 0 <= i < |lifecycle| && lifecycle[i].state.ForecastLocked?
  }

  /** A valid record on a path of the table from its start, whose end is the record's state; a forecast
      exactly when the path has been through the lock, and nothing at all at the start. */
  ghost predicate OnPath(r: Record)
  {
    && ValidRecord(r) && (r.state.Created? ==> r == NewRecord(r.request))
    && r.lifecycle != [] && r.lifecycle[0].state.Created? && r.lifecycle[|r.lifecycle| - 1].state == r.state
    && (forall i :: 0 <= i < |r.lifecycle| - 1 ==> Allowed(r.lifecycle[i].state, r.lifecycle[i + 1].state))
    && (r.forecast.Some? <==> HasLocked(r.lifecycle))
  }

  ghost predicate StoreOk(store: map<int, Record>)
  {
    forall id :: id in store ==> store[id].request.id == id && OnPath(store[id])
  }

  /** How far a run's own record is ahead of the stored one. */
  predicate StageFits(stage: Stage, mine: Record, stored: Record)
  {
    match stage
    case SavingNew => false
    case Building => mine == stored && mine.state.Created?
    case SavingContext => mine.state.ContextReady? && stored.state.Created?
    case SavingForecasting => mine.state.Forecasting? && stored.state.ContextReady?
    case Predicting => mine == stored && mine.state.Forecasting?
    case SavingLock => mine.state.ForecastLocked? && stored.state.Forecasting?
    case Rereading => mine == stored && mine.state.ForecastLocked?
    case SavingEvaluating => mine.state.Evaluating? && stored.state.ForecastLocked?
    case Consulting => mine == stored && mine.state.Evaluating?
    case SavingResult =>
      Final(mine.state) && !Final(stored.state) && (stored.state.Created? ==> mine.state.Failed? && mine.forecast.None?)
  }

  ghost predicate Ahead(mine: Record, stored: Record)
  {
    && OnPath(mine) && mine.request == stored.request && stored.lifecycle <= mine.lifecycle
    && (stored.forecast.Some? ==> mine.forecast == stored.forecast)
  }

  ghost predicate RunnerOk(store: map<int, Record>, b: Runner)
  {
    && b.Busy? && b.record.request.id in store
    && Ahead(b.record, store[b.record.request.id]) && StageFits(b.stage, b.record, store[b.record.request.id])
  }

  /** A creation that has yet to save its record. */
  predicate Creating(b: Runner)
  {
    b.Busy? && b.stage.SavingNew? && b.record == NewRecord(b.record.request)
  }

  predicate RunsNow(b: Runner, id: int) { b.Busy? && !b.stage.SavingNew? && b.record.request.id == id }

  /** No two runs of the same experiment at once. */
  ghost predicate Apart(runners: map<int, Runner>)
  {
    forall x, y, id :: x in runners && y in runners && RunsNow(runners[x], id) && RunsNow(runners[y], id) ==> x == y
  }

  /** The oracle was called only when the repository already held an evaluating record with the very
      forecast the run had locked. */
  ghost predicate CallOk(call: OracleCall)
  {
    && call.stored.Some? && call.stored.value.state.Evaluating?
    && call.forecast.Some? && call.stored.value.forecast == call.forecast
  }

  ghost predicate Invariant(s: System)
  {
    && StoreOk(s.store)
    && (forall who :: who in s.runners ==> Creating(s.runners[who]) || RunnerOk(s.store, s.runners[who]))
    && Apart(s.runners)
    && (forall i :: 0 <= i < |s.calls| ==> CallOk(s.calls[i]))
  }

  // ---- transitions keep the path ----

  lemma LockedGrows(lifecycle: seq<LifecycleEvent>, e: LifecycleEvent)
    ensures HasLocked(lifecycle + [e]) <==> HasLocked(lifecycle) || e.state.ForecastLocked?
  {
    var all := lifecycle + [e];
    if HasLocked(lifecycle) {
      var i :| 0 <= i < |lifecycle| && lifecycle[i].state.ForecastLocked?;
      assert all[i].state.ForecastLocked?;
    }
    if e.state.ForecastLocked? {
      assert all[|lifecycle|].state.ForecastLocked?;
    }
  }

  /** One allowed step that brings a forecast exactly when it locks. */
  lemma TransitionStaysOnPath(r: Record, to: ExperimentState, at: int, u: Updates)
    requires OnPath(r) && Transition(r, to, at, u).Some?
    requires u.forecast.Some? <==> to.ForecastLocked?
    ensures OnPath(Transition(r, to, at, u).value)
    ensures var n := Transition(r, to, at, u).value;
      && n.state == to && n.request == r.request && r.lifecycle <= n.lifecycle && n.lifecycle != r.lifecycle
      && (u.forecast.None? ==> n.forecast == r.forecast)
  {
    LockedGrows(r.lifecycle, LifecycleEvent(to, at));
  }

  lemma NewIsOnPath(request: Request)
    ensures OnPath(NewRecord(request)) && NewRecord(request).request == request
  {
  }

  // ---- one step of one run ----

  lemma AheadOfNext(store: map<int, Record>, b: Runner, to: ExperimentState, at: int, u: Updates, stage: Stage)
    requires RunnerOk(store, b) && (u.forecast.Some? <==> to.ForecastLocked?)
    requires u.forecast.None? || store[b.record.request.id].forecast.None?
    requires Transition(b.record, to, at, u).Some?
    ensures var n := Transition(b.record, to, at, u).value;
      n.request == b.record.request && n.state == to && Ahead(n, store[n.request.id])
  {
    hide StageFits, Transition;
    TransitionStaysOnPath(b.record, to, at, u);
  }

  /** The failure handler leaves a record that is final and still ahead. */
  lemma FailingFits(store: map<int, Record>, b: Runner)
    requires RunnerOk(store, b) && !Final(store[b.record.request.id].state)
    ensures var p := Failing(store, b.record);
      p.store == store && p.call.None?
      && (p.runner.Busy? ==> p.runner.record.request == b.record.request && RunnerOk(store, p.runner))
  {
    hide Transition, OnPath;
    PathNotEmpty(b.record);
    OwnPath(store, b);
    var r := b.record;
    var at := r.lifecycle[|r.lifecycle| - 1].at;
    if store[r.request.id].state.Created? {
      NewHasNoForecast(store, b);
    }
    if Transition(r, Failed, at, NO_UPDATES).Some? {
      AheadOfNext(store, b, Failed, at, NO_UPDATES, SavingResult);
      TransitionStaysOnPath(r, Failed, at, NO_UPDATES);
    }
  }

  /** A run whose experiment is stored as new has no forecast yet. */
  lemma NewHasNoForecast(store: map<int, Record>, b: Runner)
    requires RunnerOk(store, b) && store[b.record.request.id].state.Created?
    ensures b.record.forecast.None? && (b.stage.Building? || b.stage.SavingContext? || b.stage.SavingResult?)
  {
  }

  lemma OwnPath(store: map<int, Record>, b: Runner)
    requires RunnerOk(store, b)
    ensures OnPath(b.record)
  {
  }

  lemma PathNotEmpty(r: Record)
    requires OnPath(r)
    ensures r.lifecycle != []
  {
  }

  lemma OnwardFits(store: map<int, Record>, b: Runner, to: ExperimentState, at: int, u: Updates, stage: Stage)
    requires RunnerOk(store, b) && (u.forecast.Some? <==> to.ForecastLocked?) && !Final(store[b.record.request.id].state)
    requires u.forecast.None? || store[b.record.request.id].forecast.None?
    requires forall n: Record {:trigger StageFits(stage, n, store[b.record.request.id])} ::
      n.state == to ==> StageFits(stage, n, store[b.record.request.id])
    ensures var p := Onward(store, b.record, Transition(b.record, to, at, u), stage);
      p.store == store && p.call.None?
      && (p.runner.Busy? ==> p.runner.record.request == b.record.request && RunnerOk(store, p.runner))
  {
    hide Transition, OnPath, Ahead, StageFits, Failing;
    FailingFits(store, b);
    if Transition(b.record, to, at, u).Some? {
      AheadOfNext(store, b, to, at, u, stage);
    }
  }

  /** Saving the record a run is about to save always succeeds when the storage does, and leaves the
      run level with the store. */
  lemma SavingFits(store: map<int, Record>, b: Runner)
    requires StoreOk(store) && RunnerOk(store, b)
    ensures Saved(store, b.record) == Some(store[b.record.request.id := b.record])
    ensures StoreOk(store[b.record.request.id := b.record])
    ensures Ahead(b.record, b.record)
  {
    hide StageFits, OnPath;
  }

  /** What one step may do to the store: nothing, or move one record along its own path. */
  ghost predicate MovesOn(before: map<int, Record>, after: map<int, Record>, id: int)
  {
    && id in before && id in after && after == before[id := after[id]]
    && after[id].request == before[id].request && before[id].lifecycle <= after[id].lifecycle
    && (before[id].forecast.Some? ==> after[id].forecast == before[id].forecast)
    && (Final(before[id].state) ==> after[id] == before[id])
  }

  lemma StaysPut(store: map<int, Record>, id: int)
    requires id in store
    ensures MovesOn(store, store, id)
  {
  }

  ghost predicate StepOk(before: map<int, Record>, p: Progress, request: Request)
  {
    && StoreOk(p.store) && MovesOn(before, p.store, request.id)
    && (p.runner.Busy? ==> p.runner.record.request == request && RunnerOk(p.store, p.runner))
    && (p.call.Some? ==> CallOk(p.call.value))
  }

  lemma SavedMovesOn(store: map<int, Record>, b: Runner)
    requires StoreOk(store) && RunnerOk(store, b) && !Final(store[b.record.request.id].state)
    ensures MovesOn(store, store[b.record.request.id := b.record], b.record.request.id)
  {
    hide StageFits, OnPath;
  }

  lemma NotFinal(store: map<int, Record>, b: Runner)
    requires RunnerOk(store, b)
    ensures !Final(store[b.record.request.id].state)
  {
    hide OnPath;
  }

  lemma FailStep(store: map<int, Record>, b: Runner)
    requires StoreOk(store) && RunnerOk(store, b)
    ensures StepOk(store, Failing(store, b.record), b.record.request)
  {
    hide OnPath, StageFits, Failing, MovesOn, StoreOk, RunnerOk;
    NotFinal(store, b);
    FailingFits(store, b);
    InStore(store, b);
    StaysPut(store, b.record.request.id);
  }

  lemma InStore(store: map<int, Record>, b: Runner)
    requires RunnerOk(store, b)
    ensures b.Busy? && b.record.request.id in store && Ahead(b.record, store[b.record.request.id])
    ensures StageFits(b.stage, b.record, store[b.record.request.id])
  {
  }

  lemma Level(store: map<int, Record>, b: Runner, stage: Stage)
    requires StoreOk(store) && RunnerOk(store, b) && StageFits(stage, b.record, b.record)
    ensures var after := store[b.record.request.id := b.record];
      StoreOk(after) && RunnerOk(after, Busy(stage, b.record)) && MovesOn(store, after, b.record.request.id)
  {
    hide OnPath, StageFits;
    NotFinal(store, b);
    SavingFits(store, b);
    SavedMovesOn(store, b);
  }

  lemma BuildingStep(store: map<int, Record>, b: Runner, a: Answer)
    requires StoreOk(store) && RunnerOk(store, b) && b.stage.Building?
    ensures StepOk(store, Advance(store, b, a), b.record.request)
  {
    hide OnPath, Failing, MovesOn, StoreOk, Transition, Onward, Ahead;
    FailStep(store, b);
    var r := b.record;
    OnwardFits(store, b, ContextReady, r.request.evaluationTime, NO_UPDATES.(context := Some(a.context)), SavingContext);
    StaysPut(store, r.request.id);
  }

  lemma PredictingStep(store: map<int, Record>, b: Runner, a: Answer)
    requires StoreOk(store) && RunnerOk(store, b) && b.stage.Predicting?
    ensures StepOk(store, Advance(store, b, a), b.record.request)
  {
    hide OnPath, Failing, MovesOn, StoreOk, Transition, Onward, Ahead;
    FailStep(store, b);
    var r := b.record;
    NoForecastYet(store, b);
    OnwardFits(store, b, ForecastLocked, a.forecast.finalizedAt, NO_UPDATES.(forecast := Some(a.forecast)), SavingLock);
    StaysPut(store, r.request.id);
  }

  /** Before the lock there is no forecast. */
  lemma NoForecastYet(store: map<int, Record>, b: Runner)
    requires RunnerOk(store, b) && b.stage.Predicting?
    ensures store[b.record.request.id].forecast.None?
  {
  }

  lemma SavingContextStep(store: map<int, Record>, b: Runner, a: Answer)
    requires StoreOk(store) && RunnerOk(store, b) && b.stage.SavingContext?
    ensures StepOk(store, Advance(store, b, a), b.record.request)
  {
    hide OnPath, Failing, MovesOn, StoreOk, Transition, Onward, Ahead, Saved;
    FailStep(store, b);
    SavingFits(store, b);
    var r := b.record;
    var after := store[r.request.id := r];
    SavedAhead(store, b);
    NotFinal(store, b);
    SavedMovesOn(store, b);
    ForwardFrom(after, r, Forecasting, r.request.evaluationTime, SavingForecasting);
  }

  lemma SavedAhead(store: map<int, Record>, b: Runner)
    requires StoreOk(store) && RunnerOk(store, b)
    ensures var after := store[b.record.request.id := b.record];
      StoreOk(after) && Ahead(b.record, after[b.record.request.id])
  {
    hide OnPath, StageFits;
  }

  /** After a save, the next transition runs ahead of what has just been stored. */
  lemma ForwardFrom(store: map<int, Record>, r: Record, to: ExperimentState, at: int, stage: Stage)
    requires r.request.id in store && store[r.request.id] == r && Ahead(r, r) && !to.ForecastLocked?
    requires !Final(r.state) && !r.state.Created?
    requires forall n: Record {:trigger StageFits(stage, n, r)} :: n.state == to ==> StageFits(stage, n, r)
    ensures var p := Onward(store, r, Transition(r, to, at, NO_UPDATES), stage);
      p.store == store && p.call.None?
      && (p.runner.Busy? ==> p.runner.record.request == r.request && RunnerOk(store, p.runner))
  {
    hide OnPath, Transition, StageFits;
    ResultFits(r);
    ForwardParts(r, to, at, NO_UPDATES);
    PathNotEmpty(r);
    ForwardParts(r, Failed, r.lifecycle[|r.lifecycle| - 1].at, NO_UPDATES);
  }

  lemma ResultFits(r: Record)
    requires !Final(r.state) && !r.state.Created?
    ensures forall n: Record {:trigger StageFits(SavingResult, n, r)} :: n.state.Failed? ==> StageFits(SavingResult, n, r)
  {
  }

  lemma ForwardParts(r: Record, to: ExperimentState, at: int, u: Updates)
    requires Ahead(r, r) && !to.ForecastLocked? && u.forecast.None?
    ensures Transition(r, to, at, u).Some? ==>
      var n := Transition(r, to, at, u).value; n.state == to && n.request == r.request && Ahead(n, r)
  {
    if Transition(r, to, at, u).Some? {
      TransitionStaysOnPath(r, to, at, u);
    }
  }

  lemma SavingLevelStep(store: map<int, Record>, b: Runner, a: Answer)
    requires StoreOk(store) && RunnerOk(store, b)
    requires b.stage.SavingForecasting? || b.stage.SavingLock? || b.stage.SavingEvaluating?
    ensures StepOk(store, Advance(store, b, a), b.record.request)
  {
    hide OnPath, Failing, MovesOn, StoreOk, Transition, Ahead, Saved;
    FailStep(store, b);
    SavingFits(store, b);
    Level(store, b, if b.stage.SavingForecasting? then Predicting else if b.stage.SavingLock? then Rereading else Consulting);
  }

  lemma RereadingStep(store: map<int, Record>, b: Runner, a: Answer)
    requires StoreOk(store) && RunnerOk(store, b) && b.stage.Rereading?
    ensures StepOk(store, Advance(store, b, a), b.record.request)
  {
    hide OnPath, Failing, MovesOn, StoreOk, Transition, Onward, Ahead;
    FailStep(store, b);
    OnwardFits(store, b, Evaluating, b.record.request.horizonEnd, NO_UPDATES, SavingEvaluating);
    StaysPut(store, b.record.request.id);
  }

  lemma ConsultingStep(store: map<int, Record>, b: Runner, a: Answer)
    requires StoreOk(store) && RunnerOk(store, b) && b.stage.Consulting?
    ensures StepOk(store, Advance(store, b, a), b.record.request)
    ensures Advance(store, b, a).call.Some? && CallOk(Advance(store, b, a).call.value)
  {
    hide OnPath, Failing, MovesOn, StoreOk, Transition, Onward, Ahead;
    var r := b.record;
    FailStep(store, b);
    StaysPut(store, r.request.id);
    EvaluatingHasForecast(store, b);
    OnwardFits(store, b, Failed, r.request.horizonEnd, NO_UPDATES.(outcome := Some(a.outcome)), SavingResult);
    OnwardFits(store, b, Complete, a.evaluation.evaluatedAt,
               NO_UPDATES.(outcome := Some(a.outcome), evaluation := Some(a.evaluation)), SavingResult);
  }

  lemma EvaluatingHasForecast(store: map<int, Record>, b: Runner)
    requires RunnerOk(store, b) && b.stage.Consulting?
    ensures b.record == store[b.record.request.id] && b.record.state.Evaluating? && b.record.forecast.Some?
  {
    var r := b.record;
    var n := |r.lifecycle| - 1;
    assert n > 0;
    assert Allowed(r.lifecycle[n - 1].state, r.lifecycle[n - 1 + 1].state);
    assert r.lifecycle[n - 1].state.ForecastLocked?;
  }

  lemma ResultStep(store: map<int, Record>, b: Runner, a: Answer)
    requires StoreOk(store) && RunnerOk(store, b) && b.stage.SavingResult?
    ensures StepOk(store, Advance(store, b, a), b.record.request)
  {
    hide OnPath, Failing, MovesOn, StoreOk, Transition, Ahead, Saved;
    InStore(store, b);
    NotFinal(store, b);
    SavingFits(store, b);
    SavedMovesOn(store, b);
    StaysPut(store, b.record.request.id);
  }

  lemma AdvanceStep(store: map<int, Record>, b: Runner, a: Answer)
    requires StoreOk(store) && RunnerOk(store, b)
    ensures StepOk(store, Advance(store, b, a), b.record.request)
  {
    hide Advance, StoreOk, RunnerOk, StepOk;
    InStore(store, b);
    match b.stage
    case Building => BuildingStep(store, b, a);
    case SavingContext => SavingContextStep(store, b, a);
    case Predicting => PredictingStep(store, b, a);
    case Rereading => RereadingStep(store, b, a);
    case Consulting => ConsultingStep(store, b, a);
    case SavingResult => ResultStep(store, b, a);
    case _ => SavingLevelStep(store, b, a);
  }

  // ---- one step of the system ----

  /** The stored record of a request, without a forecast, has left its start. */
  predicate MovedOn(store: map<int, Record>, q: Request)
  {
    q.id in store && store[q.id].request == q && store[q.id].forecast.None? && !store[q.id].state.Created?
  }

  /** What may be done when: a run starts only while no other run of that experiment is under way, and a
      creation saves only while the record it would replace has not moved on. */
  ghost predicate Lawful(s: System, a: Action)
  {
    match a
    case Start(who, id) => Starts(s, who, id) ==> forall x :: x in s.runners ==> !RunsNow(s.runners[x], id)
    case Go(who, answer) =>
      who in s.runners && Creating(s.runners[who]) && !answer.fails ==> !MovedOn(s.store, s.runners[who].record.request)
    case Create(_, _) => true
    case Crash(_) => true
  }

  /** Every record moves on along its own path, or stays. */
  ghost predicate AllMoveOn(before: map<int, Record>, after: map<int, Record>)
  {
    forall id :: id in before ==>
      id in after && after[id].request == before[id].request && before[id].lifecycle <= after[id].lifecycle
      && (before[id].forecast.Some? ==> after[id].forecast == before[id].forecast)
      && (Final(before[id].state) ==> after[id] == before[id])
  }

  lemma OtherRunner(before: map<int, Record>, after: map<int, Record>, id: int, b: Runner)
    requires RunnerOk(before, b) && MovesOn(before, after, id) && b.record.request.id != id
    ensures RunnerOk(after, b)
  {
    hide OnPath, StageFits;
  }

  lemma RunGoes(s: System, who: int, a: Answer)
    requires Invariant(s) && who in s.runners && RunnerOk(s.store, s.runners[who])
    ensures Invariant(Gone(s, who, a)) && AllMoveOn(s.store, Gone(s, who, a).store)
  {
    hide Advance, StoreOk, RunnerOk, CallOk, MovesOn;
    var b := s.runners[who];
    BusyRunner(s.store, b);
    AdvanceStep(s.store, b, a);
    var p, n := Advance(s.store, b, a), Gone(s, who, a);
    OneMovesOn(s.store, p.store, b.record.request.id);
    forall other | other in n.runners
      ensures Creating(n.runners[other]) || RunnerOk(n.store, n.runners[other])
    {
      if other != who && !Creating(s.runners[other]) {
        BusyRunner(s.store, s.runners[other]);
        assert RunsNow(s.runners[other], s.runners[other].record.request.id);
        OtherRunner(s.store, p.store, b.record.request.id, s.runners[other]);
      }
    }
    if p.runner.Busy? {
      BusyRunner(p.store, p.runner);
    }
  }

  lemma BusyRunner(store: map<int, Record>, b: Runner)
    requires RunnerOk(store, b)
    ensures b.Busy? && b.record.request.id in store && !b.stage.SavingNew?
  {
  }

  lemma SameMovesOn(store: map<int, Record>)
    ensures AllMoveOn(store, store)
  {
  }

  lemma OneMovesOn(before: map<int, Record>, after: map<int, Record>, id: int)
    requires MovesOn(before, after, id)
    ensures AllMoveOn(before, after)
  {
  }

  /** A save that is allowed either brings a new record or changes nothing. */
  lemma NewIsSaved(store: map<int, Record>, b: Runner, a: Answer)
    requires StoreOk(store) && Creating(b) && (!a.fails ==> !MovedOn(store, b.record.request))
    ensures var p := Advance(store, b, a);
      && p.runner.Idle? && p.call.None?
      && (p.store == store || (b.record.request.id !in store && p.store == store[b.record.request.id := b.record]))
  {
    var q := b.record.request;
    if q.id in store {
      assert OnPath(store[q.id]);
      if store[q.id].state.Created? && store[q.id].request == q {
        assert store[q.id := b.record] == store;
      }
    }
  }

  lemma AnotherRecord(store: map<int, Record>, r: Record, b: Runner)
    requires RunnerOk(store, b) && r.request.id !in store
    ensures RunnerOk(store[r.request.id := r], b)
  {
    hide OnPath, StageFits;
  }

  lemma CreationGoes(s: System, who: int, a: Answer)
    requires Invariant(s) && who in s.runners && Creating(s.runners[who]) && Lawful(s, Go(who, a))
    ensures Invariant(Gone(s, who, a)) && AllMoveOn(s.store, Gone(s, who, a).store)
  {
    hide Advance, RunnerOk, OnPath, CallOk, MovedOn;
    var b, n := s.runners[who], Gone(s, who, a);
    NewIsSaved(s.store, b, a);
    NewIsOnPath(b.record.request);
    forall other | other in n.runners
      ensures Creating(n.runners[other]) || RunnerOk(n.store, n.runners[other])
    {
      if !Creating(s.runners[other]) && n.store != s.store {
        AnotherRecord(s.store, b.record, s.runners[other]);
      }
    }
  }

  lemma StartKeeps(s: System, who: int, id: int)
    requires Invariant(s) && Lawful(s, Start(who, id))
    ensures Invariant(Started(s, who, id)) && AllMoveOn(s.store, Started(s, who, id).store)
  {
    hide OnPath, CallOk;
    if Starts(s, who, id) {
      assert OnPath(s.store[id]);
      assert RunnerOk(s.store, Busy(Building, s.store[id]));
    }
  }

  lemma OthersKeep(s: System, a: Action)
    requires Invariant(s) && (a.Create? || a.Crash?)
    ensures Invariant(Step(s, a)) && AllMoveOn(s.store, Step(s, a).store)
  {
    hide StoreOk, RunnerOk, CallOk;
    SameMovesOn(s.store);
  }

  lemma StepKeepsInvariant(s: System, a: Action)
    requires Invariant(s) && Lawful(s, a)
    ensures Invariant(Step(s, a)) && AllMoveOn(s.store, Step(s, a).store)
  {
    hide StoreOk, RunnerOk, CallOk, Apart, Lawful, Creating;
    match a
    case Start(who, id) => StartKeeps(s, who, id);
    case Go(who, answer) =>
      if who !in s.runners {
        SameMovesOn(s.store);
      } else if Creating(s.runners[who]) {
        CreationGoes(s, who, answer);
      } else {
        RunGoes(s, who, answer);
      }
    case _ => OthersKeep(s, a);
  }

  // ---- every run of the system ----

  function RunSystem(s: System, actions: seq<Action>): System
  {
    if actions == [] then s else Step(RunSystem(s, actions[..|actions| - 1]), actions[|actions| - 1])
  }

  ghost predicate LawfulRun(s: System, actions: seq<Action>)
  {
    actions == []
    || (LawfulRun(s, actions[..|actions| - 1]) && Lawful(RunSystem(s, actions[..|actions| - 1]), actions[|actions| - 1]))
  }

  /** No step leaves a finished record, changes a forecast or shortens a history. */
  ghost predicate Kept(s: System, actions: seq<Action>)
  {
    actions == []
    || (Kept(s, actions[..|actions| - 1]) && AllMoveOn(RunSystem(s, actions[..|actions| - 1]).store, RunSystem(s, actions).store))
  }

  lemma {:induction false} LawfulIsKept(s: System, actions: seq<Action>)
    requires Invariant(s) && LawfulRun(s, actions)
    ensures Invariant(RunSystem(s, actions)) && Kept(s, actions)
  {
    hide Step, Invariant, AllMoveOn, Lawful;
    if actions != [] {
      var m := |actions| - 1;
      LawfulIsKept(s, actions[..m]);
      StepKeepsInvariant(RunSystem(s, actions[..m]), actions[m]);
    }
  }

  lemma {:induction false} KeptMovesOn(s: System, actions: seq<Action>, n: nat)
    requires Kept(s, actions) && n <= |actions|
    ensures AllMoveOn(RunSystem(s, actions[..n]).store, RunSystem(s, actions).store)
  {
    hide Step, AllMoveOn;
    if n == |actions| {
      assert actions[..n] == actions;
      SameMovesOn(RunSystem(s, actions).store);
    } else {
      var m := |actions| - 1;
      KeptMovesOn(s, actions[..m], n);
      assert actions[..m][..n] == actions[..n];
      MovesOnTwice(RunSystem(s, actions[..n]).store, RunSystem(s, actions[..m]).store, RunSystem(s, actions).store);
    }
  }

  /** Over every run, with any number of experiments, creations, failing calls and crashes anywhere, as
      long as no run starts beside another of the same experiment and no creation saves over a record
      that has moved on: every stored record has followed the table from its creation; it holds a
      forecast exactly when it has been locked; forecasts never change, finished experiments are never
      left, histories only grow; and the oracle has only been asked by runs whose locked forecast the
      repository already held, as evaluating. */
  lemma BlindUntilLocked(actions: seq<Action>, n: nat)
    requires LawfulRun(EMPTY, actions) && n <= |actions|
    ensures Invariant(RunSystem(EMPTY, actions))
    ensures AllMoveOn(RunSystem(EMPTY, actions[..n]).store, RunSystem(EMPTY, actions).store)
  {
    hide Invariant, AllMoveOn;
    EmptyIsFine();
    LawfulIsKept(EMPTY, actions);
    KeptMovesOn(EMPTY, actions, n);
  }

  lemma EmptyIsFine()
    ensures Invariant(EMPTY) && AllMoveOn(EMPTY.store, EMPTY.store)
  {
  }

  lemma MovesOnTwice(a: map<int, Record>, b: map<int, Record>, c: map<int, Record>)
    requires AllMoveOn(a, b) && AllMoveOn(b, c)
    ensures AllMoveOn(a, c)
  {
  }

  // ---- the service's own run is a run of the system ----

  lemma {:induction false} FirstThenRest(s: System, first: Action, rest: seq<Action>)
    ensures RunSystem(s, [first] + rest) == RunSystem(Step(s, first), rest)
    decreases |rest|
  {
    hide Step;
    var all := [first] + rest;
    if rest == [] {
      assert all[..0] == [];
      assert RunSystem(s, []) == s;
    } else {
      assert all[..|all| - 1] == [first] + rest[..|rest| - 1];
      FirstThenRest(s, first, rest[..|rest| - 1]);
    }
  }

  /** What the service's `run` leaves in the repository is what the state machine reaches by letting
      that one run go on, so everything proved of runs of the machine holds of it. */
  lemma {:induction false} FinishIsARun(s: System, who: int, answers: Stage -> Answer) returns (actions: seq<Action>)
    requires who in s.runners && s.runners[who].Busy?
    ensures forall a :: a in actions ==> a.Go?
    ensures RunSystem(s, actions).store == Finish(s.store, s.runners[who], answers)
    decreases Rank(s.runners[who])
  {
    hide Advance;
    var b := s.runners[who];
    var a := Go(who, answers(b.stage));
    AdvanceProgresses(s.store, b, answers(b.stage));
    Unfolds(s.store, b, answers);
    var next := Step(s, a);
    var p := Advance(s.store, b, answers(b.stage));
    if p.runner.Busy? {
      var rest := FinishIsARun(next, who, answers);
      FirstThenRest(s, a, rest);
      actions := [a] + rest;
    } else {
      FirstThenRest(s, a, []);
      actions := [a];
      assert [a] + [] == [a];
    }
  }

  /** And what the service's `create` leaves is reached by its look and its save, one after the other. */
  lemma CreateIsARun(s: System, who: int, request: Request, a: Answer)
    requires who !in s.runners && request.id !in s.store
    ensures RunSystem(s, [Create(who, request), Go(who, a)])
         == s.(store := if a.fails then s.store else s.store[request.id := NewRecord(request)])
  {
    hide Step;
    var actions := [Create(who, request), Go(who, a)];
    assert actions[..1] == [actions[0]];
    OneStep(s, actions[0]);
    LooksAndSaves(s, who, request, a);
  }

  lemma LooksAndSaves(s: System, who: int, request: Request, a: Answer)
    requires who !in s.runners && request.id !in s.store
    ensures Step(Step(s, Create(who, request)), Go(who, a))
         == s.(store := if a.fails then s.store else s.store[request.id := NewRecord(request)])
  {
    assert s.runners[who := Busy(SavingNew, NewRecord(request))] - {who} == s.runners;
  }

  // ---- two runs at once ----

  ghost predicate Reaches(s: System, t: System)
  {
    exists actions :: RunSystem(s, actions) == t
  }

  lemma ReachesMore(s: System, t: System, a: Action)
    requires Reaches(s, t)
    ensures Reaches(s, Step(t, a))
  {
    var actions :| RunSystem(s, actions) == t;
    assert (actions + [a])[..|actions|] == actions;
    assert RunSystem(s, actions + [a]) == Step(t, a);
  }

  /** The answers of a run in which everything goes well. */
  predicate Smooth(q: Request, a: Answer)
  {
    && !a.fails && a.judged && a.outcome.horizonComplete
    && q.evaluationTime <= a.forecast.finalizedAt <= q.horizonEnd <= a.evaluation.evaluatedAt
  }

  function Extended(r: Record, state: ExperimentState, at: int): Record
  {
    r.(state := state, lifecycle := r.lifecycle + [LifecycleEvent(state, at)])
  }

  function Readied(q: Request, a: Answer): Record
  {
    Extended(NewRecord(q), ContextReady, q.evaluationTime).(context := Some(a.context))
  }

  function Forecasted(q: Request, a: Answer): Record { Extended(Readied(q, a), Forecasting, q.evaluationTime) }

  function Locked(q: Request, a: Answer): Record
  {
    Extended(Forecasted(q, a), ForecastLocked, a.forecast.finalizedAt).(forecast := Some(a.forecast))
  }

  function Evaluated(q: Request, a: Answer): Record { Extended(Locked(q, a), Evaluating, q.horizonEnd) }

  function Completed(q: Request, a: Answer): Record
  {
    Extended(Evaluated(q, a), Complete, a.evaluation.evaluatedAt).(outcome := Some(a.outcome), evaluation := Some(a.evaluation))
  }

  /** Each step of a smooth run, over whatever the store holds without a conflicting forecast. */
  lemma SmoothSteps(store: map<int, Record>, q: Request, a: Answer)
    requires Smooth(q, a) && q.id in store && store[q.id].request == q
    ensures Advance(store, Busy(Building, NewRecord(q)), a) == Progress(store, Busy(SavingContext, Readied(q, a)), None)
    ensures store[q.id].forecast.None? ==>
      Advance(store, Busy(SavingContext, Readied(q, a)), a) == Progress(store[q.id := Readied(q, a)], Busy(SavingForecasting, Forecasted(q, a)), None)
    ensures store[q.id].forecast.None? ==>
      Advance(store, Busy(SavingForecasting, Forecasted(q, a)), a) == Progress(store[q.id := Forecasted(q, a)], Busy(Predicting, Forecasted(q, a)), None)
  {
  }

  lemma SmoothLock(store: map<int, Record>, q: Request, a: Answer)
    requires Smooth(q, a) && q.id in store && store[q.id].request == q
    ensures Advance(store, Busy(Predicting, Forecasted(q, a)), a) == Progress(store, Busy(SavingLock, Locked(q, a)), None)
    ensures store[q.id].forecast.None? || store[q.id].forecast == Some(a.forecast) ==>
      Advance(store, Busy(SavingLock, Locked(q, a)), a) == Progress(store[q.id := Locked(q, a)], Busy(Rereading, Locked(q, a)), None)
  {
  }

  lemma SmoothRereading(store: map<int, Record>, q: Request, a: Answer)
    requires Smooth(q, a) && q.id in store && store[q.id] == Locked(q, a)
    ensures Advance(store, Busy(Rereading, Locked(q, a)), a) == Progress(store, Busy(SavingEvaluating, Evaluated(q, a)), None)
  {
  }

  lemma SmoothEvaluating(store: map<int, Record>, q: Request, a: Answer)
    requires Smooth(q, a) && q.id in store && store[q.id] == Locked(q, a)
    ensures Advance(store, Busy(SavingEvaluating, Evaluated(q, a)), a) == Progress(store[q.id := Evaluated(q, a)], Busy(Consulting, Evaluated(q, a)), None)
  {
  }

  lemma SmoothConsulting(store: map<int, Record>, q: Request, a: Answer)
    requires Smooth(q, a) && q.id in store && store[q.id] == Evaluated(q, a)
    ensures Advance(store, Busy(Consulting, Evaluated(q, a)), a).runner == Busy(SavingResult, Completed(q, a))
    ensures Advance(store, Busy(Consulting, Evaluated(q, a)), a).store == store
  {
    hide Saved;
    CompletesSmoothly(q, a);
  }

  lemma CompletesSmoothly(q: Request, a: Answer)
    requires Smooth(q, a)
    ensures Transition(Evaluated(q, a), Complete, a.evaluation.evaluatedAt,
                       NO_UPDATES.(outcome := Some(a.outcome), evaluation := Some(a.evaluation))) == Some(Completed(q, a))
  {
  }

  lemma SmoothResult(store: map<int, Record>, q: Request, a: Answer)
    requires Smooth(q, a) && q.id in store && store[q.id] == Evaluated(q, a)
    ensures Advance(store, Busy(SavingResult, Completed(q, a)), a) == Progress(store[q.id := Completed(q, a)], Idle, None)
  {
  }

  /** Takes one step of run `who` and says where that leads. */
  lemma Goes(s: System, who: int, a: Answer, store: map<int, Record>, b: Runner) returns (t: System)
    requires Reaches(EMPTY, s) && who in s.runners && s.runners[who].Busy?
    requires Advance(s.store, s.runners[who], a).store == store && Advance(s.store, s.runners[who], a).runner == b
    ensures Reaches(EMPTY, t) && t.store == store && t == Step(s, Go(who, a))
    ensures t.runners == if b.Idle? then s.runners - {who} else s.runners[who := b]
  {
    hide Advance;
    t := Step(s, Go(who, a));
    ReachesMore(EMPTY, s, Go(who, a));
  }

  /** A run as far as its forecast, over a record that has no forecast yet. */
  lemma UpToForecast(s: System, who: int, q: Request, a: Answer) returns (t: System)
    requires Reaches(EMPTY, s) && Smooth(q, a) && s.runners.Keys >= {who} && s.runners[who] == Busy(Building, NewRecord(q))
    requires q.id in s.store && s.store[q.id].request == q && s.store[q.id].forecast.None?
    ensures Reaches(EMPTY, t) && t.store == s.store[q.id := Forecasted(q, a)]
    ensures t.runners == s.runners[who := Busy(Predicting, Forecasted(q, a))]
  {
    hide Advance, Step;
    SmoothSteps(s.store, q, a);
    t := Goes(s, who, a, s.store, Busy(SavingContext, Readied(q, a)));
    t := Goes(t, who, a, s.store[q.id := Readied(q, a)], Busy(SavingForecasting, Forecasted(q, a)));
    SmoothSteps(t.store, q, a);
    t := Goes(t, who, a, s.store[q.id := Forecasted(q, a)], Busy(Predicting, Forecasted(q, a)));
  }

  lemma FromLock(s: System, who: int, q: Request, a: Answer) returns (t: System)
    requires Reaches(EMPTY, s) && Smooth(q, a) && who in s.runners && s.runners[who] == Busy(Predicting, Forecasted(q, a))
    requires q.id in s.store && s.store[q.id].request == q
    requires s.store[q.id].forecast.None? || s.store[q.id].forecast == Some(a.forecast)
    ensures Reaches(EMPTY, t) && t.store == s.store[q.id := Locked(q, a)]
    ensures t.runners == s.runners[who := Busy(Rereading, Locked(q, a))]
  {
    hide Advance, Step;
    SmoothLock(s.store, q, a);
    t := Goes(s, who, a, s.store, Busy(SavingLock, Locked(q, a)));
    t := Goes(t, who, a, s.store[q.id := Locked(q, a)], Busy(Rereading, Locked(q, a)));
  }

  lemma ToTheEnd(s: System, who: int, q: Request, a: Answer) returns (t: System)
    requires Reaches(EMPTY, s) && Smooth(q, a) && who in s.runners && s.runners[who] == Busy(Rereading, Locked(q, a))
    requires q.id in s.store && s.store[q.id] == Locked(q, a)
    ensures Reaches(EMPTY, t) && t.store == s.store[q.id := Completed(q, a)] && t.runners == s.runners - {who}
  {
    hide Advance, Step;
    SmoothRereading(s.store, q, a);
    SmoothEvaluating(s.store, q, a);
    t := Goes(s, who, a, s.store, Busy(SavingEvaluating, Evaluated(q, a)));
    t := Goes(t, who, a, s.store[q.id := Evaluated(q, a)], Busy(Consulting, Evaluated(q, a)));
    SmoothConsulting(t.store, q, a);
    SmoothResult(t.store, q, a);
    t := Goes(t, who, a, t.store, Busy(SavingResult, Completed(q, a)));
    t := Goes(t, who, a, s.store[q.id := Completed(q, a)], Idle);
  }

  // ---- the condition is exact ----

  lemma {:induction false} RunsInTwo(s: System, first: seq<Action>, rest: seq<Action>)
    ensures RunSystem(s, first + rest) == RunSystem(RunSystem(s, first), rest)
    ensures LawfulRun(s, first + rest) <==> LawfulRun(s, first) && LawfulRun(RunSystem(s, first), rest)
    ensures Kept(s, first + rest) <==> Kept(s, first) && Kept(RunSystem(s, first), rest)
    decreases |rest|
  {
    hide Step, Lawful, AllMoveOn;
    if rest == [] {
      assert first + rest == first;
    } else {
      var m := |rest| - 1;
      assert (first + rest)[..|first + rest| - 1] == first + rest[..m];
      RunsInTwo(s, first, rest[..m]);
    }
  }

  /** A lawful continuation, and where it leads. */
  ghost predicate Continues(s: System, actions: seq<Action>, t: System)
  {
    LawfulRun(s, actions) && RunSystem(s, actions) == t
  }

  lemma GoesOn(s: System, actions: seq<Action>, t: System, who: int, a: Answer)
    requires Continues(s, actions, t) && who in t.runners && !Creating(t.runners[who])
    ensures Continues(s, actions + [Go(who, a)], Step(t, Go(who, a)))
  {
    assert (actions + [Go(who, a)])[..|actions|] == actions;
  }

  const FINE := Answer(false, 0, Forecast(0, 0), Outcome(0, true), true, Evaluation(0, 0))
  const BROKEN := FINE.(fails := true)

  lemma FailsBeforeLock(store: map<int, Record>, b: Runner)
    requires RunnerOk(store, b) && store[b.record.request.id].state.Created? && !b.stage.SavingResult?
    ensures var p := Advance(store, b, BROKEN);
      p.store == store && p.runner.Busy? && p.runner.stage.SavingResult? && p.runner.record.state.Failed?
      && p.runner.record.request == b.record.request && p.runner.record.forecast.None?
  {
    hide Saved;
    NewHasNoForecast(store, b);
  }

  lemma FailureIsSaved(store: map<int, Record>, b: Runner)
    requires b.Busy? && b.stage.SavingResult? && b.record.request.id in store
    requires store[b.record.request.id].request == b.record.request && store[b.record.request.id].forecast.None?
    ensures Advance(store, b, FINE) == Progress(store[b.record.request.id := b.record], Idle, None)
  {
  }

  lemma ContextOverFailure(store: map<int, Record>, q: Request)
    requires q.id in store && store[q.id].request == q && store[q.id].forecast.None?
    ensures var p := Advance(store, Busy(Building, NewRecord(q)), FINE);
      p.store == store && p.runner.Busy? && p.runner.stage.SavingContext? && p.runner.record.request == q
      && Advance(store, p.runner, FINE).store == store[q.id := p.runner.record] && p.runner.record.state.ContextReady?
  {
  }

  lemma Takes(t: System, who: int, a: Answer)
    requires who in t.runners && t.runners[who].Busy?
    ensures var p, n := Advance(t.store, t.runners[who], a), Step(t, Go(who, a));
      n.store == p.store && n.runners == if p.runner.Idle? then t.runners - {who} else t.runners[who := p.runner]
  {
    hide Advance;
  }

  /** The run that was there fails before its lock, lawfully. */
  lemma FirstRunFails(t: System, who: int, q: Request) returns (rest: seq<Action>, u: System)
    requires who in t.runners && q.id in t.store && t.store[q.id] == NewRecord(q)
    requires RunnerOk(t.store, t.runners[who]) && t.runners[who].record.request == q
    ensures Continues(t, rest, u) && u.runners == t.runners - {who}
    ensures q.id in u.store && u.store[q.id].request == q && u.store[q.id].forecast.None? && u.store[q.id].state.Failed?
  {
    hide Advance, OnPath, Ahead, Step, Continues, StageFits;
    Nowhere(t);
    NewHasNoForecast(t.store, t.runners[who]);
    BusyRunner(t.store, t.runners[who]);
    if t.runners[who].stage.SavingResult? {
      FailsAlready(t.store, t.runners[who]);
      rest, u := SavesFailure(t, [], t, who, q);
    } else {
      FailsBeforeLock(t.store, t.runners[who]);
      Takes(t, who, BROKEN);
      GoesOn(t, [], t, who, BROKEN);
      rest, u := SavesFailure(t, [] + [Go(who, BROKEN)], Step(t, Go(who, BROKEN)), who, q);
    }
    assert u.runners == t.runners - {who};
  }

  lemma Nowhere(t: System)
    ensures Continues(t, [], t)
  {
  }

  lemma FailsAlready(store: map<int, Record>, b: Runner)
    requires RunnerOk(store, b) && store[b.record.request.id].state.Created? && b.stage.SavingResult?
    ensures b.record.state.Failed? && b.record.forecast.None?
  {
    hide OnPath;
  }

  lemma SavesFailure(t: System, done: seq<Action>, v: System, who: int, q: Request) returns (rest: seq<Action>, u: System)
    requires Continues(t, done, v) && who in v.runners && v.runners[who].Busy? && v.runners[who].stage.SavingResult?
    requires v.runners[who].record.request == q && v.runners[who].record.state.Failed? && v.runners[who].record.forecast.None?
    requires q.id in v.store && v.store[q.id] == NewRecord(q)
    ensures Continues(t, rest, u) && u.runners == v.runners - {who}
    ensures q.id in u.store && u.store[q.id].request == q && u.store[q.id].forecast.None? && u.store[q.id].state.Failed?
  {
    hide Advance, Step, Continues;
    FailureIsSaved(v.store, v.runners[who]);
    Takes(v, who, FINE);
    GoesOn(t, done, v, who, FINE);
    rest, u := done + [Go(who, FINE)], Step(v, Go(who, FINE));
  }

  /** The other one stores its context over the failure. */
  lemma SecondRunReopens(t: System, rest: seq<Action>, u: System, who: int, q: Request) returns (all: seq<Action>)
    requires Continues(t, rest, u) && who in u.runners && u.runners[who] == Busy(Building, NewRecord(q))
    requires q.id in u.store && u.store[q.id].request == q && u.store[q.id].forecast.None? && u.store[q.id].state.Failed?
    ensures LawfulRun(t, all) && !Kept(t, all)
  {
    hide Advance;
    ContextOverFailure(u.store, q);
    GoesOn(t, rest, u, who, FINE);
    var v := Step(u, Go(who, FINE));
    GoesOn(t, rest + [Go(who, FINE)], v, who, FINE);
    all := rest + [Go(who, FINE)] + [Go(who, FINE)];
    assert all[..|all| - 1] == rest + [Go(who, FINE)];
    assert !AllMoveOn(v.store, Step(v, Go(who, FINE)).store);
  }

  /** A run started beside another of the same experiment can leave a failed experiment. */
  lemma UnlawfulStartBreaks(s: System, who: int, id: int) returns (rest: seq<Action>)
    requires Invariant(s) && !Lawful(s, Start(who, id))
    ensures LawfulRun(Step(s, Start(who, id)), rest) && !Kept(Step(s, Start(who, id)), rest)
  {
    hide OnPath, CallOk, StageFits;
    var other :| other in s.runners && RunsNow(s.runners[other], id);
    var q := s.store[id].request;
    StoredNew(s.store, id);
    var t := Step(s, Start(who, id));
    var some, u := FirstRunFails(t, other, q);
    rest := SecondRunReopens(t, some, u, who, q);
  }

  lemma StoredNew(store: map<int, Record>, id: int)
    requires StoreOk(store) && id in store && store[id].state.Created?
    ensures store[id] == NewRecord(store[id].request) && store[id].request.id == id
  {
    assert OnPath(store[id]);
  }

  /** A creation that saves over a record that has moved on rewrites its history at once. */
  lemma UnlawfulSaveBreaks(s: System, who: int, a: Answer)
    requires Invariant(s) && !Lawful(s, Go(who, a))
    ensures !AllMoveOn(s.store, Step(s, Go(who, a)).store)
  {
    hide CallOk, Ahead, StageFits;
    var q := s.runners[who].record.request;
    assert OnPath(s.store[q.id]);
    assert |s.store[q.id].lifecycle| > 1;
    assert Step(s, Go(who, a)).store[q.id] == NewRecord(q);
  }

  lemma UnlawfulBreaks(s: System, a: Action) returns (rest: seq<Action>)
    requires Invariant(s) && !Lawful(s, a)
    ensures LawfulRun(Step(s, a), rest) && !Kept(s, [a] + rest)
  {
    hide Invariant, AllMoveOn, Lawful, Step;
    LawfulKinds(s, a);
    if a.Start? {
      rest := UnlawfulStartBreaks(s, a.who, a.id);
    } else {
      UnlawfulSaveBreaks(s, a.who, a.answer);
      rest := [];
    }
    OneStep(s, a);
    RunsInTwo(s, [a], rest);
  }

  lemma LawfulKinds(s: System, a: Action)
    ensures a.Create? || a.Crash? ==> Lawful(s, a)
  {
  }

  lemma OneStep(s: System, a: Action)
    ensures RunSystem(s, [a]) == Step(s, a)
    ensures Kept(s, [a]) <==> AllMoveOn(s.store, Step(s, a).store)
    ensures LawfulRun(s, [a]) <==> Lawful(s, a)
  {
    assert [a][..0] == [];
  }

  /** No prefix of the run has a lawful continuation that leaves a finished record, changes a forecast
      or rewrites a history. */
  ghost predicate Harmless(actions: seq<Action>)
  {
    forall n: nat, rest: seq<Action> :: n <= |actions| && LawfulRun(RunSystem(EMPTY, actions[..n]), rest) ==>
      Kept(EMPTY, actions[..n] + rest)
  }

  lemma {:induction false} FirstUnlawful(actions: seq<Action>) returns (k: nat)
    requires !LawfulRun(EMPTY, actions)
    ensures k < |actions| && LawfulRun(EMPTY, actions[..k]) && !Lawful(RunSystem(EMPTY, actions[..k]), actions[k])
    decreases |actions|
  {
    hide Lawful, Step;
    var m := |actions| - 1;
    if LawfulRun(EMPTY, actions[..m]) {
      k := m;
    } else {
      k := FirstUnlawful(actions[..m]);
      assert actions[..m][..k] == actions[..k];
    }
  }

  /** The condition is exact. A run is harmless, whatever lawful steps follow any part of it, if and only
      if no run in it starts beside another of the same experiment and no creation in it saves over a
      record that has moved on. */
  lemma LawfulExactly(actions: seq<Action>)
    ensures Harmless(actions) <==> LawfulRun(EMPTY, actions)
  {
    hide Step, Invariant, Lawful, AllMoveOn, RunSystem, LawfulRun, Kept;
    EmptyIsFine();
    if LawfulRun(EMPTY, actions) {
      forall n: nat, rest: seq<Action> | n <= |actions| && LawfulRun(RunSystem(EMPTY, actions[..n]), rest)
        ensures Kept(EMPTY, actions[..n] + rest)
      {
        assert actions[..n] + actions[n..] == actions;
        RunsInTwo(EMPTY, actions[..n], actions[n..]);
        RunsInTwo(EMPTY, actions[..n], rest);
        LawfulIsKept(EMPTY, actions[..n] + rest);
      }
    } else {
      var k := FirstUnlawful(actions);
      HarmComes(actions, k);
    }
  }

  lemma HarmComes(actions: seq<Action>, k: nat)
    requires k < |actions| && LawfulRun(EMPTY, actions[..k]) && !Lawful(RunSystem(EMPTY, actions[..k]), actions[k])
    ensures !Harmless(actions)
  {
    hide Step, Invariant, Lawful, AllMoveOn;
    EmptyIsFine();
    LawfulIsKept(EMPTY, actions[..k]);
    var s := RunSystem(EMPTY, actions[..k]);
    var rest := UnlawfulBreaks(s, actions[k]);
    var first := actions[..k + 1];
    assert first[..k] == actions[..k];
    RunsInTwo(EMPTY, actions[..k], [actions[k]] + rest);
    assert actions[..k] + ([actions[k]] + rest) == first + rest;
    assert RunSystem(EMPTY, first) == Step(s, actions[k]);
  }

  // ---- both overlaps are reached ----

  /** Two runs of one experiment at once break it: nothing in the repository stops the second from
      storing its own, equal lock over the first one's completed record. Whatever the request and the
      answers of a smooth run, a completed experiment is left again. */
  lemma TwoRunsReopen(q: Request, a: Answer) returns (done: System, reopened: System)
    requires Smooth(q, a)
    ensures Reaches(EMPTY, done) && q.id in done.store && done.store[q.id].state.Complete?
    ensures reopened == Step(Step(done, Go(2, a)), Go(2, a))
    ensures Reaches(EMPTY, reopened) && q.id in reopened.store && reopened.store[q.id].state.ForecastLocked?
  {
    hide Advance, Step;
    var s := BothStarted(q);
    s := UpToForecast(s, 1, q, a);
    s := UpToForecast(s, 2, q, a);
    s := FromLock(s, 1, q, a);
    done := ToTheEnd(s, 1, q, a);
    SmoothLock(done.store, q, a);
    var t := Goes(done, 2, a, done.store, Busy(SavingLock, Locked(q, a)));
    reopened := Goes(t, 2, a, done.store[q.id := Locked(q, a)], Busy(Rereading, Locked(q, a)));
  }

  /** A creation that looked before another one saved, and saves after that one's run has failed, leaves
      the failed experiment as new. No two runs overlap. */
  lemma LateCreationReopens(q: Request) returns (failed: System, reopened: System)
    ensures Reaches(EMPTY, failed) && q.id in failed.store && failed.store[q.id].state.Failed?
    ensures failed.runners == map[1 := Busy(SavingNew, NewRecord(q))]
    ensures reopened == Step(failed, Go(1, FINE)) && reopened.store == failed.store[q.id := NewRecord(q)]
  {
    hide Advance, Step;
    var s := OneWaitsOneRuns(q);
    var r := NewRecord(q);
    NewIsOnPath(q);
    FailsBeforeLock(s.store, Busy(Building, r));
    Takes(s, 2, BROKEN);
    ReachesMore(EMPTY, s, Go(2, BROKEN));
    s := Step(s, Go(2, BROKEN));
    FailureIsSaved(s.store, s.runners[2]);
    Takes(s, 2, FINE);
    ReachesMore(EMPTY, s, Go(2, FINE));
    failed := Step(s, Go(2, FINE));
    NewOverFailure(failed.store, q);
    Takes(failed, 1, FINE);
    reopened := Step(failed, Go(1, FINE));
  }

  lemma NewOverFailure(store: map<int, Record>, q: Request)
    requires q.id in store && store[q.id].request == q && store[q.id].forecast.None?
    ensures Advance(store, Busy(SavingNew, NewRecord(q)), FINE) == Progress(store[q.id := NewRecord(q)], Idle, None)
  {
  }

  /** Two creations look, one saves, and its experiment is started. */
  lemma OneWaitsOneRuns(q: Request) returns (s: System)
    ensures Reaches(EMPTY, s) && s.store == map[q.id := NewRecord(q)]
    ensures s.runners == map[1 := Busy(SavingNew, NewRecord(q)), 2 := Busy(Building, NewRecord(q))]
  {
    assert RunSystem(EMPTY, []) == EMPTY;
    ReachesMore(EMPTY, EMPTY, Create(1, q));
    s := Step(EMPTY, Create(1, q));
    ReachesMore(EMPTY, s, Create(2, q));
    s := Step(s, Create(2, q));
    ReachesMore(EMPTY, s, Go(2, FINE));
    s := Step(s, Go(2, FINE));
    ReachesMore(EMPTY, s, Start(2, q.id));
    s := Step(s, Start(2, q.id));
  }

  lemma BothStarted(q: Request) returns (s: System)
    ensures Reaches(EMPTY, s) && s.store == map[q.id := NewRecord(q)]
    ensures s.runners == map[1 := Busy(Building, NewRecord(q)), 2 := Busy(Building, NewRecord(q))]
  {
    s := NewlyCreated(q, 1);
    ReachesMore(EMPTY, s, Start(1, q.id));
    s := Step(s, Start(1, q.id));
    ReachesMore(EMPTY, s, Start(2, q.id));
    s := Step(s, Start(2, q.id));
  }

  lemma NewlyCreated(q: Request, who: int) returns (s: System)
    ensures Reaches(EMPTY, s) && s == System(map[q.id := NewRecord(q)], map[], [])
  {
    assert RunSystem(EMPTY, []) == EMPTY;
    ReachesMore(EMPTY, EMPTY, Create(who, q));
    s := Step(EMPTY, Create(who, q));
    ReachesMore(EMPTY, s, Go(who, FINE));
    s := Step(s, Go(who, FINE));
  }
}
