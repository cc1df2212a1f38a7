/** What the service tells of an outcome, over every run: also those that overlap. */
module ExperimentOracle {
  import opened Sequences
  import opened Experiments
  import opened ExperimentRuns

  /** The oracle was asked about this request while the repository held the very forecast it judges. */
  predicate AskedFor(call: OracleCall, r: Record)
  {
    && r.forecast.Some? && call.forecast == r.forecast
    && call.stored.Some? && call.stored.value.request == r.request && call.stored.value.forecast == r.forecast
  }

  /** A record has an outcome only when it is finished and the oracle was asked for it; and it holds a
      forecast from the lock to the judgement. */
  ghost predicate Traced(calls: seq<OracleCall>, r: Record)
  {
    && ValidRecord(r)
    && (r.state.ForecastLocked? || r.state.Evaluating? ==> r.forecast.Some?)
    && (r.outcome.Some? ==> Final(r.state) && exists i :: 0 <= i < |calls| && AskedFor(calls[i], r))
  }

  /** A run that is about to ask the oracle finds its forecast in the repository, and nobody can take it out. */
  ghost predicate AsksLocked(store: map<int, Record>, b: Runner)
  {
    b.Busy? && b.stage.Consulting? ==>
      && b.record.forecast.Some? && b.record.request.id in store
      && store[b.record.request.id].request == b.record.request && store[b.record.request.id].forecast == b.record.forecast
  }

  /** A run about to save its evaluating record, or to ask, has left the lock. */
  predicate Judging(b: Runner)
  {
    b.Busy? && (b.stage.SavingEvaluating? || b.stage.Consulting?) ==> b.record.state.Evaluating?
  }

  ghost predicate AllTraced(s: System)
  {
    && (forall id :: id in s.store ==> s.store[id].request.id == id && Traced(s.calls, s.store[id]))
    && (forall who :: who in s.runners ==>
          && s.runners[who].Busy? && Traced(s.calls, s.runners[who].record)
          && AsksLocked(s.store, s.runners[who]) && Judging(s.runners[who]))
  }

  /** What every step leaves a forecast that is stored: nothing takes it out or changes it. */
  ghost predicate ForecastsStand(before: map<int, Record>, after: map<int, Record>)
  {
    forall id :: id in before && before[id].forecast.Some? ==>
      id in after && after[id].forecast == before[id].forecast && after[id].request == before[id].request
  }

  // ---- one step ----

  lemma MoreCalls(calls: seq<OracleCall>, more: seq<OracleCall>, r: Record)
    requires Traced(calls, r)
    ensures Traced(calls + more, r)
  {
    hide AskedFor, ValidRecord;
    if r.outcome.Some? {
      var i :| 0 <= i < |calls| && AskedFor(calls[i], r);
      assert AskedFor((calls + more)[i], r);
    }
  }

  /** A transition that brings no outcome. */
  lemma TransitionIsTraced(calls: seq<OracleCall>, r: Record, to: ExperimentState, at: int, u: Updates)
    requires Traced(calls, r) && u.outcome.None? && (u.forecast.Some? <==> to.ForecastLocked?)
    ensures Transition(r, to, at, u).Some? ==> Traced(calls, Transition(r, to, at, u).value)
    ensures Transition(r, to, at, u).Some? ==>
      Transition(r, to, at, u).value.state == to && Transition(r, to, at, u).value.request == r.request
  {
    hide AskedFor;
  }

  /** One that brings the oracle's answer to a call. */
  lemma OutcomeIsTraced(calls: seq<OracleCall>, call: OracleCall, r: Record, to: ExperimentState, at: int, u: Updates)
    requires Traced(calls, r) && AskedFor(call, r) && Final(to) && u.forecast.None?
    ensures Transition(r, to, at, u).Some? ==> Traced(calls + [call], Transition(r, to, at, u).value)
  {
    if Transition(r, to, at, u).Some? {
      var n := Transition(r, to, at, u).value;
      assert n.forecast == r.forecast && n.request == r.request;
      assert AskedFor((calls + [call])[|calls|], n);
    }
  }

  /** What a step of one run may leave. */
  ghost predicate LeavesTraced(calls: seq<OracleCall>, before: map<int, Record>, p: Progress)
  {
    && (p.store == before || exists r :: Traced(calls, r) && Saved(before, r) == Some(p.store))
    && (p.runner.Busy? ==> Traced(calls, p.runner.record) && AsksLocked(p.store, p.runner) && Judging(p.runner))
  }

  lemma FailingIsTraced(calls: seq<OracleCall>, store: map<int, Record>, r: Record)
    requires Traced(calls, r)
    ensures var p := Failing(store, r);
      p.store == store && (p.runner.Busy? ==> p.runner.stage.SavingResult? && Traced(calls, p.runner.record))
  {
    hide Transition, AskedFor;
    TransitionIsTraced(calls, r, Failed, r.lifecycle[|r.lifecycle| - 1].at, NO_UPDATES);
  }

  lemma OnwardIsTraced(
    calls: seq<OracleCall>, store: map<int, Record>, r: Record, from: Record, to: ExperimentState, at: int, u: Updates, stage: Stage)
    requires Traced(calls, r) && Traced(calls, from) && u.outcome.None? && (u.forecast.Some? <==> to.ForecastLocked?)
    requires !stage.Consulting? && (stage.SavingEvaluating? ==> to.Evaluating?)
    ensures var p := Onward(store, r, Transition(from, to, at, u), stage);
      p.store == store && (p.runner.Busy? ==>
        Traced(calls, p.runner.record) && AsksLocked(p.store, p.runner) && Judging(p.runner))
  {
    hide Transition, Traced, Failing;
    FailingIsTraced(calls, store, r);
    TransitionIsTraced(calls, from, to, at, u);
  }

  lemma ConsultedIsTraced(calls: seq<OracleCall>, call: OracleCall, store: map<int, Record>, r: Record, a: Answer)
    requires Traced(calls, r) && AskedFor(call, r)
    ensures var p := Consulted(store, r, a);
      p.store == store && (p.runner.Busy? ==>
        Traced(calls + [call], p.runner.record) && AsksLocked(p.store, p.runner) && Judging(p.runner))
  {
    hide Transition, Traced, Failing, AskedFor;
    MoreCalls(calls, [call], r);
    FailingIsTraced(calls + [call], store, r);
    OutcomeIsTraced(calls, call, r, Failed, r.request.horizonEnd, NO_UPDATES.(outcome := Some(a.outcome)));
    OutcomeIsTraced(calls, call, r, Complete, a.evaluation.evaluatedAt,
                    NO_UPDATES.(outcome := Some(a.outcome), evaluation := Some(a.evaluation)));
  }

  /** The calls after a step of one run. */
  function CallsOf(calls: seq<OracleCall>, p: Progress): seq<OracleCall>
  {
    if p.call.Some? then calls + [p.call.value] else calls
  }

  /** The first stages of a run, and a creation. */
  lemma EarlyIsTraced(calls: seq<OracleCall>, store: map<int, Record>, b: Runner, a: Answer)
    requires b.Busy? && Traced(calls, b.record)
    requires b.stage.SavingNew? || b.stage.Building? || b.stage.SavingContext? || b.stage.SavingForecasting? || b.stage.Predicting?
    ensures var p := Advance(store, b, a);
      p.call.None? && LeavesTraced(calls, store, p)
  {
    hide Transition, Traced, Failing, Onward, Saved;
    var r := b.record;
    FailingIsTraced(calls, store, r);
    FailingAsks(store, r);
    OnwardIsTraced(calls, store, r, r, ContextReady, r.request.evaluationTime, NO_UPDATES.(context := Some(a.context)), SavingContext);
    OnwardIsTraced(calls, store, r, r, ForecastLocked, a.forecast.finalizedAt, NO_UPDATES.(forecast := Some(a.forecast)), SavingLock);
    var saved := StoreOr(store, r, a.fails);
    if saved.Some? {
      OnwardIsTraced(calls, saved.value, r, r, Forecasting, r.request.evaluationTime, NO_UPDATES, SavingForecasting);
    }
    OnwardAsksNothing(r);
  }

  lemma FailingAsks(store: map<int, Record>, r: Record)
    ensures var p := Failing(store, r);
      p.call.None? && p.store == store && AsksLocked(store, p.runner) && Judging(p.runner)
  {
    hide Transition;
  }

  lemma OnwardAsksNothing(r: Record)
    ensures forall where: map<int, Record>, next, stage :: Onward(where, r, next, stage).call.None?
  {
    hide Transition;
  }

  /** The stages from the lock on. */
  lemma LateIsTraced(calls: seq<OracleCall>, store: map<int, Record>, b: Runner, a: Answer)
    requires b.Busy? && Traced(calls, b.record) && AsksLocked(store, b) && Judging(b)
    requires forall id :: id in store ==> store[id].request.id == id && Traced(calls, store[id])
    requires b.stage.SavingLock? || b.stage.Rereading? || b.stage.SavingEvaluating? || b.stage.SavingResult?
    ensures var p := Advance(store, b, a);
      p.call.None? && LeavesTraced(calls, store, p)
  {
    hide Transition, Failing, Onward, AskedFor, ValidRecord;
    var r := b.record;
    FailingIsTraced(calls, store, r);
    FailingAsks(store, r);
    OnwardAsksNothing(r);
    if b.stage.Rereading? && r.request.id in store {
      OnwardIsTraced(calls, store, r, store[r.request.id], Evaluating, r.request.horizonEnd, NO_UPDATES, SavingEvaluating);
    }
  }

  /** Asking the oracle. */
  lemma AskingIsTraced(calls: seq<OracleCall>, store: map<int, Record>, b: Runner, a: Answer)
    requires b.Busy? && b.stage.Consulting? && Traced(calls, b.record) && AsksLocked(store, b)
    ensures var p := Advance(store, b, a);
      LeavesTraced(CallsOf(calls, p), store, p) && p.store == store
  {
    hide Transition, Traced, Failing, Consulted;
    var call := OracleCall(StoredRecord(store, b.record.request.id), b.record.forecast);
    ConsultedIsTraced(calls, call, store, b.record, a);
  }

  lemma AdvanceIsTraced(calls: seq<OracleCall>, store: map<int, Record>, b: Runner, a: Answer)
    requires b.Busy? && Traced(calls, b.record) && AsksLocked(store, b) && Judging(b)
    requires forall id :: id in store ==> store[id].request.id == id && Traced(calls, store[id])
    ensures LeavesTraced(CallsOf(calls, Advance(store, b, a)), store, Advance(store, b, a))
  {
    hide Advance, Traced, AsksLocked, Judging, LeavesTraced;
    if b.stage.Consulting? {
      AskingIsTraced(calls, store, b, a);
    } else if b.stage.SavingLock? || b.stage.Rereading? || b.stage.SavingEvaluating? || b.stage.SavingResult? {
      LateIsTraced(calls, store, b, a);
    } else {
      EarlyIsTraced(calls, store, b, a);
    }
  }

  lemma SavedStands(before: map<int, Record>, r: Record)
    ensures Saved(before, r).Some? ==> ForecastsStand(before, Saved(before, r).value)
  {
  }

  /** Nothing a save does takes the forecast away from a run that is about to ask. */
  lemma StillAsks(before: map<int, Record>, after: map<int, Record>, b: Runner)
    requires AsksLocked(before, b) && ForecastsStand(before, after)
    ensures AsksLocked(after, b)
  {
  }

  lemma GoIsTraced(s: System, who: int, a: Answer)
    requires AllTraced(s)
    ensures AllTraced(Gone(s, who, a)) && ForecastsStand(s.store, Gone(s, who, a).store)
  {
    hide Advance, Traced, AsksLocked, Judging, ForecastsStand, Saved;
    StoreStands(s.store);
    if who in s.runners {
      var b := s.runners[who];
      AdvanceIsTraced(s.calls, s.store, b, a);
      var p, n := Advance(s.store, b, a), Gone(s, who, a);
      assert n.calls == CallsOf(s.calls, p);
      StoreIsTraced(s, n, p);
      forall other | other in n.runners
        ensures n.runners[other].Busy? && Traced(n.calls, n.runners[other].record)
        ensures AsksLocked(n.store, n.runners[other]) && Judging(n.runners[other])
      {
        if other != who {
          MoreCalls(s.calls, if p.call.Some? then [p.call.value] else [], s.runners[other].record);
          assert s.calls + [] == s.calls;
          StillAsks(s.store, n.store, s.runners[other]);
        }
      }
    }
  }

  lemma StoreStands(store: map<int, Record>)
    ensures ForecastsStand(store, store)
  {
  }

  lemma StoreIsTraced(s: System, n: System, p: Progress)
    requires AllTraced(s) && n.store == p.store && n.calls == CallsOf(s.calls, p) && LeavesTraced(n.calls, s.store, p)
    ensures ForecastsStand(s.store, n.store)
    ensures forall id :: id in n.store ==> n.store[id].request.id == id && Traced(n.calls, n.store[id])
  {
    hide Traced, AsksLocked, Judging, ForecastsStand;
    StoreStands(s.store);
    assert s.calls + [] == s.calls;
    forall id | id in s.store
      ensures Traced(n.calls, s.store[id])
    {
      MoreCalls(s.calls, if p.call.Some? then [p.call.value] else [], s.store[id]);
    }
    if p.store != s.store {
      var r :| Traced(n.calls, r) && Saved(s.store, r) == Some(p.store);
      SavedStands(s.store, r);
    }
  }

  lemma StepIsTraced(s: System, a: Action)
    requires AllTraced(s)
    ensures AllTraced(Step(s, a)) && ForecastsStand(s.store, Step(s, a).store)
  {
    hide Advance, Traced, ForecastsStand;
    StoreStands(s.store);
    match a
    case Go(who, answer) => GoIsTraced(s, who, answer);
    case Create(who, request) => NewIsTraced(s.calls, request);
    case _ =>
  }

  lemma NewIsTraced(calls: seq<OracleCall>, request: Request)
    ensures Traced(calls, NewRecord(request))
  {
  }

  // ---- every run ----

  lemma {:induction false} RunIsTraced(actions: seq<Action>)
    ensures AllTraced(RunSystem(EMPTY, actions))
  {
    hide Step, AllTraced;
    if actions == [] {
      NothingIsTraced();
    } else {
      var m := |actions| - 1;
      RunIsTraced(actions[..m]);
      StepIsTraced(RunSystem(EMPTY, actions[..m]), actions[m]);
    }
  }

  lemma NothingIsTraced()
    ensures AllTraced(EMPTY)
  {
  }

  /** A stored forecast is there for good. */
  lemma {:induction false} ForecastsStandForever(actions: seq<Action>, n: nat)
    requires n <= |actions|
    ensures ForecastsStand(RunSystem(EMPTY, actions[..n]).store, RunSystem(EMPTY, actions).store)
  {
    hide Step, AllTraced, ForecastsStand;
    if n == |actions| {
      assert actions[..n] == actions;
      StoreStands(RunSystem(EMPTY, actions).store);
    } else {
      var m := |actions| - 1;
      ForecastsStandForever(actions[..m], n);
      assert actions[..m][..n] == actions[..n];
      RunIsTraced(actions[..m]);
      StepIsTraced(RunSystem(EMPTY, actions[..m]), actions[m]);
      StandTwice(RunSystem(EMPTY, actions[..n]).store, RunSystem(EMPTY, actions[..m]).store, RunSystem(EMPTY, actions).store);
    }
  }

  lemma StandTwice(a: map<int, Record>, b: map<int, Record>, c: map<int, Record>)
    requires ForecastsStand(a, b) && ForecastsStand(b, c)
    ensures ForecastsStand(a, c)
  {
  }

  /** Over every run, whatever overlaps, fails or crashes: the service reveals an outcome exactly when
      the stored record has one; by then the experiment is finished, and the oracle has been asked about
      that very request while the repository already held the very forecast the record still holds. So
      nothing is revealed before the lock, and what is revealed never met a forecast that could change. */
  lemma RevealedAfterTheLock(actions: seq<Action>, id: int)
    ensures var s := RunSystem(EMPTY, actions);
      && (ReplyOf(s.store, id).Revealed? <==> id in s.store && s.store[id].outcome.Some?)
      && (ReplyOf(s.store, id).Revealed? ==>
            && Final(s.store[id].state) && s.store[id].forecast.Some?
            && exists i :: 0 <= i < |s.calls| && AskedFor(s.calls[i], s.store[id]))
  {
    hide Step, AskedFor;
    RunIsTraced(actions);
  }

  /** Over every lawful run a reply that reveals an outcome is given for good. */
  lemma RevealedForGood(actions: seq<Action>, n: nat, id: int)
    requires LawfulRun(EMPTY, actions) && n <= |actions|
    requires ReplyOf(RunSystem(EMPTY, actions[..n]).store, id).Revealed?
    ensures ReplyOf(RunSystem(EMPTY, actions).store, id) == ReplyOf(RunSystem(EMPTY, actions[..n]).store, id)
  {
    hide RunSystem, Invariant, LawfulRun, AskedFor;
    BlindUntilLocked(actions, n);
    RevealedAfterTheLock(actions[..n], id);
  }
}
