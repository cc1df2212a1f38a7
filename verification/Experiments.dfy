/** The blind experiment: its lifecycle table, its repository and the service that runs it. */
module Experiments {
  import opened Sequences

  datatype ExperimentState = Created | ContextReady | Forecasting | ForecastLocked | Evaluating | Complete | Failed

  datatype Request = Request(id: int, evaluationTime: int, horizonEnd: int)
  datatype Forecast = Forecast(content: int, finalizedAt: int)
  datatype Outcome = Outcome(content: int, horizonComplete: bool)
  datatype Evaluation = Evaluation(content: int, evaluatedAt: int)
  datatype LifecycleEvent = LifecycleEvent(state: ExperimentState, at: int)

  datatype Record = Record(
    request: Request, state: ExperimentState, lifecycle: seq<LifecycleEvent>, context: Option<int>,
    forecast: Option<Forecast>, outcome: Option<Outcome>, evaluation: Option<Evaluation>)

  /** The table of allowed transitions. */
  predicate Allowed(from: ExperimentState, to: ExperimentState)
  {
    match from
    case Created => to.ContextReady? || to.Failed?
    case ContextReady => to.Forecasting? || to.Failed?
    case Forecasting => to.ForecastLocked? || to.Failed?
    case ForecastLocked => to.Evaluating? || to.Failed?
    case Evaluating => to.Complete? || to.Failed?
    case Complete => false
    case Failed => false
  }

  predicate Blind(s: ExperimentState) { s.Created? || s.ContextReady? || s.Forecasting? }

  predicate Final(s: ExperimentState) { s.Complete? || s.Failed? }

  /** The record's own contract. */
  predicate ValidRecord(r: Record)
  {
    && r.lifecycle != [] && r.lifecycle[|r.lifecycle| - 1].state == r.state
    && (forall i :: 0 <= i < |r.lifecycle| - 1 ==> r.lifecycle[i].at <= r.lifecycle[i + 1].at)
    && (r.forecast.Some? ==> !Blind(r.state))
    && (r.outcome.Some? ==> r.forecast.Some?)
    && (r.evaluation.Some? ==> r.outcome.Some?)
    && (r.state.Complete? ==> r.evaluation.Some?)
  }

  datatype Updates = Updates(context: Option<int>, forecast: Option<Forecast>, outcome: Option<Outcome>, evaluation: Option<Evaluation>)

  const NO_UPDATES := Updates(None, None, None, None)

  function Or<T>(update: Option<T>, current: Option<T>): Option<T> { if update.Some? then update else current }

  /** `None` where the source raises. */
  function Transition(r: Record, to: ExperimentState, at: int, u: Updates): Option<Record>
  {
    var next := Record(r.request, to, r.lifecycle + [LifecycleEvent(to, at)], Or(u.context, r.context),
                       Or(u.forecast, r.forecast), Or(u.outcome, r.outcome), Or(u.evaluation, r.evaluation));
    if Allowed(r.state, to) && ValidRecord(next) then Some(next) else None
  }

  function NewRecord(request: Request): Record
  {
    Record(request, Created, [LifecycleEvent(Created, request.evaluationTime)], None, None, None, None)
  }

  // ---- the repository ----

  /** A locked forecast and a request are immutable; `None` where saving raises. */
  function Saved(store: map<int, Record>, r: Record): Option<map<int, Record>>
  {
    var id := r.request.id;
    if id in store && store[id].forecast.Some? && r.forecast != store[id].forecast then None
    else if id in store && store[id].request != r.request then None
    else Some(store[id := r])
  }

  class ExperimentRepository {
    var records: map<int, Record>

    constructor ()
      ensures records == map[]
    {
      records := map[];
    }

    /** `fails` stands for an error of the storage itself. */
    method Save(r: Record, fails: bool) returns (ok: bool)
      modifies this
      ensures ok <==> !fails && Saved(old(records), r).Some?
      ensures records == if ok then Saved(old(records), r).value else old(records)
    {
      if fails {
        return false;
      }
      if r.request.id in records {
        var previous := records[r.request.id];
        if previous.forecast.Some? && r.forecast != previous.forecast {
          return false;
        }
        if previous.request != r.request {
          return false;
        }
      }
      records := records[r.request.id := r];
      return true;
    }
  }

  // ---- one run, step by step ----

  /** Where a run is, or a creation that has found no record and has yet to save its own. Every
      storage access and every call out of the service is a step of its own, so that a crash, another
      run or another creation can fall between any two. */
  datatype Stage =
    | SavingNew | Building | SavingContext | SavingForecasting | Predicting | SavingLock | Rereading
    | SavingEvaluating | Consulting | SavingResult

  datatype Runner = Idle | Busy(stage: Stage, record: Record)

  /** What the outside answers to one step: an error, or the value asked for. */
  datatype Answer = Answer(fails: bool, context: int, forecast: Forecast, outcome: Outcome, judged: bool, evaluation: Evaluation)

  datatype OracleCall = OracleCall(stored: Option<Record>, forecast: Option<Forecast>)

  datatype Progress = Progress(store: map<int, Record>, runner: Runner, call: Option<OracleCall>)

  /** The source's handler: record the failure after the last thing that happened. */
  function Failing(store: map<int, Record>, r: Record): Progress
  {
    if r.lifecycle == [] then Progress(store, Idle, None)
    else
      var failed := Transition(r, Failed, r.lifecycle[|r.lifecycle| - 1].at, NO_UPDATES);
      Progress(store, if failed.Some? then Busy(SavingResult, failed.value) else Idle, None)
  }

  function Onward(store: map<int, Record>, r: Record, next: Option<Record>, stage: Stage): Progress
  {
    if next.Some? then Progress(store, Busy(stage, next.value), None) else Failing(store, r)
  }

  function StoreOr(store: map<int, Record>, r: Record, fails: bool): Option<map<int, Record>>
  {
    if fails then None else Saved(store, r)
  }

  function Consulted(store: map<int, Record>, r: Record, a: Answer): Progress
  {
    if a.fails then Failing(store, r)
    else if !a.outcome.horizonComplete then
      Onward(store, r, Transition(r, Failed, r.request.horizonEnd, NO_UPDATES.(outcome := Some(a.outcome))), SavingResult)
    else if !a.judged then Failing(store, r)
    else
      Onward(store, r, Transition(r, Complete, a.evaluation.evaluatedAt,
                                  NO_UPDATES.(outcome := Some(a.outcome), evaluation := Some(a.evaluation))), SavingResult)
  }

  function StoredRecord(store: map<int, Record>, id: int): Option<Record>
  {
    if id in store then Some(store[id]) else None
  }

  function Advance(store: map<int, Record>, b: Runner, a: Answer): Progress
    requires b.Busy?
  {
    var r := b.record;
    var saved := StoreOr(store, r, a.fails);
    match b.stage
    case SavingNew =>
      Progress(if saved.Some? then saved.value else store, Idle, None)
    case Building =>
      if a.fails then Failing(store, r)
      else Onward(store, r, Transition(r, ContextReady, r.request.evaluationTime, NO_UPDATES.(context := Some(a.context))), SavingContext)
    case SavingContext =>
      if saved.None? then Failing(store, r)
      else Onward(saved.value, r, Transition(r, Forecasting, r.request.evaluationTime, NO_UPDATES), SavingForecasting)
    case SavingForecasting =>
      if saved.None? then Failing(store, r) else Progress(saved.value, Busy(Predicting, r), None)
    case Predicting =>
      if a.fails then Failing(store, r)
      else Onward(store, r, Transition(r, ForecastLocked, a.forecast.finalizedAt, NO_UPDATES.(forecast := Some(a.forecast))), SavingLock)
    case SavingLock =>
      if saved.None? then Failing(store, r) else Progress(saved.value, Busy(Rereading, r), None)
    case Rereading =>
      if a.fails || r.request.id !in store then Failing(store, r)
      else
        var locked := store[r.request.id];
        if locked.forecast != r.forecast || !locked.state.ForecastLocked? then Failing(store, r)
        else Onward(store, r, Transition(locked, Evaluating, r.request.horizonEnd, NO_UPDATES), SavingEvaluating)
    case SavingEvaluating =>
      if saved.None? then Failing(store, r) else Progress(saved.value, Busy(Consulting, r), None)
    case Consulting =>
      Consulted(store, r, a).(call := Some(OracleCall(StoredRecord(store, r.request.id), r.forecast)))
    case SavingResult =>
      Progress(if saved.Some? then saved.value else store, Idle, None)
  }

  function Rank(b: Runner): nat
  {
    match b
    case Idle => 0
    case Busy(SavingNew, _) => 1
    case Busy(SavingResult, _) => 1
    case Busy(Consulting, _) => 2
    case Busy(SavingEvaluating, _) => 3
    case Busy(Rereading, _) => 4
    case Busy(SavingLock, _) => 5
    case Busy(Predicting, _) => 6
    case Busy(SavingForecasting, _) => 7
    case Busy(SavingContext, _) => 8
    case Busy(Building, _) => 9
  }

  lemma AdvanceProgresses(store: map<int, Record>, b: Runner, a: Answer)
    requires b.Busy?
    ensures Rank(Advance(store, b, a).runner) < Rank(b)
  {
    hide Transition, Saved;
  }

  /** Every step to the end, without a crash. */
  function Finish(store: map<int, Record>, b: Runner, answers: Stage -> Answer): map<int, Record>
    decreases Rank(b)
  {
    if b.Idle? then store
    else
      AdvanceProgresses(store, b, answers(b.stage));
      var p := Advance(store, b, answers(b.stage));
      Finish(p.store, p.runner, answers)
  }

  lemma Unfolds(store: map<int, Record>, b: Runner, answers: Stage -> Answer)
    requires b.Busy?
    ensures var p := Advance(store, b, answers(b.stage));
      Finish(store, b, answers) == Finish(p.store, p.runner, answers)
  {
    hide Advance;
    AdvanceProgresses(store, b, answers(b.stage));
  }

  /** What asking for an outcome gives: no such experiment, the gate, no outcome yet, or the outcome. */
  datatype OracleReply = Unknown | Hidden | Unavailable | Revealed(outcome: Outcome)

  function ReplyOf(store: map<int, Record>, id: int): OracleReply
  {
    if id !in store then Unknown
    else if Blind(store[id].state) then Hidden
    else if store[id].outcome.None? then Unavailable
    else Revealed(store[id].outcome.value)
  }

  class ExperimentService {
    const repository: ExperimentRepository

    constructor (repository: ExperimentRepository)
      ensures this.repository == repository
    {
      this.repository := repository;
    }

    /** Creating is idempotent and refuses a colliding identity; `fails` stands for an error of the
        storage while saving. The record is returned exactly when it is stored. */
    method Create(request: Request, fails: bool) returns (r: Option<Record>)
      modifies repository
      ensures request.id in old(repository.records) ==>
        repository.records == old(repository.records)
        && r == if old(repository.records)[request.id].request == request then Some(old(repository.records)[request.id]) else None
      ensures request.id !in old(repository.records) ==>
        if fails then r == None && repository.records == old(repository.records)
        else r == Some(NewRecord(request)) && repository.records == old(repository.records)[request.id := NewRecord(request)]
    {
      if request.id in repository.records {
        var existing := repository.records[request.id];
        return if existing.request == request then Some(existing) else None;
      }
      var record := NewRecord(request);
      var ok := repository.Save(record, fails);
      return if ok then Some(record) else None;
    }

    /** The source's `run`, up to the failure handler: the record is reassigned through its states and
        every one is saved before the next step. */
    method Run(id: int, answers: Stage -> Answer) returns (ran: bool)
      modifies repository
      ensures ran <==> id in old(repository.records) && old(repository.records)[id].state.Created?
      ensures !ran ==> repository.records == old(repository.records)
      ensures ran ==> repository.records == Finish(old(repository.records), Busy(Building, old(repository.records)[id]), answers)
    {
      hide Transition, Saved, Failing, Consulted;
      if id !in repository.records || !repository.records[id].state.Created? {
        return false;
      }
      var record := repository.records[id];
      var runner := Attempt(record, answers);
      if runner.Busy? {
        var ok := repository.Save(runner.record, answers(SavingResult).fails);
      }
      return true;
    }

    /** The source's `oracle_outcome`. */
    method OracleOutcome(id: int) returns (reply: OracleReply)
      ensures reply == ReplyOf(repository.records, id)
    {
      if id !in repository.records {
        return Unknown;
      }
      var record := repository.records[id];
      if record.state.Created? || record.state.ContextReady? || record.state.Forecasting? {
        return Hidden;
      }
      return if record.outcome.None? then Unavailable else Revealed(record.outcome.value);
    }

    /** The body of the source's `try`, with its handler: what is left to save. */
    method Attempt(created: Record, answers: Stage -> Answer) returns (left: Runner)
      modifies repository
      ensures left.Busy? ==> left.stage.SavingResult?
      ensures Finish(repository.records, left, answers) == Finish(old(repository.records), Busy(Building, created), answers)
    {
      hide Transition, Saved, Failing, Consulted;
      var record := created;
      Unfolds(repository.records, Busy(Building, record), answers);
      if answers(Building).fails {
        FailingEnds(repository.records, record);
        return Failing(repository.records, record).runner;
      }
      var step := Onward(repository.records, record,
                         Transition(record, ContextReady, record.request.evaluationTime,
                                    NO_UPDATES.(context := Some(answers(Building).context))), SavingContext);
      FailingEnds(repository.records, record);
      if step.runner.Idle? || !step.runner.stage.SavingContext? {
        return step.runner;
      }
      record := step.runner.record;
      Unfolds(repository.records, Busy(SavingContext, record), answers);
      var ok := repository.Save(record, answers(SavingContext).fails);
      FailingEnds(repository.records, record);
      if !ok {
        return Failing(repository.records, record).runner;
      }
      step := Onward(repository.records, record, Transition(record, Forecasting, record.request.evaluationTime, NO_UPDATES), SavingForecasting);
      if step.runner.Idle? || !step.runner.stage.SavingForecasting? {
        return step.runner;
      }
      left := Predict(step.runner.record, answers);
    }

    method Predict(forecasting: Record, answers: Stage -> Answer) returns (left: Runner)
      modifies repository
      ensures left.Busy? ==> left.stage.SavingResult?
      ensures Finish(repository.records, left, answers) == Finish(old(repository.records), Busy(SavingForecasting, forecasting), answers)
    {
      hide Transition, Saved, Failing, Consulted;
      var record := forecasting;
      Unfolds(repository.records, Busy(SavingForecasting, record), answers);
      var ok := repository.Save(record, answers(SavingForecasting).fails);
      Unfolds(repository.records, Busy(Predicting, record), answers);
      FailingEnds(repository.records, record);
      if !ok || answers(Predicting).fails {
        return Failing(repository.records, record).runner;
      }
      var step := Onward(repository.records, record,
                         Transition(record, ForecastLocked, answers(Predicting).forecast.finalizedAt,
                                    NO_UPDATES.(forecast := Some(answers(Predicting).forecast))), SavingLock);
      if step.runner.Idle? || !step.runner.stage.SavingLock? {
        return step.runner;
      }
      record := step.runner.record;
      Unfolds(repository.records, Busy(SavingLock, record), answers);
      ok := repository.Save(record, answers(SavingLock).fails);
      FailingEnds(repository.records, record);
      if !ok {
        return Failing(repository.records, record).runner;
      }
      left := Judge(record, answers);
    }

    method Judge(locked: Record, answers: Stage -> Answer) returns (left: Runner)
      modifies repository
      ensures left.Busy? ==> left.stage.SavingResult?
      ensures Finish(repository.records, left, answers) == Finish(old(repository.records), Busy(Rereading, locked), answers)
    {
      hide Transition, Saved, Failing, Consulted;
      Unfolds(repository.records, Busy(Rereading, locked), answers);
      FailingEnds(repository.records, locked);
      if answers(Rereading).fails || locked.request.id !in repository.records {
        return Failing(repository.records, locked).runner;
      }
      var reread := repository.records[locked.request.id];
      if reread.forecast != locked.forecast || !reread.state.ForecastLocked? {
        return Failing(repository.records, locked).runner;
      }
      var step := Onward(repository.records, locked, Transition(reread, Evaluating, locked.request.horizonEnd, NO_UPDATES), SavingEvaluating);
      if step.runner.Idle? || !step.runner.stage.SavingEvaluating? {
        return step.runner;
      }
      var record := step.runner.record;
      Unfolds(repository.records, Busy(SavingEvaluating, record), answers);
      var ok := repository.Save(record, answers(SavingEvaluating).fails);
      Unfolds(repository.records, Busy(Consulting, record), answers);
      FailingEnds(repository.records, record);
      if !ok {
        return Failing(repository.records, record).runner;
      }
      ConsultedEnds(repository.records, record, answers(Consulting));
      left := Consulted(repository.records, record, answers(Consulting)).runner;
    }
  }

  lemma FailingEnds(store: map<int, Record>, r: Record)
    ensures var p := Failing(store, r);
      p.store == store && (p.runner.Busy? ==> p.runner.stage.SavingResult?)
  {
    hide Transition;
  }

  lemma ConsultedEnds(store: map<int, Record>, r: Record, a: Answer)
    ensures var p := Consulted(store, r, a);
      p.store == store && (p.runner.Busy? ==> p.runner.stage.SavingResult?)
  {
    hide Transition;
  }
}
