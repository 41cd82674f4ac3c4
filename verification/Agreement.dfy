/** When the row of a download says what memory says, on any disk. */
module Agreement {
  import opened Wrappers
  import opened Lifecycle
  import opened Queues
  import opened Records
  import opened ManagerModel
  import opened Safety
  import opened SafeSteps
  import opened Scheduling
  import opened Consistency
  import opened Recovery
  import opened Runs
  import opened Fairness
  import opened Agendas

  /** Memory and table say the same about `x`. */
  ghost predicate InAgreement(s: Sys, x: Id) {
    Agrees(s.downloads, s.db, x)
  }

  /** The step changes what the row of `id` should say, and its first database call is the one that writes it. */
  predicate ChangesRow(cfg: Config, env: Env, s: Sys, op: Op, id: Id)
    requires Enabled(s, op)
  {
    id in s.downloads
    && var d := s.downloads[id].info;
       match op
       case DoResume(x) => x == id && d.state.Paused?
       case DoRetry(x) => x == id && d.state.Failed?
       case DoCancel(x) => x == id && !d.state.Active() && !d.state.Terminal()
       case DoRemove(x) => x == id
       case DoProgress(x, n, total) => x == id && Encode(Reported(d, env.clock(s.ticks), n, total)) != Encode(d)
       case DoTaskBegin(t) => s.tasks[t].id == id && d.backend !in cfg.backends
       case DoTaskEnd(t, _) => s.tasks[t].id == id
       case _ => false
  }

  /** The write of the step's own change of `id` fails, or the save of its start. */
  predicate LosesAgreement(cfg: Config, env: Env, s: Sys, op: Op, id: Id)
    requires Enabled(s, op)
  {
    (ChangesRow(cfg, env, s, op, id) && !env.disk(s.dbCalls)) || StartFails(cfg, env, s, op, id)
  }

  // ---------------------------------------------------------------- the pieces of a step

  /** The row of `id` shows the state that memory has. */
  ghost predicate SameState(s: Sys, id: Id) {
    id in s.downloads && s.downloads[id].info.id == id && id in s.db && s.db[id].state == s.downloads[id].info.state
  }

  /** Memory and table have the same of `x` in `s` as in `r`. */
  ghost predicate SameAt(s: Sys, r: Sys, x: Id) {
    && (x in r.downloads <==> x in s.downloads) && (x in s.downloads ==> r.downloads[x].info == s.downloads[x].info)
    && (x in r.db <==> x in s.db) && (x in s.db ==> r.db[x] == s.db[x])
  }

  lemma MoveTouchesOne(env: Env, s: Sys, id: Id, next: DownloadState, error: Option<string>, x: Id)
    requires id in s.downloads ==> s.downloads[id].info.id == id && x != id
    ensures SameAt(s, TransitionState(env, s, id, next, error).0, x)
  {}

  /** A move agrees with its row exactly when its save works, and leaves other downloads and rows alone. */
  lemma MoveAgrees(env: Env, s: Sys, id: Id, next: DownloadState, error: Option<string>)
    requires SameState(s, id) && IsValidTransition(s.downloads[id].info.state, next)
    ensures InAgreement(TransitionState(env, s, id, next, error).0, id) <==> env.disk(s.dbCalls)
  {}

  lemma StartOneAgrees(env: Env, s: Sys, id: Id, x: Id)
    requires StateOf(s, id) == Some(Queued) && s.downloads[id].info.id == id
    ensures x != id ==> (InAgreement(StartOne(env, s, id), x) <==> InAgreement(s, x))
    ensures InAgreement(s, id) ==> (InAgreement(StartOne(env, s, id), id) <==> env.disk(s.dbCalls))
    ensures StartOne(env, s, id).dbCalls == s.dbCalls + 1
  {}

  /** What scheduling `ids`, the first of them saved by call number `calls`, makes of agreement about `x`. */
  ghost predicate ScheduledAgreement(env: Env, s: Sys, calls: nat, ids: seq<Id>, r: Sys, x: Id) {
    && (x !in ids ==> (InAgreement(r, x) <==> InAgreement(s, x)))
    && (x in ids && InAgreement(s, x) ==> (InAgreement(r, x) <==> !SaveFails(env, calls, ids, x)))
  }

  /** From `s` to `s1` the first of `ids` was started, with a save that is call number `s.dbCalls`. */
  ghost predicate FirstStarted(env: Env, s: Sys, s1: Sys, ids: seq<Id>, x: Id) {
    && ids != [] && ids[0] !in ids[1..] && s1.dbCalls == s.dbCalls + 1
    && (x != ids[0] ==> (InAgreement(s1, x) <==> InAgreement(s, x)))
    && (x == ids[0] && InAgreement(s, x) ==> (InAgreement(s1, x) <==> env.disk(s.dbCalls)))
  }

  lemma FirstThenOthers(env: Env, s: Sys, s1: Sys, ids: seq<Id>, r: Sys, x: Id)
    requires FirstStarted(env, s, s1, ids, x) && ScheduledAgreement(env, s1, s1.dbCalls, ids[1..], r, x)
    ensures ScheduledAgreement(env, s, s.dbCalls, ids, r, x)
  {
    SaveFailsFirstOrLater(env, s.dbCalls, ids, x);
    assert x in ids <==> x == ids[0] || x in ids[1..];
  }

  lemma FirstIsStarted(cfg: Config, env: Env, s: Sys, x: Id)
    requires Safe(cfg, s) && Selected(cfg, s) != []
    ensures FirstStarted(env, s, StartOne(env, s, Selected(cfg, s)[0]), Selected(cfg, s), x)
  {
    FirstSelected(cfg, env, s);
    StartOneAgrees(env, s, Selected(cfg, s)[0], x);
  }

  /** Scheduling ends the agreement of exactly those of its selection whose save fails. */
  lemma {:induction false} ScheduleAgrees(cfg: Config, env: Env, s: Sys, x: Id)
    requires Safe(cfg, s)
    ensures ScheduledAgreement(env, s, s.dbCalls, Selected(cfg, s), Schedule(cfg, env, s), x)
    decreases |s.queue|
  {
    var ids := Selected(cfg, s);
    if ids != [] {
      var s1 := StartOne(env, s, ids[0]);
      FirstIsStarted(cfg, env, s, x);
      FirstSelected(cfg, env, s);
      ScheduleAgrees(cfg, env, s1, x);
      FirstThenOthers(env, s, s1, ids, Schedule(cfg, env, s), x);
    }
  }

  // ---------------------------------------------------------------- the steps

  lemma RequeueAgrees(cfg: Config, env: Env, s: Sys, id: Id, x: Id)
    requires Safe(cfg, s) && InAgreement(s, x) && (StateOf(s, id) == Some(Paused) || StateOf(s, id) == Some(Failed))
    ensures InAgreement(Requeue(env, s, id).0, x) <==> x != id || env.disk(s.dbCalls)
  {
    if x == id {
      MoveAgrees(env, s, id, Queued, None);
    } else {
      MoveTouchesOne(env, s, id, Queued, None, x);
    }
  }

  lemma ArrivalAgrees(cfg: Config, env: Env, s: Sys, id: Id, spec: Spec, x: Id)
    requires Safe(cfg, s) && id !in s.seen && InAgreement(s, x)
    ensures env.disk(s.dbCalls) ==> InAgreement(Admitted(env, s, id, spec), x)
    ensures !env.disk(s.dbCalls) ==> InAgreement(Record(env, s, id, spec).0, x)
  {}

  lemma ForgettingAgrees(env: Env, s: Sys, id: Id, x: Id)
    requires InAgreement(s, x)
    ensures InAgreement(Forget(env, s, id).0, x) <==> x != id || x !in s.downloads || env.disk(s.dbCalls)
  {}

  /** The end of a task of `id`: its final move agrees exactly when its save works. */
  lemma RestAgrees(cfg: Config, env: Env, s: Sys, s1: Sys, id: Id, next: DownloadState, error: Option<string>, x: Id)
    requires Safe(cfg, s) && InAgreement(s, x) && (id in s.downloads ==> s.downloads[id].info.state.Active())
    requires s1.downloads == s.downloads && s1.db == s.db && s1.dbCalls == s.dbCalls
    requires next.Paused? || next.Cancelled? || next.Failed?
    ensures InAgreement(TransitionState(env, s1, id, next, error).0, x) <==>
              x != id || x !in s.downloads || env.disk(s.dbCalls)
  {
    if x == id && id in s.downloads {
      MoveAgrees(env, s1, id, next, error);
    } else {
      MoveTouchesOne(env, s1, id, next, error, x);
    }
  }

  lemma FinishAgrees(cfg: Config, env: Env, s: Sys, id: Id, r: BackendResult, x: Id)
    requires Safe(cfg, s) && InAgreement(s, x) && (id in s.downloads ==> s.downloads[id].info.state.Active())
    requires r.Finished?
    ensures InAgreement(Settle(env, s, id, r), x) <==> x != id || x !in s.downloads || env.disk(s.dbCalls)
  {
    var m := RecordOutcome(env, s, id, r);
    if x == id && id in s.downloads {
      MoveAgrees(env, m, id, Completed, None);
    } else {
      MoveTouchesOne(env, m, id, Completed, None, x);
    }
  }

  lemma SettleAgrees(cfg: Config, env: Env, s: Sys, id: Id, r: BackendResult, x: Id)
    requires Safe(cfg, s) && InAgreement(s, x) && (id in s.downloads ==> s.downloads[id].info.state.Active())
    ensures InAgreement(Settle(env, s, id, r), x) <==> x != id || x !in s.downloads || env.disk(s.dbCalls)
  {
    var s1 := s.(intents := s.intents - {id});
    match r
    case Finished(_, _, _) => FinishAgrees(cfg, env, s, id, r, x);
    case Stopped =>
      if id in s.intents {
        RestAgrees(cfg, env, s, s1, id, Paused, Some("paused by user"), x);
      } else {
        RestAgrees(cfg, env, s, s1, id, Cancelled, Some("cancelled by user"), x);
      }
    case Broken(error) => RestAgrees(cfg, env, s, s1, id, Failed, Some(error), x);
  }

  lemma TaskAgrees(cfg: Config, env: Env, s: Sys, op: Op, x: Id)
    requires Safe(cfg, s) && Enabled(s, op) && (op.DoTaskBegin? || op.DoTaskEnd?) && EndsInSchedule(cfg, env, s, op)
    requires InAgreement(s, x)
    ensures InAgreement(Handed(cfg, env, s, op), x) <==> !ChangesRow(cfg, env, s, op, x) || env.disk(s.dbCalls)
    ensures ChangesRow(cfg, env, s, op, x) ==> x in ActiveIds(s.downloads)
  {
    var t, id := op.task, s.tasks[op.task].id;
    if op.DoTaskEnd? {
      DropIsSafe(cfg, s, t);
      SettleAgrees(cfg, env, DropTask(s, t), id, op.result, x);
    } else {
      RestAgrees(cfg, env, s, DropTask(s, t), id, Failed, Some(NO_BACKEND), x);
    }
  }

  /** What a step that schedules does first. */
  lemma HandedAgrees(cfg: Config, env: Env, s: Sys, op: Op, x: Id)
    requires Safe(cfg, s) && Enabled(s, op) && EndsInSchedule(cfg, env, s, op) && InAgreement(s, x)
    ensures InAgreement(Handed(cfg, env, s, op), x) <==> !ChangesRow(cfg, env, s, op, x) || env.disk(s.dbCalls)
    ensures ChangesRow(cfg, env, s, op, x) && !env.disk(s.dbCalls) ==> x in ActiveIds(s.downloads)
  {
    SchedulesExactlyWithAgenda(cfg, env, s, op);
    match op
    case DoEnqueue(id, spec) => ArrivalAgrees(cfg, env, s, id, spec, x);
    case DoResume(id) => RequeueAgrees(cfg, env, s, id, x);
    case DoRetry(id) => RequeueAgrees(cfg, env, s, id, x);
    case DoRemove(id) => ForgettingAgrees(env, s, id, x);
    case DoTaskBegin(_) => TaskAgrees(cfg, env, s, op, x);
    case DoTaskEnd(_, _) => TaskAgrees(cfg, env, s, op, x);
  }

  lemma SchedulingStepAgrees(cfg: Config, env: Env, s: Sys, op: Op, x: Id)
    requires Safe(cfg, s) && Enabled(s, op) && EndsInSchedule(cfg, env, s, op) && InAgreement(s, x)
    ensures InAgreement(Apply(cfg, env, s, op).0, x) <==> !LosesAgreement(cfg, env, s, op, x)
  {
    SchedulesExactlyWithAgenda(cfg, env, s, op);
    SelectsWhatBegins(cfg, env, s, op);
    HandedAgrees(cfg, env, s, op, x);
    AgendaIsAtRest(cfg, env, s, op, x);
    ScheduleAgrees(cfg, env, Handed(cfg, env, s, op), x);
  }

  lemma StartAgrees(cfg: Config, env: Env, s: Sys, id: Id, x: Id)
    requires Safe(cfg, s) && InAgreement(s, x)
    ensures InAgreement(Start(cfg, env, s, id).0, x) <==> !LosesAgreement(cfg, env, s, DoStart(id), x)
  {
    StartBegins(cfg, env, s, id);
    if StateOf(s, id) == Some(Queued) && CountActive(s.downloads) < cfg.limit {
      StartOneAgrees(env, s, id, x);
    }
  }

  lemma CancelAgrees(cfg: Config, env: Env, s: Sys, id: Id, x: Id)
    requires Safe(cfg, s) && InAgreement(s, x)
    ensures InAgreement(Cancel(env, s, id).0, x) <==> !LosesAgreement(cfg, env, s, DoCancel(id), x)
  {
    if id in s.downloads && !s.downloads[id].info.state.Active() && !s.downloads[id].info.state.Terminal() {
      var s1 := s.(queue := Without(s.queue, id));
      if x == id {
        MoveAgrees(env, s1, id, Cancelled, Some("cancelled by user"));
      } else {
        MoveTouchesOne(env, s1, id, Cancelled, Some("cancelled by user"), x);
      }
    }
  }

  lemma ProgressAgrees(cfg: Config, env: Env, s: Sys, id: Id, downloaded: u64, total: Option<u64>, x: Id)
    requires Safe(cfg, s) && InAgreement(s, x)
    ensures InAgreement(Progress(env, s, id, downloaded, total), x) <==>
              !LosesAgreement(cfg, env, s, DoProgress(id, downloaded, total), x)
  {}

  lemma RefusalAgrees(cfg: Config, env: Env, s: Sys, op: Op, x: Id)
    requires Safe(cfg, s) && Enabled(s, op) && !EndsInSchedule(cfg, env, s, op) && InAgreement(s, x)
    requires op.DoResume? || op.DoRetry?
    ensures InAgreement(Apply(cfg, env, s, op).0, x) <==> !LosesAgreement(cfg, env, s, op, x)
  {
    SchedulesExactlyWithAgenda(cfg, env, s, op);
    if StateOf(s, op.id) == Some(if op.DoResume? then Paused else Failed) {
      RequeueAgrees(cfg, env, s, op.id, x);
    }
  }

  lemma QuietStepAgrees(cfg: Config, env: Env, s: Sys, op: Op, x: Id)
    requires Safe(cfg, s) && Enabled(s, op) && !EndsInSchedule(cfg, env, s, op) && !op.DoStart? && InAgreement(s, x)
    ensures InAgreement(Apply(cfg, env, s, op).0, x) <==> !LosesAgreement(cfg, env, s, op, x)
  {
    SchedulesExactlyWithAgenda(cfg, env, s, op);
    match op
    case DoEnqueue(id, spec) => ArrivalAgrees(cfg, env, s, id, spec, x);
    case DoResume(_) => RefusalAgrees(cfg, env, s, op, x);
    case DoRetry(_) => RefusalAgrees(cfg, env, s, op, x);
    case DoCancel(id) => CancelAgrees(cfg, env, s, id, x);
    case DoRemove(id) => ForgettingAgrees(env, s, id, x);
    case DoProgress(id, n, total) => ProgressAgrees(cfg, env, s, id, n, total, x);
    case _ =>
  }

  /**
   * Every step, on any disk: a row that says what memory says goes on doing so, unless, and only unless, the write of
   * the step's own change of that download fails, or the save of its start.
   */
  lemma AgreesAfterStep(cfg: Config, env: Env, s: Sys, op: Op, x: Id)
    requires Safe(cfg, s) && Enabled(s, op) && InAgreement(s, x)
    ensures InAgreement(Apply(cfg, env, s, op).0, x) <==> !LosesAgreement(cfg, env, s, op, x)
  {
    if EndsInSchedule(cfg, env, s, op) {
      SchedulingStepAgrees(cfg, env, s, op, x);
    } else if op.DoStart? {
      StartAgrees(cfg, env, s, op.id, x);
    } else {
      QuietStepAgrees(cfg, env, s, op, x);
    }
  }

  // ---------------------------------------------------------------- whole runs

  ghost predicate LosesAgreementAt(cfg: Config, env: Env, trace: seq<Sys>, ops: seq<Op>, j: nat, x: Id) {
    j < |ops| < |trace| && Enabled(trace[j], ops[j]) && LosesAgreement(cfg, env, trace[j], ops[j], x)
  }

  lemma AgreesOneMore(cfg: Config, env: Env, trace: seq<Sys>, ops: seq<Op>, k: nat, x: Id)
    requires Steps(cfg, env, trace, ops) && k < |ops| && Safe(cfg, trace[k]) && InAgreement(trace[k], x)
    ensures InAgreement(trace[k + 1], x) <==> !LosesAgreementAt(cfg, env, trace, ops, k, x)
  {
    AgreesAfterStep(cfg, env, trace[k], ops[k], x);
  }

  lemma {:induction false} AgreesUntilAWriteFails(cfg: Config, env: Env, trace: seq<Sys>, ops: seq<Op>, k: nat, x: Id)
    requires Steps(cfg, env, trace, ops) && Safe(cfg, trace[0]) && k < |trace| && InAgreement(trace[0], x)
    requires forall j :: 0 <= j < k ==> !LosesAgreementAt(cfg, env, trace, ops, j, x)
    ensures InAgreement(trace[k], x)
    decreases k
  {
    if k > 0 {
      AgreesUntilAWriteFails(cfg, env, trace, ops, k - 1, x);
      StepsAreSafe(cfg, env, trace, ops, k - 1);
      AgreesOneMore(cfg, env, trace, ops, k - 1, x);
    }
  }

  /**
   * In every run on a table of saved rows, on any disk, the row of a download differs from memory only if some earlier
   * step changed that very download and could not write it.
   */
  lemma RowsDifferOnlyByFailedWrites(cfg: Config, env: Env, db: Table, trace: seq<Sys>, ops: seq<Op>, k: nat, x: Id)
    requires Life(cfg, env, db, trace, ops) && Canonical(db) && k < |trace| && !InAgreement(trace[k], x)
    ensures exists j :: 0 <= j < k && LosesAgreementAt(cfg, env, trace, ops, j, x)
  {
    LifeIsSafe(cfg, env, db, trace, ops, 0);
    OpenRecovers(cfg, env, db);
    OpenKeepsCanonical(cfg.policy, db, trace[0].db);
    OpenAgrees(cfg.policy, db, trace[0], x);
    if forall j :: 0 <= j < k ==> !LosesAgreementAt(cfg, env, trace, ops, j, x) {
      AgreesUntilAWriteFails(cfg, env, trace, ops, k, x);
    }
  }
}
