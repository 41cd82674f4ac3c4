/** Active downloads that no task will ever move on: how they come about, and that only a removal ends them. */
module StuckDownloads {
  import opened Wrappers
  import opened Lifecycle
  import opened Queues
  import opened Records
  import opened ManagerModel
  import opened Safety
  import opened SafeSteps
  import opened Scheduling
  import opened Recovery
  import opened Runs
  import opened Fairness
  import opened Agendas

  /** The download counts as active, but no task exists for it. */
  ghost predicate Stuck(s: Sys, id: Id) {
    id in s.downloads && s.downloads[id].info.state.Active() && NoTask(s.tasks, id)
  }

  /** Beginning a Queued download spawns its task exactly when its save works, and no other download's. */
  lemma BeginSpawns(env: Env, s: Sys, id: Id, x: Id)
    requires StateOf(s, id) == Some(Queued) && s.nextTask !in s.tasks && NoTask(s.tasks, id)
    ensures var r := BeginDownload(env, s, id);
            && r.dbCalls == s.dbCalls + 1
            && (x != id ==> (NoTask(r.tasks, x) <==> NoTask(s.tasks, x)))
            && (NoTask(r.tasks, id) <==> !env.disk(s.dbCalls))
  {
    var r := BeginDownload(env, s, id);
    if env.disk(s.dbCalls) {
      assert r.tasks == s.tasks[s.nextTask := Spawned(id)];
      assert r.tasks[s.nextTask].id == id;
      assert forall t :: t in s.tasks ==> r.tasks[t] == s.tasks[t];
    } else {
      assert r.tasks == s.tasks;
    }
  }

  lemma StartOneSpawns(cfg: Config, env: Env, s: Sys, id: Id, x: Id)
    requires Safe(cfg, s) && StateOf(s, id) == Some(Queued)
    ensures var r := StartOne(env, s, id);
            && r.dbCalls == s.dbCalls + 1
            && (x != id ==> (NoTask(r.tasks, x) <==> NoTask(s.tasks, x)))
            && (x != id ==> (Stuck(r, x) <==> Stuck(s, x)))
            && (Stuck(r, id) <==> !env.disk(s.dbCalls))
  {
    var s0 := s.(queue := Without(s.queue, id));
    RestingHasNoTask(cfg, s, id);
    BeginSpawns(env, s0, id, x);
    BeginEffect(env, s0, id);
  }

  lemma FirstStart(env: Env, s: Sys, s1: Sys, r: Sys, ids: seq<Id>, x: Id)
    requires ids != [] && ids[0] !in ids[1..] && !Stuck(s, ids[0]) && s1.dbCalls == s.dbCalls + 1
    requires x != ids[0] ==> (Stuck(s1, x) <==> Stuck(s, x))
    requires Stuck(s1, ids[0]) <==> !env.disk(s.dbCalls)
    requires Stuck(r, x) <==> Stuck(s1, x) || SaveFails(env, s1.dbCalls, ids[1..], x)
    ensures Stuck(r, x) <==> Stuck(s, x) || SaveFails(env, s.dbCalls, ids, x)
  {
    SaveFailsFirstOrLater(env, s.dbCalls, ids, x);
  }

  /** Scheduling leaves stuck, exactly, those of its selection whose save fails. */
  lemma {:induction false} ScheduleSpawns(cfg: Config, env: Env, s: Sys, x: Id)
    requires Safe(cfg, s)
    ensures Stuck(Schedule(cfg, env, s), x) <==> Stuck(s, x) || SaveFails(env, s.dbCalls, Selected(cfg, s), x)
    decreases |s.queue|
  {
    var ids := Selected(cfg, s);
    if ids != [] {
      var s1 := StartOne(env, s, ids[0]);
      FirstSelected(cfg, env, s);
      StartOneSpawns(cfg, env, s, ids[0], x);
      ScheduleSpawns(cfg, env, s1, x);
      FirstStart(env, s, s1, Schedule(cfg, env, s), ids, x);
    }
  }

  // ---------------------------------------------------------------- the steps

  /** A move to rest, of a download that has no task, leaves nothing stuck. */
  lemma RestKeepsOthers(env: Env, s: Sys, id: Id, next: DownloadState, error: Option<string>, x: Id)
    requires !next.Active() && (id in s.downloads ==> IsValidTransition(s.downloads[id].info.state, next))
    ensures var r := TransitionState(env, s, id, next, error).0;
            && r.tasks == s.tasks
            && (x != id ==> (Stuck(r, x) <==> Stuck(s, x)))
            && !Stuck(r, id)
  {}

  lemma RequeueKeepsStuck(env: Env, s: Sys, id: Id, x: Id)
    requires StateOf(s, id) == Some(Paused) || StateOf(s, id) == Some(Failed)
    ensures Stuck(Requeue(env, s, id).0, x) <==> Stuck(s, x)
  {
    RestKeepsOthers(env, s, id, Queued, None, x);
  }

  lemma CancelKeepsStuck(env: Env, s: Sys, id: Id, x: Id)
    ensures Stuck(Cancel(env, s, id).0, x) <==> Stuck(s, x)
  {
    if id in s.downloads && !s.downloads[id].info.state.Active() && !s.downloads[id].info.state.Terminal() {
      RestKeepsOthers(env, s.(queue := Without(s.queue, id)), id, Cancelled, Some("cancelled by user"), x);
    } else {
      assert Cancel(env, s, id).0.tasks == s.tasks && Cancel(env, s, id).0.downloads == s.downloads;
    }
  }

  lemma ArrivalKeepsStuck(cfg: Config, env: Env, s: Sys, id: Id, spec: Spec, x: Id)
    requires Safe(cfg, s) && id !in s.seen
    ensures Stuck(Admitted(env, s, id, spec), x) <==> Stuck(s, x)
    ensures Stuck(Record(env, s, id, spec).0, x) <==> Stuck(s, x)
  {}

  lemma ForgettingKeepsStuck(env: Env, s: Sys, id: Id, x: Id)
    ensures Stuck(Forget(env, s, id).0, x) <==> Stuck(s, x) && x != id
  {}

  lemma DropKeepsOthers(s: Sys, t: TaskId, x: Id)
    requires t in s.tasks && s.tasks[t].id != x
    ensures NoTask(DropTask(s, t).tasks, x) <==> NoTask(s.tasks, x)
    ensures Stuck(DropTask(s, t), x) <==> Stuck(s, x)
  {
    assert DropTask(s, t).tasks == s.tasks - {t};
    assert forall u :: u in s.tasks && u != t ==> u in s.tasks - {t};
  }

  /** A task that vanishes leaves its download stuck, unless that was removed; nobody else is touched. */
  lemma VanishingLeavesStuck(cfg: Config, s: Sys, t: TaskId, x: Id)
    requires Safe(cfg, s) && t in s.tasks
    ensures Stuck(DropTask(s, t), x) <==> Stuck(s, x) || (x == s.tasks[t].id && x in s.downloads)
  {
    if x != s.tasks[t].id {
      DropKeepsOthers(s, t, x);
    } else if x in s.downloads {
      DropIsSafe(cfg, s, t);
    }
  }

  lemma FinishedAttempt(cfg: Config, env: Env, s: Sys, t: TaskId, r: BackendResult, x: Id)
    requires Safe(cfg, s) && t in s.tasks && r.Finished?
    ensures Stuck(SettleTask(env, s, t, r), x) <==> Stuck(s, x)
  {
    var id, s0 := s.tasks[t].id, DropTask(s, t);
    RestKeepsOthers(env, RecordOutcome(env, s0, id, r), id, Completed, None, x);
    if x != id {
      DropKeepsOthers(s, t, x);
      assert Stuck(RecordOutcome(env, s0, id, r), x) <==> Stuck(s0, x);
    }
  }

  lemma RestedAttempt(cfg: Config, env: Env, s: Sys, t: TaskId, next: DownloadState, error: Option<string>, x: Id)
    requires Safe(cfg, s) && t in s.tasks && (next.Paused? || next.Cancelled? || next.Failed?)
    ensures var s1 := DropTask(s, t).(intents := s.intents - {s.tasks[t].id});
            Stuck(TransitionState(env, s1, s.tasks[t].id, next, error).0, x) <==> Stuck(s, x)
  {
    RestKeepsOthers(env, DropTask(s, t).(intents := s.intents - {s.tasks[t].id}), s.tasks[t].id, next, error, x);
    if x != s.tasks[t].id {
      DropKeepsOthers(s, t, x);
    }
  }

  lemma SettledAttempt(cfg: Config, env: Env, s: Sys, t: TaskId, r: BackendResult, x: Id)
    requires Safe(cfg, s) && t in s.tasks
    ensures Stuck(SettleTask(env, s, t, r), x) <==> Stuck(s, x)
  {
    match r
    case Finished(_, _, _) => FinishedAttempt(cfg, env, s, t, r, x);
    case Stopped =>
      if s.tasks[t].id in s.intents {
        RestedAttempt(cfg, env, s, t, Paused, Some("paused by user"), x);
      } else {
        RestedAttempt(cfg, env, s, t, Cancelled, Some("cancelled by user"), x);
      }
    case Broken(error) => RestedAttempt(cfg, env, s, t, Failed, Some(error), x);
  }

  lemma FailedAttempt(cfg: Config, env: Env, s: Sys, t: TaskId, x: Id)
    requires Safe(cfg, s) && t in s.tasks
    ensures Stuck(FailWithoutBackend(env, s, t), x) <==> Stuck(s, x)
  {
    RestKeepsOthers(env, DropTask(s, t), s.tasks[t].id, Failed, Some(NO_BACKEND), x);
    if x != s.tasks[t].id {
      DropKeepsOthers(s, t, x);
    }
  }

  /** What a step does before it schedules gets nothing stuck, and loosens nothing but what it removes. */
  lemma HandedKeepsStuck(cfg: Config, env: Env, s: Sys, op: Op, x: Id)
    requires Safe(cfg, s) && Enabled(s, op) && EndsInSchedule(cfg, env, s, op)
    ensures Stuck(Handed(cfg, env, s, op), x) <==> Stuck(s, x) && op != DoRemove(x)
  {
    match op
    case DoEnqueue(id, spec) => ArrivalKeepsStuck(cfg, env, s, id, spec, x);
    case DoResume(id) => RequeueKeepsStuck(env, s, id, x);
    case DoRetry(id) => RequeueKeepsStuck(env, s, id, x);
    case DoRemove(id) => ForgettingKeepsStuck(env, s, id, x);
    case DoTaskBegin(t) => FailedAttempt(cfg, env, s, t, x);
    case DoTaskEnd(t, r) => SettledAttempt(cfg, env, s, t, r, x);
  }

  /** A step that schedules leaves stuck, exactly, those it begins and cannot save. */
  lemma SchedulingStepAndStuck(cfg: Config, env: Env, s: Sys, op: Op, x: Id)
    requires Safe(cfg, s) && Enabled(s, op) && EndsInSchedule(cfg, env, s, op)
    ensures Stuck(Apply(cfg, env, s, op).0, x) <==>
              (Stuck(s, x) && op != DoRemove(x)) || StartFails(cfg, env, s, op, x)
  {
    SelectsWhatBegins(cfg, env, s, op);
    HandedKeepsStuck(cfg, env, s, op, x);
    ScheduleSpawns(cfg, env, Handed(cfg, env, s, op), x);
  }

  lemma StartAndStuck(cfg: Config, env: Env, s: Sys, id: Id, x: Id)
    requires Safe(cfg, s)
    ensures Stuck(Start(cfg, env, s, id).0, x) <==> Stuck(s, x) || StartFails(cfg, env, s, DoStart(id), x)
  {
    StartBegins(cfg, env, s, id);
    if StateOf(s, id) == Some(Queued) && CountActive(s.downloads) < cfg.limit {
      StartOneSpawns(cfg, env, s, id, x);
    }
  }

  lemma HandOverKeepsTask(tasks: Tasks, t: TaskId, task: Task, x: Id)
    requires t in tasks && task.id == tasks[t].id
    ensures NoTask(tasks[t := task], x) <==> NoTask(tasks, x)
  {
    assert forall u :: u in tasks ==> tasks[t := task][u].id == tasks[u].id;
  }

  lemma HandOverKeepsStuck(cfg: Config, env: Env, s: Sys, t: TaskId, x: Id)
    requires Safe(cfg, s) && Enabled(s, DoTaskBegin(t)) && !EndsInSchedule(cfg, env, s, DoTaskBegin(t))
    ensures Stuck(TaskBegin(cfg, env, s, t), x) <==> Stuck(s, x)
  {
    if s.tasks[t].id in s.downloads {
      HandOverKeepsTask(s.tasks, t, TaskBegin(cfg, env, s, t).tasks[t], x);
    } else {
      VanishingLeavesStuck(cfg, s, t, x);
    }
  }

  lemma RefusalKeepsStuck(cfg: Config, env: Env, s: Sys, id: Id, x: Id)
    ensures Resume(cfg, env, s, id).1.Rejected? ==> (Stuck(Resume(cfg, env, s, id).0, x) <==> Stuck(s, x))
    ensures Retry(cfg, env, s, id).1.Rejected? ==> (Stuck(Retry(cfg, env, s, id).0, x) <==> Stuck(s, x))
  {
    if StateOf(s, id) == Some(Paused) || StateOf(s, id) == Some(Failed) {
      RequeueKeepsStuck(env, s, id, x);
    }
  }

  lemma CallbacksKeepStuck(env: Env, s: Sys, op: Op, x: Id)
    ensures op.DoPause? ==> (Stuck(Pause(s, op.id).0, x) <==> Stuck(s, x))
    ensures Stuck(Shutdown(s), x) <==> Stuck(s, x)
    ensures op.DoProgress? ==> (Stuck(Progress(env, s, op.id, op.downloaded, op.total), x) <==> Stuck(s, x))
  {}

  lemma QuietStepAndStuck(cfg: Config, env: Env, s: Sys, op: Op, x: Id)
    requires Safe(cfg, s) && Enabled(s, op) && !EndsInSchedule(cfg, env, s, op) && !op.DoStart?
    ensures Stuck(Apply(cfg, env, s, op).0, x) <==>
              || (Stuck(s, x) && op != DoRemove(x))
              || (op.DoTaskVanish? && x == s.tasks[op.task].id && x in s.downloads)
  {
    match op
    case DoEnqueue(id, spec) => ArrivalKeepsStuck(cfg, env, s, id, spec, x);
    case DoResume(id) => RefusalKeepsStuck(cfg, env, s, id, x);
    case DoRetry(id) => RefusalKeepsStuck(cfg, env, s, id, x);
    case DoCancel(id) => CancelKeepsStuck(env, s, id, x);
    case DoRemove(id) => ForgettingKeepsStuck(env, s, id, x);
    case DoTaskBegin(t) => HandOverKeepsStuck(cfg, env, s, t, x);
    case DoTaskVanish(t) => VanishingLeavesStuck(cfg, s, t, x);
    case _ => CallbacksKeepStuck(env, s, op, x);
  }

  /** The step begins `id` and cannot save that, or ends the aborted task of `id`. */
  predicate GetsStuck(cfg: Config, env: Env, s: Sys, op: Op, id: Id)
    requires Enabled(s, op)
  {
    || StartFails(cfg, env, s, op, id)
    || (op.DoTaskVanish? && id == s.tasks[op.task].id && id in s.downloads)
  }

  /**
   * Every step, on any disk: the downloads stuck afterwards are exactly those stuck before that it does not remove,
   * those it begins whose save fails, and the one whose aborted task ends.
   */
  lemma StuckAfterStep(cfg: Config, env: Env, s: Sys, op: Op, id: Id)
    requires Safe(cfg, s) && Enabled(s, op)
    ensures Stuck(Apply(cfg, env, s, op).0, id) <==>
              (Stuck(s, id) && op != DoRemove(id)) || GetsStuck(cfg, env, s, op, id)
  {
    SchedulesExactlyWithAgenda(cfg, env, s, op);
    if EndsInSchedule(cfg, env, s, op) {
      SchedulingStepAndStuck(cfg, env, s, op, id);
    } else if op.DoStart? {
      StartAndStuck(cfg, env, s, op.id, id);
    } else {
      QuietStepAndStuck(cfg, env, s, op, id);
    }
  }

  // ---------------------------------------------------------------- whole runs

  /**
   * An accepted start of a Queued download with room makes it Starting on any disk, and leaves it without a task, hence
   * stuck, exactly when its save fails; the caller is told of success either way.
   */
  lemma StartGetsStuckExactlyWhenItsSaveFails(cfg: Config, env: Env, s: Sys, id: Id)
    requires Safe(cfg, s) && StateOf(s, id) == Some(Queued) && CountActive(s.downloads) < cfg.limit
    ensures var (r, reply) := Start(cfg, env, s, id);
            && reply.Accepted? && StateOf(r, id) == Some(Starting)
            && (Stuck(r, id) <==> !env.disk(s.dbCalls))
            && (NoTask(r.tasks, id) <==> !env.disk(s.dbCalls))
  {
    StartOneSpawns(cfg, env, s, id, id);
    BeginEffect(env, s.(queue := Without(s.queue, id)), id);
  }

  /** Some moment before `k` starts it, and none after that, before `k`, ends it. */
  ghost predicate Lasting(starts: nat -> bool, ends: nat -> bool, k: nat) {
    exists j :: 0 <= j < k && starts(j) && forall i :: j < i < k ==> !ends(i)
  }

  lemma LastingOneMore(starts: nat -> bool, ends: nat -> bool, k: nat)
    ensures Lasting(starts, ends, k + 1) <==> (Lasting(starts, ends, k) && !ends(k)) || starts(k)
  {
    if Lasting(starts, ends, k + 1) && !starts(k) {
      var j :| 0 <= j < k + 1 && starts(j) && forall i :: j < i < k + 1 ==> !ends(i);
      assert j < k;
    }
  }

  ghost predicate GetsStuckAt(cfg: Config, env: Env, trace: seq<Sys>, ops: seq<Op>, j: nat, id: Id) {
    j < |ops| < |trace| && Enabled(trace[j], ops[j]) && GetsStuck(cfg, env, trace[j], ops[j], id)
  }

  predicate RemovedAt(ops: seq<Op>, j: nat, id: Id) {
    j < |ops| && ops[j] == DoRemove(id)
  }

  /** One of the first `k` steps got `id` stuck, and none of those after it removed it. */
  ghost predicate GotStuck(cfg: Config, env: Env, trace: seq<Sys>, ops: seq<Op>, k: nat, id: Id) {
    Lasting((j: nat) => GetsStuckAt(cfg, env, trace, ops, j, id), (j: nat) => RemovedAt(ops, j, id), k)
  }

  lemma GotStuckOneMore(cfg: Config, env: Env, trace: seq<Sys>, ops: seq<Op>, k: nat, id: Id)
    ensures GotStuck(cfg, env, trace, ops, k + 1, id) <==>
              || (GotStuck(cfg, env, trace, ops, k, id) && !RemovedAt(ops, k, id))
              || GetsStuckAt(cfg, env, trace, ops, k, id)
  {
    LastingOneMore((j: nat) => GetsStuckAt(cfg, env, trace, ops, j, id), (j: nat) => RemovedAt(ops, j, id), k);
  }

  lemma StuckOneMore(cfg: Config, env: Env, trace: seq<Sys>, ops: seq<Op>, k: nat, id: Id)
    requires Steps(cfg, env, trace, ops) && k < |ops| && Safe(cfg, trace[k])
    ensures Stuck(trace[k + 1], id) <==>
              (Stuck(trace[k], id) && !RemovedAt(ops, k, id)) || GetsStuckAt(cfg, env, trace, ops, k, id)
  {
    StuckAfterStep(cfg, env, trace[k], ops[k], id);
  }

  lemma HistoryOneMore(cfg: Config, env: Env, trace: seq<Sys>, ops: seq<Op>, k: nat, id: Id)
    requires Steps(cfg, env, trace, ops) && k < |ops| && Safe(cfg, trace[k])
    requires Stuck(trace[k], id) <==> GotStuck(cfg, env, trace, ops, k, id)
    ensures Stuck(trace[k + 1], id) <==> GotStuck(cfg, env, trace, ops, k + 1, id)
  {
    StuckOneMore(cfg, env, trace, ops, k, id);
    GotStuckOneMore(cfg, env, trace, ops, k, id);
  }

  lemma {:induction false} StuckIsHistory(cfg: Config, env: Env, trace: seq<Sys>, ops: seq<Op>, k: nat, id: Id)
    requires Steps(cfg, env, trace, ops) && Safe(cfg, trace[0]) && !Stuck(trace[0], id) && k < |trace|
    ensures Stuck(trace[k], id) <==> GotStuck(cfg, env, trace, ops, k, id)
    decreases k
  {
    if k > 0 {
      StuckIsHistory(cfg, env, trace, ops, k - 1, id);
      StepsAreSafe(cfg, env, trace, ops, k - 1);
      HistoryOneMore(cfg, env, trace, ops, k - 1, id);
    }
  }

  /**
   * In every run, on any disk, an active download has no task exactly when some step began it and could not save
   * that, or ended its aborted task, and no later step removed it; pausing, cancelling and all else leave it stuck.
   */
  lemma StuckExactlyWhen(cfg: Config, env: Env, db: Table, trace: seq<Sys>, ops: seq<Op>, k: nat, id: Id)
    requires Life(cfg, env, db, trace, ops) && k < |trace|
    ensures Stuck(trace[k], id) <==> GotStuck(cfg, env, trace, ops, k, id)
  {
    LifeIsSafe(cfg, env, db, trace, ops, 0);
    OpenRecovers(cfg, env, db);
    OpenQueuesAll(cfg.policy, db, trace[0]);
    StuckIsHistory(cfg, env, trace, ops, k, id);
  }

  /** In every run, on any disk, a stuck download stays stuck, whatever is asked of it, until it is removed. */
  lemma {:induction false} StuckUntilRemoved(cfg: Config, env: Env, trace: seq<Sys>, ops: seq<Op>, i: nat, k: nat, id: Id)
    requires Steps(cfg, env, trace, ops) && Safe(cfg, trace[0]) && i <= k < |trace| && Stuck(trace[i], id)
    requires forall j :: i <= j < k ==> !RemovedAt(ops, j, id)
    ensures Stuck(trace[k], id)
    decreases k
  {
    if i < k {
      StuckUntilRemoved(cfg, env, trace, ops, i, k - 1, id);
      StepsAreSafe(cfg, env, trace, ops, k - 1);
      StuckOneMore(cfg, env, trace, ops, k - 1, id);
    }
  }
}
