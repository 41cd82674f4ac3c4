/** What a step does to the tasks: who is handed over with which rate, who can be aborted, and what a shutdown does. */
module TaskLives {
  import opened Wrappers
  import opened Lifecycle
  import opened Queues
  import opened Records
  import opened Bandwidth
  import opened ManagerModel
  import opened Safety
  import opened Scheduling
  import opened Recovery
  import opened Runs
  import opened Fairness
  import opened Agendas
  import opened Permits

  // ---------------------------------------------------------------- shutdown

  /** A shutdown aborts exactly the tasks that records hold handles on, takes these handles, and touches nothing else. */
  lemma ShutdownAborts(s: Sys, t: TaskId)
    ensures var r := Shutdown(s);
            && (t in r.aborted <==> t in s.aborted || exists id :: id in s.downloads && s.downloads[id].handle == Some(t))
            && r.downloads.Keys == s.downloads.Keys
            && (forall id :: id in s.downloads ==>
                  && r.downloads[id].info == s.downloads[id].info && r.downloads[id].cancel == s.downloads[id].cancel
                  && r.downloads[id].handle.None?)
            && r == s.(aborted := r.aborted, downloads := r.downloads)
  {
    ShutdownContinues(s, t, 0);
  }

  /** The task of a known download can be aborted by its handle, or has been asked to abort. */
  ghost predicate Abortable(s: Sys) {
    forall t :: t in s.tasks && s.tasks[t].id in s.downloads ==>
      s.downloads[s.tasks[t].id].handle == Some(t) || t in s.aborted
  }

  lemma MoveKeepsAbortable(env: Env, s: Sys, id: Id, next: DownloadState, error: Option<string>)
    requires Abortable(s)
    ensures Abortable(TransitionState(env, s, id, next, error).0)
  {}

  lemma StartOneKeepsAbortable(cfg: Config, env: Env, s: Sys, id: Id)
    requires Safe(cfg, s) && StateOf(s, id) == Some(Queued) && Abortable(s)
    ensures Abortable(StartOne(env, s, id))
  {
    var s0 := s.(queue := Without(s.queue, id));
    RestingHasNoTask(cfg, s, id);
    MoveKeepsAbortable(env, s0, id, Starting, None);
  }

  lemma {:induction false} ScheduleKeepsAbortable(cfg: Config, env: Env, s: Sys)
    requires Safe(cfg, s) && Abortable(s)
    ensures Abortable(Schedule(cfg, env, s))
    decreases |s.queue|
  {
    var ids := Selected(cfg, s);
    if ids != [] {
      FirstSelected(cfg, env, s);
      StartOneKeepsAbortable(cfg, env, s, ids[0]);
      ScheduleKeepsAbortable(cfg, env, StartOne(env, s, ids[0]));
    }
  }

  lemma EndKeepsAbortable(env: Env, s: Sys, id: Id, r: BackendResult)
    requires Abortable(s)
    ensures Abortable(Settle(env, s, id, r))
  {
    var s1 := s.(intents := s.intents - {id});
    match r
    case Finished(_, _, _) =>
      assert Abortable(RecordOutcome(env, s, id, r));
      MoveKeepsAbortable(env, RecordOutcome(env, s, id, r), id, Completed, None);
    case Stopped =>
      MoveKeepsAbortable(env, s1, id, Paused, Some("paused by user"));
      MoveKeepsAbortable(env, s1, id, Cancelled, Some("cancelled by user"));
    case Broken(error) => MoveKeepsAbortable(env, s1, id, Failed, Some(error));
  }

  lemma ArrivalKeepsAbortable(cfg: Config, env: Env, s: Sys, id: Id, spec: Spec)
    requires Safe(cfg, s) && id !in s.seen && Abortable(s)
    ensures Abortable(Admitted(env, s, id, spec)) && Abortable(Record(env, s, id, spec).0)
  {}

  lemma ForgettingKeepsAbortable(env: Env, s: Sys, id: Id)
    requires Abortable(s)
    ensures Abortable(Forget(env, s, id).0)
  {}

  lemma HandedKeepsAbortable(cfg: Config, env: Env, s: Sys, op: Op)
    requires Safe(cfg, s) && Enabled(s, op) && EndsInSchedule(cfg, env, s, op) && Abortable(s)
    ensures Abortable(Handed(cfg, env, s, op))
  {
    match op
    case DoEnqueue(id, spec) => ArrivalKeepsAbortable(cfg, env, s, id, spec);
    case DoResume(id) => MoveKeepsAbortable(env, s, id, Queued, None);
    case DoRetry(id) => MoveKeepsAbortable(env, s, id, Queued, None);
    case DoRemove(id) => ForgettingKeepsAbortable(env, s, id);
    case DoTaskBegin(t) => MoveKeepsAbortable(env, DropTask(s, t), s.tasks[t].id, Failed, Some(NO_BACKEND));
    case DoTaskEnd(t, r) => EndKeepsAbortable(env, DropTask(s, t), s.tasks[t].id, r);
  }

  lemma CancelKeepsAbortable(env: Env, s: Sys, id: Id)
    requires Abortable(s)
    ensures Abortable(Cancel(env, s, id).0)
  {
    MoveKeepsAbortable(env, s.(queue := Without(s.queue, id)), id, Cancelled, Some("cancelled by user"));
  }

  lemma CallbackKeepsAbortable(env: Env, s: Sys, op: Op)
    requires Abortable(s)
    ensures op.DoPause? ==> Abortable(Pause(s, op.id).0)
    ensures op.DoProgress? ==> Abortable(Progress(env, s, op.id, op.downloaded, op.total))
    ensures Abortable(Shutdown(s))
  {
    forall t | t in s.tasks && s.tasks[t].id in s.downloads
      ensures t in Shutdown(s).aborted
    {
      ShutdownAborts(s, t);
    }
  }

  lemma HandOverKeepsAbortable(cfg: Config, env: Env, s: Sys, t: TaskId)
    requires Abortable(s) && Enabled(s, DoTaskBegin(t)) && !EndsInSchedule(cfg, env, s, DoTaskBegin(t))
    ensures Abortable(TaskBegin(cfg, env, s, t))
  {}

  lemma StartKeepsAbortable(cfg: Config, env: Env, s: Sys, id: Id)
    requires Safe(cfg, s) && Abortable(s)
    ensures Abortable(Start(cfg, env, s, id).0)
  {
    if StateOf(s, id) == Some(Queued) {
      StartOneKeepsAbortable(cfg, env, s, id);
    }
  }

  lemma QuietKeepsAbortable(cfg: Config, env: Env, s: Sys, op: Op)
    requires Safe(cfg, s) && Enabled(s, op) && !EndsInSchedule(cfg, env, s, op) && Abortable(s)
    ensures Abortable(Apply(cfg, env, s, op).0)
  {
    match op
    case DoEnqueue(id, spec) => ArrivalKeepsAbortable(cfg, env, s, id, spec);
    case DoStart(id) => StartKeepsAbortable(cfg, env, s, id);
    case DoResume(id) => MoveKeepsAbortable(env, s, id, Queued, None);
    case DoRetry(id) => MoveKeepsAbortable(env, s, id, Queued, None);
    case DoCancel(id) => CancelKeepsAbortable(env, s, id);
    case DoRemove(id) => ForgettingKeepsAbortable(env, s, id);
    case DoTaskBegin(t) => HandOverKeepsAbortable(cfg, env, s, t);
    case DoTaskVanish(_) =>
    case _ => CallbackKeepsAbortable(env, s, op);
  }

  /** Every step, on any disk, leaves every task of a known download with a handle, or asked to abort. */
  lemma StepKeepsAbortable(cfg: Config, env: Env, s: Sys, op: Op)
    requires Safe(cfg, s) && Enabled(s, op) && Abortable(s)
    ensures Abortable(Apply(cfg, env, s, op).0)
  {
    if EndsInSchedule(cfg, env, s, op) {
      HandedKeepsAbortable(cfg, env, s, op);
      SchedulesExactlyWithAgenda(cfg, env, s, op);
      SelectsWhatBegins(cfg, env, s, op);
      ScheduleKeepsAbortable(cfg, env, Handed(cfg, env, s, op));
    } else {
      QuietKeepsAbortable(cfg, env, s, op);
    }
  }

  lemma AbortableOneMore(cfg: Config, env: Env, trace: seq<Sys>, ops: seq<Op>, k: nat)
    requires Steps(cfg, env, trace, ops) && k < |ops| && Safe(cfg, trace[k]) && Abortable(trace[k])
    ensures Abortable(trace[k + 1])
  {
    StepKeepsAbortable(cfg, env, trace[k], ops[k]);
  }

  lemma {:induction false} StaysAbortable(cfg: Config, env: Env, trace: seq<Sys>, ops: seq<Op>, k: nat)
    requires Steps(cfg, env, trace, ops) && Safe(cfg, trace[0]) && Abortable(trace[0]) && k < |trace|
    ensures Abortable(trace[k])
    decreases k
  {
    if k > 0 {
      StaysAbortable(cfg, env, trace, ops, k - 1);
      StepsAreSafe(cfg, env, trace, ops, k - 1);
      AbortableOneMore(cfg, env, trace, ops, k - 1);
    }
  }

  /**
   * In every run, on any disk: right after a shutdown every task of a known download has been asked to abort, so it can
   * vanish at once, and no record holds a handle.
   */
  lemma ShutdownReachesEveryTask(cfg: Config, env: Env, db: Table, trace: seq<Sys>, ops: seq<Op>, k: nat)
    requires Life(cfg, env, db, trace, ops) && k < |ops| && ops[k].DoShutdown?
    ensures var r := trace[k + 1];
            && (forall id :: id in r.downloads ==> r.downloads[id].handle.None?)
            && (forall t :: t in r.tasks && r.tasks[t].id in r.downloads ==>
                  t in r.aborted && Enabled(r, DoTaskVanish(t)))
  {
    LifeIsSafe(cfg, env, db, trace, ops, 0);
    OpenRecovers(cfg, env, db);
    StaysAbortable(cfg, env, trace, ops, k + 1);
    assert Enabled(trace[k], ops[k]) && trace[k + 1] == Shutdown(trace[k]);
  }

  /** Some of the first `k` steps was a shutdown while a record held a handle on task `t`. */
  ghost predicate WasAborted(trace: seq<Sys>, ops: seq<Op>, k: nat, t: TaskId)
    requires k <= |ops| < |trace|
  {
    exists j :: 0 <= j < k && Aborts(trace[j], ops[j], t)
  }

  lemma WasAbortedOneMore(trace: seq<Sys>, ops: seq<Op>, k: nat, t: TaskId)
    requires k < |ops| < |trace|
    ensures WasAborted(trace, ops, k + 1, t) <==> WasAborted(trace, ops, k, t) || Aborts(trace[k], ops[k], t)
  {}

  /** In every run the tasks asked to abort are those that a shutdown found a handle on. */
  lemma {:induction false} AbortsAreHistory(cfg: Config, env: Env, trace: seq<Sys>, ops: seq<Op>, k: nat, t: TaskId)
    requires Steps(cfg, env, trace, ops) && trace[0].aborted == {} && k < |trace|
    ensures t in trace[k].aborted <==> WasAborted(trace, ops, k, t)
    decreases k
  {
    if k > 0 {
      AbortsAreHistory(cfg, env, trace, ops, k - 1, t);
      ContinuesOneMore(cfg, env, trace, ops, k - 1, t, 0);
      WasAbortedOneMore(trace, ops, k - 1, t);
    }
  }

  // ---------------------------------------------------------------- hand-over, end and start

  /** The step hands task `t` over to a backend. */
  predicate HandsOver(cfg: Config, s: Sys, op: Op, t: TaskId) {
    op == DoTaskBegin(t) && t in s.tasks && s.tasks[t].id in ActiveIds(s.downloads)
    && s.downloads[s.tasks[t].id].info.backend in cfg.backends
  }

  /** The step is the end of task `t`: it vanishes, its backend has answered, or it has nothing to run. */
  predicate Ends(cfg: Config, s: Sys, op: Op, t: TaskId) {
    op == DoTaskVanish(t) || (op.DoTaskEnd? && op.task == t) || (op == DoTaskBegin(t) && !HandsOver(cfg, s, op, t))
  }

  /** Only new tasks appear, and they are just spawned; old ones stay as they are. */
  ghost predicate OnlySpawns(s: Sys, r: Sys, t: TaskId) {
    && s.nextTask <= r.nextTask
    && (t < s.nextTask ==> (t in r.tasks <==> t in s.tasks) && (t in s.tasks ==> r.tasks[t] == s.tasks[t]))
    && (t in r.tasks && t >= s.nextTask ==> r.tasks[t].Spawned?)
  }

  lemma StartOneSpawnsOnly(env: Env, s: Sys, id: Id, t: TaskId)
    requires t in s.tasks ==> t < s.nextTask
    ensures OnlySpawns(s, StartOne(env, s, id), t)
  {}

  lemma {:induction false} ScheduleSpawnsOnly(cfg: Config, env: Env, s: Sys, t: TaskId)
    requires Safe(cfg, s)
    ensures OnlySpawns(s, Schedule(cfg, env, s), t)
    decreases |s.queue|
  {
    var ids := Selected(cfg, s);
    if ids != [] {
      FirstSelected(cfg, env, s);
      StartOneSpawnsOnly(env, s, ids[0], t);
      ScheduleSpawnsOnly(cfg, env, StartOne(env, s, ids[0]), t);
    }
  }

  lemma MoveKeepsTasks(env: Env, s: Sys, id: Id, next: DownloadState, error: Option<string>)
    ensures var r := TransitionState(env, s, id, next, error).0; r.tasks == s.tasks && r.nextTask == s.nextTask
  {}

  lemma EndKeepsTasks(env: Env, s: Sys, id: Id, r: BackendResult)
    ensures Settle(env, s, id, r).tasks == s.tasks && Settle(env, s, id, r).nextTask == s.nextTask
  {
    var s1 := s.(intents := s.intents - {id});
    match r
    case Finished(_, _, _) => MoveKeepsTasks(env, RecordOutcome(env, s, id, r), id, Completed, None);
    case Stopped =>
      MoveKeepsTasks(env, s1, id, Paused, Some("paused by user"));
      MoveKeepsTasks(env, s1, id, Cancelled, Some("cancelled by user"));
    case Broken(error) => MoveKeepsTasks(env, s1, id, Failed, Some(error));
  }

  /** The tasks before the scheduling: all but the one whose end the step is. */
  lemma HandedTasks(cfg: Config, env: Env, s: Sys, op: Op)
    requires Enabled(s, op) && EndsInSchedule(cfg, env, s, op)
    ensures var m := Handed(cfg, env, s, op);
            && m.nextTask == s.nextTask
            && m.tasks == if op.DoTaskBegin? || op.DoTaskEnd? then s.tasks - {op.task} else s.tasks
  {
    match op
    case DoEnqueue(_, _) =>
    case DoResume(id) => MoveKeepsTasks(env, s, id, Queued, None);
    case DoRetry(id) => MoveKeepsTasks(env, s, id, Queued, None);
    case DoRemove(_) =>
    case DoTaskBegin(t) => MoveKeepsTasks(env, DropTask(s, t), s.tasks[t].id, Failed, Some(NO_BACKEND));
    case DoTaskEnd(t, r) => EndKeepsTasks(env, DropTask(s, t), s.tasks[t].id, r);
  }

  /** What a step makes of task `t`. */
  ghost predicate TaskFate(cfg: Config, s: Sys, op: Op, r: Sys, t: TaskId) {
    && (t < s.nextTask ==> (t in r.tasks <==> t in s.tasks && !Ends(cfg, s, op, t)))
    && (t < s.nextTask && t in r.tasks && !HandsOver(cfg, s, op, t) ==> t in s.tasks && r.tasks[t] == s.tasks[t])
    && (HandsOver(cfg, s, op, t) ==>
          t in r.tasks && r.tasks[t].Running? && r.tasks[t].id == s.tasks[t].id
          && r.tasks[t].seenActive == CountActive(s.downloads)
          && r.tasks[t].rate == LimiterFor(cfg.cap, CountActive(s.downloads)))
    && (t in r.tasks && t >= s.nextTask ==> r.tasks[t].Spawned?)
  }

  lemma RefusalKeepsTasks(cfg: Config, env: Env, s: Sys, op: Op)
    requires Enabled(s, op) && (op.DoResume? || op.DoRetry?) && !EndsInSchedule(cfg, env, s, op)
    ensures Apply(cfg, env, s, op).0.tasks == s.tasks
  {
    MoveKeepsTasks(env, s, op.id, Queued, None);
  }

  lemma CancelKeepsTasks(env: Env, s: Sys, id: Id)
    ensures Cancel(env, s, id).0.tasks == s.tasks
  {
    MoveKeepsTasks(env, s.(queue := Without(s.queue, id)), id, Cancelled, Some("cancelled by user"));
  }

  lemma HandOverFate(cfg: Config, env: Env, s: Sys, u: TaskId, t: TaskId)
    requires Safe(cfg, s) && Enabled(s, DoTaskBegin(u)) && !EndsInSchedule(cfg, env, s, DoTaskBegin(u))
    ensures TaskFate(cfg, s, DoTaskBegin(u), TaskBegin(cfg, env, s, u), t)
  {}

  lemma StartFate(cfg: Config, env: Env, s: Sys, id: Id, t: TaskId)
    requires Safe(cfg, s)
    ensures TaskFate(cfg, s, DoStart(id), Start(cfg, env, s, id).0, t)
  {
    StartOneSpawnsOnly(env, s, id, t);
  }

  lemma ReportKeepsTasks(env: Env, s: Sys, id: Id, downloaded: u64, total: Option<u64>)
    ensures Progress(env, s, id, downloaded, total).tasks == s.tasks
  {}

  lemma VanishFate(cfg: Config, s: Sys, u: TaskId, t: TaskId)
    requires Safe(cfg, s) && u in s.tasks
    ensures TaskFate(cfg, s, DoTaskVanish(u), DropTask(s, u), t)
  {}

  lemma QuietCallKeepsTasks(cfg: Config, env: Env, s: Sys, op: Op)
    requires Enabled(s, op) && !EndsInSchedule(cfg, env, s, op)
    requires op.DoEnqueue? || op.DoResume? || op.DoRetry? || op.DoCancel? || op.DoRemove?
    ensures Apply(cfg, env, s, op).0.tasks == s.tasks
  {
    match op
    case DoEnqueue(_, _) =>
    case DoResume(_) => RefusalKeepsTasks(cfg, env, s, op);
    case DoRetry(_) => RefusalKeepsTasks(cfg, env, s, op);
    case DoCancel(id) => CancelKeepsTasks(env, s, id);
    case DoRemove(_) =>
  }

  lemma QuietFate(cfg: Config, env: Env, s: Sys, op: Op, t: TaskId)
    requires Safe(cfg, s) && Enabled(s, op) && !EndsInSchedule(cfg, env, s, op)
    ensures TaskFate(cfg, s, op, Apply(cfg, env, s, op).0, t)
  {
    match op
    case DoStart(id) => StartFate(cfg, env, s, id, t);
    case DoTaskBegin(u) => HandOverFate(cfg, env, s, u, t);
    case DoTaskVanish(u) => VanishFate(cfg, s, u, t);
    case DoPause(_) =>
    case DoShutdown =>
    case DoProgress(id, n, total) => ReportKeepsTasks(env, s, id, n, total);
    case _ => QuietCallKeepsTasks(cfg, env, s, op);
  }

  /** Task `t` before the scheduling, if the step schedules. */
  ghost predicate HandedFate(cfg: Config, s: Sys, op: Op, m: Sys, t: TaskId) {
    && !HandsOver(cfg, s, op, t) && m.nextTask == s.nextTask && (t in s.tasks ==> t < s.nextTask)
    && (t in m.tasks <==> t in s.tasks && !Ends(cfg, s, op, t))
    && (t in m.tasks ==> m.tasks[t] == s.tasks[t])
  }

  lemma ThenOnlySpawns(cfg: Config, s: Sys, op: Op, m: Sys, r: Sys, t: TaskId)
    requires HandedFate(cfg, s, op, m, t) && OnlySpawns(m, r, t)
    ensures TaskFate(cfg, s, op, r, t)
  {}

  lemma HandedHasFate(cfg: Config, env: Env, s: Sys, op: Op, t: TaskId)
    requires Safe(cfg, s) && Enabled(s, op) && EndsInSchedule(cfg, env, s, op)
    ensures HandedFate(cfg, s, op, Handed(cfg, env, s, op), t)
  {
    HandedTasks(cfg, env, s, op);
  }

  lemma ScheduledFate(cfg: Config, env: Env, s: Sys, op: Op, t: TaskId)
    requires Safe(cfg, s) && Enabled(s, op) && EndsInSchedule(cfg, env, s, op)
    ensures TaskFate(cfg, s, op, Apply(cfg, env, s, op).0, t)
  {
    SchedulesExactlyWithAgenda(cfg, env, s, op);
    SelectsWhatBegins(cfg, env, s, op);
    HandedHasFate(cfg, env, s, op, t);
    ScheduleSpawnsOnly(cfg, env, Handed(cfg, env, s, op), t);
    ThenOnlySpawns(cfg, s, op, Handed(cfg, env, s, op), Apply(cfg, env, s, op).0, t);
  }

  /**
   * Every step, on any disk: an old task is gone exactly when the step is its end, is as it was unless the step hands it
   * over, and then carries the count of active downloads and the limiter of that moment; new ones are just spawned.
   */
  lemma TaskAfterStep(cfg: Config, env: Env, s: Sys, op: Op, t: TaskId)
    requires Safe(cfg, s) && Enabled(s, op)
    ensures TaskFate(cfg, s, op, Apply(cfg, env, s, op).0, t)
  {
    if EndsInSchedule(cfg, env, s, op) {
      ScheduledFate(cfg, env, s, op, t);
    } else {
      QuietFate(cfg, env, s, op, t);
    }
  }

  // ---------------------------------------------------------------- rates

  /** `rate` is an equal share of the cap among `active`, none when there is no cap or the share is below a byte. */
  ghost predicate IsShare(cap: Option<u64>, active: nat, rate: Option<u64>) {
    && (rate.None? <==> cap.None? || cap.value < active)
    && (rate.Some? ==> cap.Some? && rate.value * active <= cap.value < (rate.value + 1) * active)
  }

  /** Step `j` handed task `t` over, when as many downloads were active as `task` says, with a share for that many. */
  ghost predicate BeganAt(cfg: Config, trace: seq<Sys>, ops: seq<Op>, j: nat, t: TaskId, task: Task) {
    && j < |ops| < |trace| && HandsOver(cfg, trace[j], ops[j], t)
    && task.Running? && task.seenActive == CountActive(trace[j].downloads) > 0
    && IsShare(cfg.cap, CountActive(trace[j].downloads), task.rate)
  }

  lemma FateOneMore(cfg: Config, env: Env, trace: seq<Sys>, ops: seq<Op>, k: nat, t: TaskId)
    requires Steps(cfg, env, trace, ops) && k < |ops| && Safe(cfg, trace[k])
    requires t in trace[k + 1].tasks && trace[k + 1].tasks[t].Running?
    ensures || BeganAt(cfg, trace, ops, k, t, trace[k + 1].tasks[t])
            || (t in trace[k].tasks && trace[k].tasks[t] == trace[k + 1].tasks[t])
  {
    TaskAfterStep(cfg, env, trace[k], ops[k], t);
    if HandsOver(cfg, trace[k], ops[k], t) {
      HandedOverIsActive(cfg, trace[k], ops[k], t);
      LimiterIsShare(cfg.cap, CountActive(trace[k].downloads));
    }
  }

  lemma HandedOverIsActive(cfg: Config, s: Sys, op: Op, t: TaskId)
    requires HandsOver(cfg, s, op, t)
    ensures CountActive(s.downloads) > 0
  {}

  lemma {:induction false} RunningBegan(cfg: Config, env: Env, trace: seq<Sys>, ops: seq<Op>, k: nat, t: TaskId)
    requires Steps(cfg, env, trace, ops) && Safe(cfg, trace[0]) && trace[0].tasks == map[] && k < |trace|
    requires t in trace[k].tasks && trace[k].tasks[t].Running?
    ensures exists j :: 0 <= j < k && BeganAt(cfg, trace, ops, j, t, trace[k].tasks[t])
    decreases k
  {
    if k > 0 {
      StepsAreSafe(cfg, env, trace, ops, k - 1);
      FateOneMore(cfg, env, trace, ops, k - 1, t);
      if t in trace[k - 1].tasks && trace[k - 1].tasks[t] == trace[k].tasks[t] {
        RunningBegan(cfg, env, trace, ops, k - 1, t);
      }
    }
  }

  /**
   * In every run, on any disk, the limiter of a task inside its backend is an equal share of the cap among the downloads
   * that were active when this task was handed over; without a cap no task ever has one.
   */
  lemma RateIsShareAtBeginning(cfg: Config, env: Env, db: Table, trace: seq<Sys>, ops: seq<Op>, k: nat, t: TaskId)
    requires Life(cfg, env, db, trace, ops) && k < |trace| && t in trace[k].tasks && trace[k].tasks[t].Running?
    ensures exists j :: 0 <= j < k && BeganAt(cfg, trace, ops, j, t, trace[k].tasks[t])
    ensures cfg.cap.None? ==> trace[k].tasks[t].rate.None?
  {
    LifeIsSafe(cfg, env, db, trace, ops, 0);
    OpenRecovers(cfg, env, db);
    RunningBegan(cfg, env, trace, ops, k, t);
  }
}
