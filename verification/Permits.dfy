/** Cancellation permits: who gave them, and what a backend that stops only when given one makes of its download. */
module Permits {
  import opened Wrappers
  import opened Lifecycle
  import opened Queues
  import opened Records
  import opened ManagerModel
  import opened Safety
  import opened SafeSteps
  import opened Scheduling
  import opened Recovery
  import opened Runs
  import opened Fairness
  import opened Agendas
  import opened Attempts

  // ---------------------------------------------------------------- old tasks and old downloads

  /** From `s` to `r` nothing old appears anew: older tasks were there, for the same download, and older ids were known. */
  ghost predicate Follows(s: Sys, r: Sys) {
    && s.nextTask <= r.nextTask && s.seen <= r.seen
    && (forall t :: t in r.tasks && t < s.nextTask ==> t in s.tasks && r.tasks[t].id == s.tasks[t].id)
    && (forall id :: id in r.downloads && id in s.seen ==> id in s.downloads)
  }

  /** Permits, aborts and pause intents are the same. */
  ghost predicate SameMarks(s: Sys, r: Sys) {
    r.signalled == s.signalled && r.aborted == s.aborted && r.intents == s.intents
  }

  lemma FollowsThrough(s: Sys, m: Sys, r: Sys)
    requires Follows(s, m) && Follows(m, r)
    ensures Follows(s, r)
  {}

  lemma MoveFollows(env: Env, s: Sys, id: Id, next: DownloadState, error: Option<string>)
    ensures var r := TransitionState(env, s, id, next, error).0; Follows(s, r) && SameMarks(s, r)
  {}

  lemma StartOneFollows(env: Env, s: Sys, id: Id)
    ensures Follows(s, StartOne(env, s, id)) && SameMarks(s, StartOne(env, s, id))
  {
    MoveFollows(env, s.(queue := Without(s.queue, id)), id, Starting, None);
  }

  lemma {:induction false} ScheduleFollows(cfg: Config, env: Env, s: Sys)
    ensures Follows(s, Schedule(cfg, env, s)) && SameMarks(s, Schedule(cfg, env, s))
    decreases |s.queue|
  {
    var ids := Selected(cfg, s);
    if ids != [] {
      StartOneFollows(env, s, ids[0]);
      ScheduleFollows(cfg, env, StartOne(env, s, ids[0]));
      FollowsThrough(s, StartOne(env, s, ids[0]), Schedule(cfg, env, s));
    }
  }

  /** The step is an accepted pause or cancel of a running download, or a removal, and `t` is the attempt it reaches. */
  ghost predicate Reaches(s: Sys, op: Op, t: TaskId) {
    && (op.DoPause? || op.DoCancel? || op.DoRemove?)
    && op.id in s.downloads && s.downloads[op.id].cancel == Some(t)
    && (op.DoRemove? || s.downloads[op.id].info.state.Active())
  }

  /** The step is a shutdown, and some record holds a handle on task `t`. */
  ghost predicate Aborts(s: Sys, op: Op, t: TaskId) {
    op.DoShutdown? && exists id :: id in s.downloads && s.downloads[id].handle == Some(t)
  }

  /** The step is an accepted pause of `x`. */
  predicate Intends(s: Sys, op: Op, x: Id) {
    op == DoPause(x) && x in s.downloads && s.downloads[x].info.state.Active()
  }

  /** The step ends an attempt of `x` without success, and with it what was intended for it. */
  predicate ClearsIntent(s: Sys, op: Op, x: Id) {
    op.DoTaskEnd? && !op.result.Finished? && op.task in s.tasks && s.tasks[op.task].id == x
  }

  /** What the step does to old tasks and downloads, to permits and aborts of `t`, and to a pause intent for `x`. */
  ghost predicate Continues(s: Sys, op: Op, r: Sys, t: TaskId, x: Id) {
    && Follows(s, r)
    && (t in r.signalled <==> t in s.signalled || Reaches(s, op, t))
    && (t in r.aborted <==> t in s.aborted || Aborts(s, op, t))
    && (x in r.intents <==> (x in s.intents && !ClearsIntent(s, op, x)) || Intends(s, op, x))
  }

  lemma ArrivalContinues(env: Env, s: Sys, id: Id, spec: Spec, t: TaskId, x: Id)
    requires id !in s.seen
    ensures Continues(s, DoEnqueue(id, spec), Admitted(env, s, id, spec), t, x)
    ensures Continues(s, DoEnqueue(id, spec), Record(env, s, id, spec).0, t, x)
  {}

  lemma ForgettingContinues(env: Env, s: Sys, id: Id, t: TaskId, x: Id)
    ensures Continues(s, DoRemove(id), Forget(env, s, id).0, t, x)
  {}

  lemma SettleFollows(env: Env, s: Sys, id: Id, r: BackendResult)
    ensures Follows(s, Settle(env, s, id, r))
    ensures SameMarks(if r.Finished? then s else s.(intents := s.intents - {id}), Settle(env, s, id, r))
  {
    var s1 := s.(intents := s.intents - {id});
    match r
    case Finished(_, _, _) => MoveFollows(env, RecordOutcome(env, s, id, r), id, Completed, None);
    case Stopped =>
      MoveFollows(env, s1, id, Paused, Some("paused by user"));
      MoveFollows(env, s1, id, Cancelled, Some("cancelled by user"));
    case Broken(error) => MoveFollows(env, s1, id, Failed, Some(error));
  }

  lemma TaskContinues(cfg: Config, env: Env, s: Sys, op: Op, t: TaskId, x: Id)
    requires Enabled(s, op) && (op.DoTaskBegin? || op.DoTaskEnd?)
    ensures Continues(s, op, Handed(cfg, env, s, op), t, x)
  {
    var s0 := DropTask(s, op.task);
    if op.DoTaskEnd? {
      SettleFollows(env, s0, s.tasks[op.task].id, op.result);
      FollowsThrough(s, s0, Handed(cfg, env, s, op));
    } else {
      MoveFollows(env, s0, s.tasks[op.task].id, Failed, Some(NO_BACKEND));
      FollowsThrough(s, s0, Handed(cfg, env, s, op));
    }
  }

  lemma HandedContinues(cfg: Config, env: Env, s: Sys, op: Op, t: TaskId, x: Id)
    requires Enabled(s, op) && EndsInSchedule(cfg, env, s, op)
    ensures Continues(s, op, Handed(cfg, env, s, op), t, x)
  {
    match op
    case DoEnqueue(id, spec) => ArrivalContinues(env, s, id, spec, t, x);
    case DoResume(id) => MoveFollows(env, s, id, Queued, None);
    case DoRetry(id) => MoveFollows(env, s, id, Queued, None);
    case DoRemove(id) => ForgettingContinues(env, s, id, t, x);
    case DoTaskBegin(_) => TaskContinues(cfg, env, s, op, t, x);
    case DoTaskEnd(_, _) => TaskContinues(cfg, env, s, op, t, x);
  }

  lemma PauseContinues(s: Sys, id: Id, t: TaskId, x: Id)
    ensures Continues(s, DoPause(id), Pause(s, id).0, t, x)
  {}

  lemma ShutdownContinues(s: Sys, t: TaskId, x: Id)
    ensures Continues(s, DoShutdown, Shutdown(s), t, x)
  {}

  lemma ReportContinues(env: Env, s: Sys, id: Id, downloaded: u64, total: Option<u64>, t: TaskId, x: Id)
    ensures Continues(s, DoProgress(id, downloaded, total), Progress(env, s, id, downloaded, total), t, x)
  {}

  lemma RefusalContinues(cfg: Config, env: Env, s: Sys, op: Op, t: TaskId, x: Id)
    requires Enabled(s, op) && (op.DoResume? || op.DoRetry?) && !EndsInSchedule(cfg, env, s, op)
    ensures Continues(s, op, Apply(cfg, env, s, op).0, t, x)
  {
    MoveFollows(env, s, op.id, Queued, None);
  }

  lemma QuietContinues(cfg: Config, env: Env, s: Sys, op: Op, t: TaskId, x: Id)
    requires Enabled(s, op) && !EndsInSchedule(cfg, env, s, op)
    ensures Continues(s, op, Apply(cfg, env, s, op).0, t, x)
  {
    match op
    case DoEnqueue(id, spec) => ArrivalContinues(env, s, id, spec, t, x);
    case DoStart(id) => StartOneFollows(env, s, id);
    case DoPause(id) => PauseContinues(s, id, t, x);
    case DoResume(_) => RefusalContinues(cfg, env, s, op, t, x);
    case DoRetry(_) => RefusalContinues(cfg, env, s, op, t, x);
    case DoCancel(id) => CancelContinues(env, s, id, t, x);
    case DoRemove(id) => ForgettingContinues(env, s, id, t, x);
    case DoShutdown => ShutdownContinues(s, t, x);
    case DoProgress(id, n, total) => ReportContinues(env, s, id, n, total, t, x);
    case DoTaskBegin(u) => HandOverContinues(cfg, env, s, u, t, x);
    case DoTaskVanish(_) =>
  }

  lemma CancelContinues(env: Env, s: Sys, id: Id, t: TaskId, x: Id)
    ensures Continues(s, DoCancel(id), Cancel(env, s, id).0, t, x)
  {
    if id in s.downloads && s.downloads[id].info.state.Active() {
      assert Cancel(env, s, id).0 == Signal(s, id);
    } else if id !in s.downloads || s.downloads[id].info.state.Terminal() {
      assert Cancel(env, s, id).0 == s;
    } else {
      MoveFollows(env, s.(queue := Without(s.queue, id)), id, Cancelled, Some("cancelled by user"));
    }
  }

  lemma HandOverContinues(cfg: Config, env: Env, s: Sys, u: TaskId, t: TaskId, x: Id)
    requires Enabled(s, DoTaskBegin(u)) && !EndsInSchedule(cfg, env, s, DoTaskBegin(u))
    ensures Continues(s, DoTaskBegin(u), TaskBegin(cfg, env, s, u), t, x)
  {}

  /** Every step: nothing old appears anew, and exactly these permits, aborts and pause intents are given or cleared. */
  lemma StepContinues(cfg: Config, env: Env, s: Sys, op: Op, t: TaskId, x: Id)
    requires Enabled(s, op)
    ensures Continues(s, op, Apply(cfg, env, s, op).0, t, x)
  {
    if EndsInSchedule(cfg, env, s, op) {
      HandedContinues(cfg, env, s, op, t, x);
      SchedulesWhatItHands(cfg, env, s, op);
      ScheduleFollows(cfg, env, Handed(cfg, env, s, op));
      FollowsThrough(s, Handed(cfg, env, s, op), Apply(cfg, env, s, op).0);
    } else {
      QuietContinues(cfg, env, s, op, t, x);
    }
  }

  lemma ContinuesOneMore(cfg: Config, env: Env, trace: seq<Sys>, ops: seq<Op>, k: nat, t: TaskId, x: Id)
    requires Steps(cfg, env, trace, ops) && k < |ops|
    ensures Continues(trace[k], ops[k], trace[k + 1], t, x)
  {
    StepContinues(cfg, env, trace[k], ops[k], t, x);
  }

  lemma {:induction false} RunFollows(cfg: Config, env: Env, trace: seq<Sys>, ops: seq<Op>, i: nat, k: nat)
    requires Steps(cfg, env, trace, ops) && i <= k < |trace|
    ensures Follows(trace[i], trace[k])
    decreases k
  {
    if i < k {
      RunFollows(cfg, env, trace, ops, i, k - 1);
      ContinuesOneMore(cfg, env, trace, ops, k - 1, 0, 0);
      FollowsThrough(trace[i], trace[k - 1], trace[k]);
    }
  }

  // ---------------------------------------------------------------- who gave a permit

  /** One of the first `k` steps reached attempt `t`. */
  ghost predicate WasReached(trace: seq<Sys>, ops: seq<Op>, k: nat, t: TaskId)
    requires k <= |ops| < |trace|
  {
    exists j :: 0 <= j < k && Reaches(trace[j], ops[j], t)
  }

  /** One of the first `k` steps was a cancel that reached attempt `t`. */
  ghost predicate WasCancelled(trace: seq<Sys>, ops: seq<Op>, k: nat, t: TaskId)
    requires k <= |ops| < |trace|
  {
    exists j :: 0 <= j < k && ops[j].DoCancel? && Reaches(trace[j], ops[j], t)
  }

  lemma WasReachedOneMore(trace: seq<Sys>, ops: seq<Op>, k: nat, t: TaskId)
    requires k < |ops| < |trace|
    ensures WasReached(trace, ops, k + 1, t) <==> WasReached(trace, ops, k, t) || Reaches(trace[k], ops[k], t)
  {}

  /** In every run the attempts with a permit are those that a pause, a cancel or a removal reached. */
  lemma {:induction false} PermitsAreHistory(cfg: Config, env: Env, trace: seq<Sys>, ops: seq<Op>, k: nat, t: TaskId)
    requires Steps(cfg, env, trace, ops) && trace[0].signalled == {} && k < |trace|
    ensures t in trace[k].signalled <==> WasReached(trace, ops, k, t)
    decreases k
  {
    if k > 0 {
      PermitsAreHistory(cfg, env, trace, ops, k - 1, t);
      ContinuesOneMore(cfg, env, trace, ops, k - 1, t, 0);
      WasReachedOneMore(trace, ops, k - 1, t);
    }
  }

  lemma RemovalForgets(cfg: Config, env: Env, s: Sys, id: Id)
    requires Safe(cfg, s)
    ensures id !in RemoveDownload(cfg, env, s, id).0.downloads
  {
    ForgetIsSafe(cfg, env, s, id);
    ScheduleEffect(cfg, env, Forget(env, s, id).0);
  }

  /** A removed download never comes back. */
  lemma RemovedForGood(cfg: Config, env: Env, trace: seq<Sys>, ops: seq<Op>, j: nat, k: nat, id: Id)
    requires Steps(cfg, env, trace, ops) && Safe(cfg, trace[0]) && j < k < |trace|
    requires ops[j] == DoRemove(id) && id in trace[j].seen
    ensures id !in trace[k].downloads
  {
    StepsAreSafe(cfg, env, trace, ops, j);
    RemovalForgets(cfg, env, trace[j], id);
    ContinuesOneMore(cfg, env, trace, ops, j, 0, 0);
    RunFollows(cfg, env, trace, ops, j + 1, k);
  }

  /** Whatever reached the task of a download named that download. */
  lemma ReachedItsOwn(cfg: Config, env: Env, trace: seq<Sys>, ops: seq<Op>, j: nat, k: nat, t: TaskId)
    requires Steps(cfg, env, trace, ops) && Safe(cfg, trace[0]) && j < k < |trace|
    requires Reaches(trace[j], ops[j], t) && t in trace[k].tasks
    ensures ops[j].id == trace[k].tasks[t].id && ops[j].id in trace[j].seen
  {
    StepsAreSafe(cfg, env, trace, ops, j);
    RunFollows(cfg, env, trace, ops, j, k);
    assert t in trace[j].tasks;
  }

  /** An attempt of a known download has a permit exactly when a pause or a cancel reached it. */
  lemma PermitsOfKnown(cfg: Config, env: Env, db: Table, trace: seq<Sys>, ops: seq<Op>, k: nat, t: TaskId)
    requires Life(cfg, env, db, trace, ops) && k < |trace|
    requires t in trace[k].tasks && trace[k].tasks[t].id in trace[k].downloads
    ensures t in trace[k].signalled <==> WasPaused(trace, ops, k, t) || WasCancelled(trace, ops, k, t)
  {
    LifeIsSafe(cfg, env, db, trace, ops, 0);
    OpenRecovers(cfg, env, db);
    PermitsAreHistory(cfg, env, trace, ops, k, t);
    if WasReached(trace, ops, k, t) {
      var j :| 0 <= j < k && Reaches(trace[j], ops[j], t);
      ReachedItsOwn(cfg, env, trace, ops, j, k, t);
      if ops[j].DoRemove? {
        RemovedForGood(cfg, env, trace, ops, j, k, ops[j].id);
      }
    }
    if WasPaused(trace, ops, k, t) {
      var j :| 0 <= j < k && PausesAttempt(trace[j], ops[j], t);
      assert Reaches(trace[j], ops[j], t);
    }
  }

  /**
   * Cancellation attribution. When the backend of attempt `t` stops only if given a permit, its end makes the download
   * Cancelled exactly when it stopped, some earlier `cancel` reached this very attempt, and no `pause` did.
   */
  lemma CancellationAttribution(cfg: Config, env: Env, db: Table, trace: seq<Sys>, ops: seq<Op>, k: nat, t: TaskId,
                                r: BackendResult)
    requires Life(cfg, env, db, trace, ops) && k < |trace|
    requires t in trace[k].tasks && trace[k].tasks[t].Running? && trace[k].tasks[t].id in trace[k].downloads
    requires trace[k].downloads[trace[k].tasks[t].id].info.backend in cfg.backends
    requires r.Stopped? ==> t in trace[k].signalled
    ensures StateOf(TaskEnd(cfg, env, trace[k], t, r), trace[k].tasks[t].id) == Some(Cancelled) <==>
              r.Stopped? && WasCancelled(trace, ops, k, t) && !WasPaused(trace, ops, k, t)
  {
    PauseAttribution(cfg, env, db, trace, ops, k, t, r);
    PermitsOfKnown(cfg, env, db, trace, ops, k, t);
  }
}
