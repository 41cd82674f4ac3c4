/** Attempts: what a pause means, and what a backend's answer leads to. */
module Attempts {
  import opened Wrappers
  import opened Lifecycle
  import opened Queues
  import opened Records
  import opened ManagerModel
  import opened Safety
  import opened SafeSteps
  import opened Scheduling
  import opened Recovery
  import opened Runs

  // ---------------------------------------------------------------- which attempts were paused

  /** The step is a successful pause, and `t` is the attempt it reached. */
  ghost predicate PausesAttempt(s: Sys, op: Op, t: TaskId) {
    op.DoPause? && Pause(s, op.id).1.Accepted? && s.downloads[op.id].cancel == Some(t)
  }

  lemma {:induction false} ScheduleKeepsPausedTries(cfg: Config, env: Env, s: Sys)
    ensures Schedule(cfg, env, s).pausedTries == s.pausedTries
    decreases |s.queue|
  {
    var ids := Selected(cfg, s);
    if ids != [] {
      ScheduleKeepsPausedTries(cfg, env, StartOne(env, s, ids[0]));
    }
  }

  lemma SettleKeepsPausedTries(env: Env, s: Sys, id: Id, r: BackendResult)
    ensures Settle(env, s, id, r).pausedTries == s.pausedTries
  {}

  lemma AdmissionKeepsPausedTries(env: Env, s: Sys, id: Id, spec: Spec)
    ensures Record(env, s, id, spec).0.pausedTries == s.pausedTries
    ensures Admitted(env, s, id, spec).pausedTries == s.pausedTries
  {}

  lemma MovesKeepPausedTries(env: Env, s: Sys, id: Id)
    ensures Requeue(env, s, id).0.pausedTries == s.pausedTries
    ensures Forget(env, s, id).0.pausedTries == s.pausedTries
    ensures Cancel(env, s, id).0.pausedTries == s.pausedTries
  {}

  lemma EnqueueKeepsPausedTries(cfg: Config, env: Env, s: Sys, id: Id, spec: Spec)
    ensures Enqueue(cfg, env, s, id, spec).0.pausedTries == s.pausedTries
  {
    AdmissionKeepsPausedTries(env, s, id, spec);
    ScheduleKeepsPausedTries(cfg, env, Admitted(env, s, id, spec));
  }

  lemma ResumeKeepsPausedTries(cfg: Config, env: Env, s: Sys, id: Id)
    ensures Resume(cfg, env, s, id).0.pausedTries == s.pausedTries
  {
    MovesKeepPausedTries(env, s, id);
    ScheduleKeepsPausedTries(cfg, env, Publish(Requeue(env, s, id).0, OnResumed(id)));
  }

  lemma RetryKeepsPausedTries(cfg: Config, env: Env, s: Sys, id: Id)
    ensures Retry(cfg, env, s, id).0.pausedTries == s.pausedTries
  {
    MovesKeepPausedTries(env, s, id);
    ScheduleKeepsPausedTries(cfg, env, Requeue(env, s, id).0);
  }

  lemma RemovalKeepsPausedTries(cfg: Config, env: Env, s: Sys, id: Id)
    ensures RemoveDownload(cfg, env, s, id).0.pausedTries == s.pausedTries
  {
    MovesKeepPausedTries(env, s, id);
    ScheduleKeepsPausedTries(cfg, env, Forget(env, s, id).0);
  }

  lemma TaskKeepsPausedTries(cfg: Config, env: Env, s: Sys, op: Op)
    requires Enabled(s, op) && (op.DoTaskBegin? || op.DoTaskEnd?)
    ensures Apply(cfg, env, s, op).0.pausedTries == s.pausedTries
  {
    var t := op.task;
    if op.DoTaskBegin? {
      ScheduleKeepsPausedTries(cfg, env, FailWithoutBackend(env, s, t));
    } else {
      SettleKeepsPausedTries(env, DropTask(s, t), s.tasks[t].id, op.result);
      ScheduleKeepsPausedTries(cfg, env, SettleTask(env, s, t, op.result));
    }
  }

  /** Only a successful pause adds an attempt to the history, and it adds the one it reached. */
  lemma StepRecordsPause(cfg: Config, env: Env, s: Sys, op: Op, t: TaskId)
    requires Enabled(s, op)
    ensures t in Apply(cfg, env, s, op).0.pausedTries <==> t in s.pausedTries || PausesAttempt(s, op, t)
  {
    match op
    case DoEnqueue(id, spec) => EnqueueKeepsPausedTries(cfg, env, s, id, spec);
    case DoResume(id) => ResumeKeepsPausedTries(cfg, env, s, id);
    case DoRetry(id) => RetryKeepsPausedTries(cfg, env, s, id);
    case DoRemove(id) => RemovalKeepsPausedTries(cfg, env, s, id);
    case DoCancel(id) => MovesKeepPausedTries(env, s, id);
    case DoTaskBegin(_) => TaskKeepsPausedTries(cfg, env, s, op);
    case DoTaskEnd(_, _) => TaskKeepsPausedTries(cfg, env, s, op);
    case _ =>
  }

  /** One of the first `k` steps was a successful pause that reached attempt `t`. */
  ghost predicate WasPaused(trace: seq<Sys>, ops: seq<Op>, k: nat, t: TaskId)
    requires k <= |ops| < |trace|
  {
    exists j :: 0 <= j < k && PausesAttempt(trace[j], ops[j], t)
  }

  lemma WasPausedOneMore(trace: seq<Sys>, ops: seq<Op>, k: nat, t: TaskId)
    requires k < |ops| < |trace|
    ensures WasPaused(trace, ops, k + 1, t) <==> WasPaused(trace, ops, k, t) || PausesAttempt(trace[k], ops[k], t)
  {}

  lemma TriesOneMore(cfg: Config, env: Env, trace: seq<Sys>, ops: seq<Op>, k: nat, t: TaskId)
    requires Steps(cfg, env, trace, ops) && k < |ops|
    ensures t in trace[k + 1].pausedTries <==> t in trace[k].pausedTries || PausesAttempt(trace[k], ops[k], t)
  {
    StepRecordsPause(cfg, env, trace[k], ops[k], t);
  }

  lemma {:induction false} PausedTriesAreHistory(cfg: Config, env: Env, trace: seq<Sys>, ops: seq<Op>, k: nat, t: TaskId)
    requires Steps(cfg, env, trace, ops) && trace[0].pausedTries == {} && k < |trace|
    ensures t in trace[k].pausedTries <==> WasPaused(trace, ops, k, t)
    decreases k
  {
    if k > 0 {
      PausedTriesAreHistory(cfg, env, trace, ops, k - 1, t);
      TriesOneMore(cfg, env, trace, ops, k - 1, t);
      WasPausedOneMore(trace, ops, k - 1, t);
    }
  }

  // ---------------------------------------------------------------- what an answer leads to

  /** The state a backend's answer leads to. */
  function Verdict(r: BackendResult, paused: bool): DownloadState {
    match r
    case Finished(_, _, _) => Completed
    case Stopped => if paused then Paused else Cancelled
    case Broken(_) => Failed
  }

  /** The final move of an active download is always made, on any disk. */
  lemma FinalMove(env: Env, s: Sys, id: Id, next: DownloadState, error: Option<string>)
    requires id in s.downloads && s.downloads[id].info.state.Active() && !next.Active() && !next.Queued?
    ensures var r := TransitionState(env, s, id, next, error).0;
            && id in r.downloads
            && r.downloads[id].info == Stamp(s.downloads[id].info, next, env.clock(s.ticks), error)
            && r.intents == s.intents
  {}

  lemma SettleFinished(env: Env, s: Sys, id: Id, r: BackendResult)
    requires id in s.downloads && s.downloads[id].info.state.Active() && r.Finished?
    ensures var after := Settle(env, s, id, r);
            && StateOf(after, id) == Some(Completed)
            && var d := after.downloads[id].info;
               && d.downloadedBytes == r.downloaded && d.meta == r.meta && d.completedAt.Some? && d.error.None?
               && d.totalBytes == if r.total.Some? then r.total else s.downloads[id].info.totalBytes
  {}

  lemma SettleUnfinished(env: Env, s: Sys, id: Id, r: BackendResult)
    requires id in s.downloads && s.downloads[id].info.state.Active() && !r.Finished?
    ensures var after := Settle(env, s, id, r);
            && StateOf(after, id) == Some(Verdict(r, id in s.intents))
            && (r.Broken? ==> after.downloads[id].info.error == Some(r.error))
            && id !in after.intents
  {
    var s1 := s.(intents := s.intents - {id});
    match r
    case Stopped =>
      FinalMove(env, s1, id, Paused, Some("paused by user"));
      FinalMove(env, s1, id, Cancelled, Some("cancelled by user"));
    case Broken(error) => FinalMove(env, s1, id, Failed, Some(error));
  }

  /** Settling a live attempt: the record and the intent, on any disk. */
  lemma SettleDecides(cfg: Config, env: Env, s: Sys, t: TaskId, r: BackendResult)
    requires Safe(cfg, s) && t in s.tasks && s.tasks[t].id in s.downloads
    requires s.downloads[s.tasks[t].id].info.backend in cfg.backends
    ensures var (id, after) := (s.tasks[t].id, SettleTask(env, s, t, r));
            && StateOf(after, id) == Some(Verdict(r, t in s.pausedTries))
            && var d := after.downloads[id].info;
               && (r.Finished? ==>
                     && d.downloadedBytes == r.downloaded && d.meta == r.meta && d.completedAt.Some? && d.error.None?
                     && d.totalBytes == if r.total.Some? then r.total else s.downloads[id].info.totalBytes)
               && (r.Broken? ==> d.error == Some(r.error))
               && (!r.Finished? ==> id !in after.intents)
  {
    assert t in s.pausedTries <==> s.tasks[t].id in s.intents;
    if r.Finished? {
      SettleFinished(env, DropTask(s, t), s.tasks[t].id, r);
    } else {
      SettleUnfinished(env, DropTask(s, t), s.tasks[t].id, r);
    }
  }

  /** Scheduling leaves a download that is not queued as it is. */
  lemma ScheduleLeavesAlone(cfg: Config, env: Env, s: Sys, id: Id)
    requires Safe(cfg, s) && id in s.downloads && !s.downloads[id].info.state.Queued?
    ensures id in Schedule(cfg, env, s).downloads && Schedule(cfg, env, s).downloads[id] == s.downloads[id]
  {
    ScheduleEffect(cfg, env, s);
    assert id !in s.queue;
    assert forall x :: x in Selected(cfg, s) ==> x in s.queue;
  }

  /**
   * Pause attribution. When the backend of attempt `t` answers "cancelled", the download becomes Paused exactly when
   * some earlier `pause` of this very attempt succeeded, whatever else was called, and Cancelled otherwise; success
   * makes it Completed and any other error Failed, with that error.
   */
  lemma PauseAttribution(cfg: Config, env: Env, db: Table, trace: seq<Sys>, ops: seq<Op>, k: nat, t: TaskId,
                         r: BackendResult)
    requires Life(cfg, env, db, trace, ops) && k < |trace|
    requires t in trace[k].tasks && trace[k].tasks[t].Running? && trace[k].tasks[t].id in trace[k].downloads
    requires trace[k].downloads[trace[k].tasks[t].id].info.backend in cfg.backends
    ensures var id := trace[k].tasks[t].id;
            var after := TaskEnd(cfg, env, trace[k], t, r);
            && StateOf(after, id) == Some(Verdict(r, WasPaused(trace, ops, k, t)))
            && (r.Broken? ==> after.downloads[id].info.error == Some(r.error))
            && (r.Finished? ==> after.downloads[id].info.downloadedBytes == r.downloaded)
  {
    var s := trace[k];
    LifeIsSafe(cfg, env, db, trace, ops, k);
    OpenRecovers(cfg, env, db);
    PausedTriesAreHistory(cfg, env, trace, ops, k, t);
    SettleDecides(cfg, env, s, t, r);
    SettleTaskIsSafe(cfg, env, s, t, r);
    ScheduleLeavesAlone(cfg, env, SettleTask(env, s, t, r), s.tasks[t].id);
  }

  /** In every run, on any disk, a pending intent of a known download with a backend means it is running or completed. */
  lemma PendingIntentMeansRunning(cfg: Config, env: Env, db: Table, trace: seq<Sys>, ops: seq<Op>, k: nat, id: Id)
    requires Life(cfg, env, db, trace, ops) && k < |trace|
    requires id in trace[k].intents && id in trace[k].downloads && trace[k].downloads[id].info.backend in cfg.backends
    ensures trace[k].downloads[id].info.state.Active() || trace[k].downloads[id].info.state.Completed?
  {
    LifeIsSafe(cfg, env, db, trace, ops, k);
  }

  /** Every attempt starts without an intent: one that a step has just spawned was not paused, nor its download marked. */
  lemma AttemptStartsClean(cfg: Config, env: Env, s: Sys, op: Op, t: TaskId)
    requires Safe(cfg, s) && Enabled(s, op)
    requires var r := Apply(cfg, env, s, op).0;
             && t in r.tasks && t >= s.nextTask
             && r.tasks[t].id in r.downloads && r.downloads[r.tasks[t].id].info.backend in cfg.backends
    ensures var r := Apply(cfg, env, s, op).0; t !in r.pausedTries && r.tasks[t].id !in r.intents
  {
    StepIsSafe(cfg, env, s, op);
    StepRecordsPause(cfg, env, s, op, t);
  }

  lemma FailureOutcome(cfg: Config, env: Env, s: Sys, t: TaskId)
    requires Safe(cfg, s) && t in s.tasks && s.tasks[t].id in s.downloads
    ensures var r := FailWithoutBackend(env, s, t);
            StateOf(r, s.tasks[t].id) == Some(Failed) && r.intents == s.intents
  {}

  /** A missing backend is the exception: such an attempt fails without clearing the intent it was given. */
  lemma MissingBackendKeepsIntent(cfg: Config, env: Env, s: Sys, t: TaskId)
    requires Safe(cfg, s) && t in s.tasks && s.tasks[t].Spawned? && s.tasks[t].id in s.downloads
    requires s.downloads[s.tasks[t].id].info.backend !in cfg.backends
    ensures var (id, r) := (s.tasks[t].id, TaskBegin(cfg, env, s, t));
            StateOf(r, id) == Some(Failed) && (id in r.intents <==> id in s.intents)
  {
    var id := s.tasks[t].id;
    FailureIsSafe(cfg, env, s, t);
    FailureOutcome(cfg, env, s, t);
    var s1 := FailWithoutBackend(env, s, t);
    ScheduleLeavesAlone(cfg, env, s1, id);
    ScheduleKeepsIntents(cfg, env, s1);
  }

  lemma {:induction false} ScheduleKeepsIntents(cfg: Config, env: Env, s: Sys)
    ensures Schedule(cfg, env, s).intents == s.intents
    decreases |s.queue|
  {
    var ids := Selected(cfg, s);
    if ids != [] {
      ScheduleKeepsIntents(cfg, env, StartOne(env, s, ids[0]));
    }
  }
}
