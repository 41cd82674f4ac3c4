/** What each call answers, what it does to the download it names, and that it leaves the others alone. */
module Effects {
  import opened Wrappers
  import opened Lifecycle
  import opened Queues
  import opened ManagerModel
  import opened Safety
  import opened SafeSteps
  import opened Scheduling
  import opened StuckDownloads

  /** The download a step is about. */
  function Target(s: Sys, op: Op): Option<Id>
    requires Enabled(s, op)
  {
    match op
    case DoShutdown => None
    case DoTaskBegin(t) => Some(s.tasks[t].id)
    case DoTaskEnd(t, _) => Some(s.tasks[t].id)
    case DoTaskVanish(t) => Some(s.tasks[t].id)
    case _ => Some(op.id)
  }

  /** From `s` to `r` download `x` kept its record, or was queued and has been started, and nothing else. */
  ghost predicate KeptOrStarted(s: Sys, r: Sys, x: Id) {
    x in s.downloads && x in r.downloads
    && (r.downloads[x].info == s.downloads[x].info
        || (x in s.queue && Begun(s.downloads[x].info, r.downloads[x].info)))
  }

  lemma ScheduleKeepsOrStarts(cfg: Config, env: Env, s: Sys, x: Id)
    requires Safe(cfg, s) && x in s.downloads
    ensures KeptOrStarted(s, Schedule(cfg, env, s), x)
  {
    ScheduleEffect(cfg, env, s);
    assert x in Selected(cfg, s) ==> x in s.queue;
  }

  lemma TransitionKeepsOthers(env: Env, s: Sys, id: Id, next: DownloadState, error: Option<string>, x: Id)
    requires x != id
    ensures var r := TransitionState(env, s, id, next, error).0;
            (x in r.downloads <==> x in s.downloads) && (x in s.downloads ==> r.downloads[x] == s.downloads[x])
  {}

  lemma SettleKeepsOthers(env: Env, s: Sys, id: Id, b: BackendResult, x: Id)
    requires x != id && x in s.downloads
    ensures var r := Settle(env, s, id, b);
            x in r.downloads && r.downloads[x] == s.downloads[x] && r.queue == s.queue
  {
    var s1 := s.(intents := s.intents - {id});
    match b
    case Finished(_, _, _) => TransitionKeepsOthers(env, RecordOutcome(env, s, id, b), id, Completed, None, x);
    case Stopped =>
      TransitionKeepsOthers(env, s1, id, Paused, Some("paused by user"), x);
      TransitionKeepsOthers(env, s1, id, Cancelled, Some("cancelled by user"), x);
    case Broken(error) => TransitionKeepsOthers(env, s1, id, Failed, Some(error), x);
  }

  lemma ResumeKeepsOthers(cfg: Config, env: Env, s: Sys, id: Id, x: Id)
    requires Safe(cfg, s) && x in s.downloads && x != id
    ensures KeptOrStarted(s, Resume(cfg, env, s, id).0, x)
  {
    if StateOf(s, id) == Some(Paused) {
      RequeueIsSafe(cfg, env, s, id);
      TransitionKeepsOthers(env, s, id, Queued, None, x);
      ScheduleKeepsOrStarts(cfg, env, Publish(Requeue(env, s, id).0, OnResumed(id)), x);
    }
  }

  lemma RetryKeepsOthers(cfg: Config, env: Env, s: Sys, id: Id, x: Id)
    requires Safe(cfg, s) && x in s.downloads && x != id
    ensures KeptOrStarted(s, Retry(cfg, env, s, id).0, x)
  {
    if StateOf(s, id) == Some(Failed) {
      RequeueIsSafe(cfg, env, s, id);
      TransitionKeepsOthers(env, s, id, Queued, None, x);
      ScheduleKeepsOrStarts(cfg, env, Requeue(env, s, id).0, x);
    }
  }

  lemma ForgetKeepsOthers(env: Env, s: Sys, id: Id, x: Id)
    requires x in s.downloads && x != id
    ensures var r := Forget(env, s, id).0;
            && x in r.downloads && r.downloads[x] == s.downloads[x]
            && r.queue == Without(s.queue, id)
  {}

  lemma RemovalKeepsOthers(cfg: Config, env: Env, s: Sys, id: Id, x: Id)
    requires Safe(cfg, s) && x in s.downloads && x != id
    ensures KeptOrStarted(s, RemoveDownload(cfg, env, s, id).0, x)
  {
    ForgetIsSafe(cfg, env, s, id);
    ForgetKeepsOthers(env, s, id, x);
    ScheduleKeepsOrStarts(cfg, env, Forget(env, s, id).0, x);
  }

  lemma TaskEndKeepsOthers(cfg: Config, env: Env, s: Sys, t: TaskId, b: BackendResult, x: Id)
    requires Safe(cfg, s) && t in s.tasks && x in s.downloads && x != s.tasks[t].id
    ensures KeptOrStarted(s, TaskEnd(cfg, env, s, t, b), x)
  {
    SettleTaskIsSafe(cfg, env, s, t, b);
    SettleKeepsOthers(env, DropTask(s, t), s.tasks[t].id, b, x);
    ScheduleKeepsOrStarts(cfg, env, SettleTask(env, s, t, b), x);
  }

  lemma TaskBeginKeepsOthers(cfg: Config, env: Env, s: Sys, t: TaskId, x: Id)
    requires Safe(cfg, s) && t in s.tasks && s.tasks[t].Spawned? && x in s.downloads && x != s.tasks[t].id
    ensures KeptOrStarted(s, TaskBegin(cfg, env, s, t), x)
  {
    var id := s.tasks[t].id;
    if id in s.downloads && s.downloads[id].info.backend !in cfg.backends {
      FailureIsSafe(cfg, env, s, t);
      TransitionKeepsOthers(env, DropTask(s, t), id, Failed, Some(NO_BACKEND), x);
      ScheduleKeepsOrStarts(cfg, env, FailWithoutBackend(env, s, t), x);
    }
  }

  lemma AdmissionKeepsOthers(cfg: Config, env: Env, s: Sys, id: Id, spec: Spec, x: Id)
    requires Safe(cfg, s) && id !in s.seen && x in s.downloads
    ensures KeptOrStarted(s, Schedule(cfg, env, Admitted(env, s, id, spec)), x)
  {
    AdmissionIsSafe(cfg, env, s, id, spec);
    ScheduleKeepsOrStarts(cfg, env, Admitted(env, s, id, spec), x);
  }

  lemma StartKeepsOthers(cfg: Config, env: Env, s: Sys, id: Id, x: Id)
    requires x != id && x in s.downloads
    ensures KeptOrStarted(s, Start(cfg, env, s, id).0, x)
  {}

  lemma CancelKeepsOthers(env: Env, s: Sys, id: Id, x: Id)
    requires x != id && x in s.downloads
    ensures KeptOrStarted(s, Cancel(env, s, id).0, x)
  {}

  lemma EnqueueKeepsOthers(cfg: Config, env: Env, s: Sys, id: Id, spec: Spec, x: Id)
    requires Safe(cfg, s) && id !in s.seen && x in s.downloads
    ensures KeptOrStarted(s, Enqueue(cfg, env, s, id, spec).0, x)
  {
    if spec.backend in cfg.backends && Record(env, s, id, spec).1 {
      AdmissionKeepsOthers(cfg, env, s, id, spec, x);
    }
  }

  lemma ProgressKeepsOthers(env: Env, s: Sys, id: Id, downloaded: u64, total: Option<u64>, x: Id)
    requires x != id && x in s.downloads
    ensures KeptOrStarted(s, Progress(env, s, id, downloaded, total), x)
  {}

  /** A step changes the record of no download but its own, except that the scheduler may start waiting ones. */
  lemma OthersAreLeftAlone(cfg: Config, env: Env, s: Sys, op: Op, x: Id)
    requires Safe(cfg, s) && Enabled(s, op) && x in s.downloads && Target(s, op) != Some(x)
    ensures KeptOrStarted(s, Apply(cfg, env, s, op).0, x)
  {
    match op
    case DoEnqueue(id, spec) => EnqueueKeepsOthers(cfg, env, s, id, spec, x);
    case DoStart(id) => StartKeepsOthers(cfg, env, s, id, x);
    case DoResume(id) => ResumeKeepsOthers(cfg, env, s, id, x);
    case DoRetry(id) => RetryKeepsOthers(cfg, env, s, id, x);
    case DoCancel(id) => CancelKeepsOthers(env, s, id, x);
    case DoRemove(id) => RemovalKeepsOthers(cfg, env, s, id, x);
    case DoTaskBegin(t) => TaskBeginKeepsOthers(cfg, env, s, t, x);
    case DoTaskEnd(t, b) => TaskEndKeepsOthers(cfg, env, s, t, b, x);
    case DoProgress(id, n, total) => ProgressKeepsOthers(env, s, id, n, total, x);
    case _ =>
  }

  // ---------------------------------------------------------------- the calls one by one

  /** Enqueueing succeeds exactly with a registered backend and a working save, and then the download waits or runs. */
  lemma EnqueueEffect(cfg: Config, env: Env, s: Sys, id: Id, spec: Spec)
    requires Safe(cfg, s) && id !in s.seen
    ensures var (r, reply) := Enqueue(cfg, env, s, id, spec);
            && (reply.Accepted? <==> spec.backend in cfg.backends && env.disk(s.dbCalls))
            && (reply.Accepted? ==>
                  && id in r.downloads
                  && var d := r.downloads[id].info;
                     && d.url == spec.url && d.destination == spec.destination && d.backend == spec.backend
                     && d.overwrite == spec.overwrite && d.meta == spec.meta
                     && d.createdAt == env.clock(s.ticks) && d.downloadedBytes == 0 && d.totalBytes.None?
                     && (if id in r.queue then d.state.Queued? else d.state.Starting?)
                     && (id in r.queue <==> |s.queue| >= Scheduler.Capacity(CountActive(s.downloads), cfg.limit)))
            && (reply.Rejected? ==> r.downloads == s.downloads && r.queue == s.queue && r.db == s.db && r.log == s.log)
  {
    if Enqueue(cfg, env, s, id, spec).1.Accepted? {
      AdmissionIsSafe(cfg, env, s, id, spec);
      AdmissionOutcome(cfg, env, s, id, spec);
      NewcomerWaits(cfg, env, Admitted(env, s, id, spec), s.queue, id);
    }
  }

  lemma AdmissionOutcome(cfg: Config, env: Env, s: Sys, id: Id, spec: Spec)
    requires Safe(cfg, s) && id !in s.seen
    ensures var r := Admitted(env, s, id, spec);
            && r.queue == s.queue + [id] && id in r.downloads
            && r.downloads[id].info == NewDownload(id, spec, env.clock(s.ticks))
            && CountActive(r.downloads) == CountActive(s.downloads)
  {
    ActiveAfterUpdate(s.downloads, id, Admitted(env, s, id, spec).downloads[id]);
  }

  lemma LastIsLast(waiting: seq<Id>, id: Id, k: nat)
    requires NoDup(waiting + [id]) && k <= |waiting| + 1
    ensures id in (waiting + [id])[k..] <==> k <= |waiting|
    ensures id in (waiting + [id])[..k] <==> k > |waiting|
  {
    var q := waiting + [id];
    assert q[|waiting|] == id;
    if k <= |waiting| {
      assert q[k..][|waiting| - k] == id;
    } else {
      assert q[..k] == q;
    }
  }

  lemma NewcomerWaits(cfg: Config, env: Env, s: Sys, waiting: seq<Id>, id: Id)
    requires Safe(cfg, s) && s.queue == waiting + [id]
    ensures var r := Schedule(cfg, env, s);
            && (id in r.queue <==> |waiting| >= Scheduler.Capacity(CountActive(s.downloads), cfg.limit))
            && id in r.downloads
            && (if id in r.queue then r.downloads[id] == s.downloads[id]
                else Begun(s.downloads[id].info, r.downloads[id].info))
  {
    var ids := Selected(cfg, s);
    ScheduleEffect(cfg, env, s);
    LastIsLast(waiting, id, |ids|);
    if id in s.queue[|ids|..] {
      assert id !in ids;
    }
  }

  /**
   * Starting is accepted exactly for a queued download, and claims a place exactly when there is room; a task to use
   * that place is spawned exactly when the save works.
   */
  lemma StartEffect(cfg: Config, env: Env, s: Sys, id: Id)
    requires Safe(cfg, s)
    ensures var (r, reply) := Start(cfg, env, s, id);
            && (reply.Accepted? <==> StateOf(s, id) == Some(Queued))
            && (reply.Rejected? || CountActive(s.downloads) >= cfg.limit ==> r == s)
            && (reply.Accepted? && CountActive(s.downloads) < cfg.limit ==>
                  && StateOf(r, id) == Some(Starting) && id !in r.queue
                  && CountActive(r.downloads) == CountActive(s.downloads) + 1
                  && (NoTask(r.tasks, id) <==> !env.disk(s.dbCalls)))
  {
    if StateOf(s, id) == Some(Queued) && CountActive(s.downloads) < cfg.limit {
      BeginEffect(env, s.(queue := Without(s.queue, id)), id);
      StartGetsStuckExactlyWhenItsSaveFails(cfg, env, s, id);
    }
  }

  /** Scheduling saves only downloads on the queue, and signals nobody. */
  lemma {:induction false} ScheduleTouchesQueuedOnly(cfg: Config, env: Env, s: Sys, x: Id)
    requires Safe(cfg, s) && x !in s.queue
    ensures var r := Schedule(cfg, env, s);
            (x in r.db <==> x in s.db) && r.signalled == s.signalled
    decreases |s.queue|
  {
    var ids := Selected(cfg, s);
    if ids != [] {
      assert ids[0] == s.queue[0] && ids[0] in s.queue;
      StartOneIsSafe(cfg, env, s, ids[0]);
      StartTouchesOne(env, s, ids[0], x);
      ScheduleTouchesQueuedOnly(cfg, env, StartOne(env, s, ids[0]), x);
    }
  }

  lemma StartTouchesOne(env: Env, s: Sys, id: Id, x: Id)
    requires x != id && id in s.downloads && s.downloads[id].info.id == id
    ensures var r := StartOne(env, s, id);
            (x in r.db <==> x in s.db) && r.signalled == s.signalled
  {}

  lemma ForgetEffect(env: Env, s: Sys, id: Id)
    ensures var (r, deleted) := Forget(env, s, id);
            && deleted == env.disk(s.dbCalls)
            && r.downloads == s.downloads - {id} && r.queue == Without(s.queue, id)
            && r.db == (if deleted then s.db - {id} else s.db)
            && (id in s.downloads && s.downloads[id].cancel.Some? ==> s.downloads[id].cancel.value in r.signalled)
  {}

  /**
   * Removing forgets the download and signals its attempt at once, whatever the disk does; it is accepted exactly when
   * the database deletes the row, and then the row is gone.
   */
  lemma RemoveEffect(cfg: Config, env: Env, s: Sys, id: Id)
    requires Safe(cfg, s)
    ensures var (r, reply) := RemoveDownload(cfg, env, s, id);
            && id !in r.downloads && id !in r.queue
            && (reply.Accepted? <==> env.disk(s.dbCalls))
            && (id in s.downloads && s.downloads[id].cancel.Some? ==> s.downloads[id].cancel.value in r.signalled)
            && (reply.Accepted? ==> id !in r.db)
            && (reply.Rejected? ==> r.db == s.db && r.downloads == s.downloads - {id})
  {
    ForgetEffect(env, s, id);
    ForgetIsSafe(cfg, env, s, id);
    ScheduleEffect(cfg, env, Forget(env, s, id).0);
    ScheduleTouchesQueuedOnly(cfg, env, Forget(env, s, id).0, id);
  }
}
