/** Every step keeps the invariant of the Safety module, so every run of a process does. */
module SafeSteps {
  import opened Wrappers
  import opened Lifecycle
  import opened Queues
  import opened Records
  import opened Bandwidth
  import opened ManagerModel
  import opened Safety

  // ---------------------------------------------------------------- public calls

  lemma InsertKeepsQueue(limit: nat, queue: seq<Id>, downloads: Known, id: Id, m: Managed)
    requires QueueOk(limit, queue, downloads) && id !in downloads && m.info.state.Queued?
    ensures QueueOk(limit, queue + [id], downloads[id := m])
  {
    ActiveAfterUpdate(downloads, id, m);
  }

  lemma InsertKeepsTasks(s: Sys, id: Id, info: Download)
    requires TasksOk(s.tasks, s.running, s.downloads, s.nextTask, s.seen) && id !in s.seen
    ensures TasksOk(s.tasks, s.running, s.downloads[id := Managed(info, None, None)], s.nextTask, s.seen + {id})
    ensures NoTask(s.tasks, id)
  {}

  lemma InsertIsSafe(cfg: Config, s: Sys, r: Sys, id: Id, info: Download)
    requires Safe(cfg, s) && id !in s.seen && info.id == id && info.state.Queued?
    requires SameFrame(s, r.(queue := s.queue, seen := s.seen))
    requires r.queue == s.queue + [id] && r.seen == s.seen + {id}
    requires r.downloads == s.downloads[id := Managed(info, None, None)]
    ensures Safe(cfg, r)
  {
    InsertKeepsQueue(cfg.limit, s.queue, s.downloads, id, Managed(info, None, None));
    InsertKeepsTasks(s, id, info);
    RanksOnlyFall(s.running, s.tasks, s.downloads.Keys, r.tasks, r.downloads.Keys);
  }

  lemma AdmissionIsSafe(cfg: Config, env: Env, s: Sys, id: Id, spec: Spec)
    requires Safe(cfg, s) && id !in s.seen
    ensures Safe(cfg, Admitted(env, s, id, spec))
  {
    InsertIsSafe(cfg, s, Admitted(env, s, id, spec), id, NewDownload(id, spec, env.clock(s.ticks)));
  }

  lemma EnqueueIsSafe(cfg: Config, env: Env, s: Sys, id: Id, spec: Spec)
    requires Safe(cfg, s) && id !in s.seen
    ensures Safe(cfg, Enqueue(cfg, env, s, id, spec).0)
  {
    AdmissionIsSafe(cfg, env, s, id, spec);
    if spec.backend in cfg.backends {
      ScheduleIsSafe(cfg, env, Admitted(env, s, id, spec));
    }
  }

  lemma StartIsSafe(cfg: Config, env: Env, s: Sys, id: Id)
    requires Safe(cfg, s)
    ensures Safe(cfg, Start(cfg, env, s, id).0)
  {
    if StateOf(s, id) == Some(Queued) && CountActive(s.downloads) < cfg.limit {
      StartOneIsSafe(cfg, env, s, id);
    }
  }

  lemma PauseIsSafe(cfg: Config, s: Sys, id: Id)
    requires Safe(cfg, s)
    ensures Safe(cfg, Pause(s, id).0)
  {}

  lemma RequeueIsSafe(cfg: Config, env: Env, s: Sys, id: Id)
    requires Safe(cfg, s) && (StateOf(s, id) == Some(Paused) || StateOf(s, id) == Some(Failed))
    ensures Safe(cfg, Requeue(env, s, id).0)
  {
    RestingHasNoTask(cfg, s, id);
    TransitionIsSafe(cfg, env, s, id, Queued, None);
  }

  lemma ResumeIsSafe(cfg: Config, env: Env, s: Sys, id: Id)
    requires Safe(cfg, s)
    ensures Safe(cfg, Resume(cfg, env, s, id).0)
  {
    if StateOf(s, id) == Some(Paused) {
      RequeueIsSafe(cfg, env, s, id);
      ScheduleIsSafe(cfg, env, Publish(Requeue(env, s, id).0, OnResumed(id)));
    }
  }

  lemma RetryIsSafe(cfg: Config, env: Env, s: Sys, id: Id)
    requires Safe(cfg, s)
    ensures Safe(cfg, Retry(cfg, env, s, id).0)
  {
    if StateOf(s, id) == Some(Failed) {
      RequeueIsSafe(cfg, env, s, id);
      ScheduleIsSafe(cfg, env, Requeue(env, s, id).0);
    }
  }

  lemma CancelIsSafe(cfg: Config, env: Env, s: Sys, id: Id)
    requires Safe(cfg, s)
    ensures Safe(cfg, Cancel(env, s, id).0)
  {
    if id in s.downloads && !s.downloads[id].info.state.Active() && !s.downloads[id].info.state.Terminal() {
      var s1 := s.(queue := Without(s.queue, id));
      DequeueIsSafe(cfg, s, id);
      RestingHasNoTask(cfg, s1, id);
      TransitionIsSafe(cfg, env, s1, id, Cancelled, Some("cancelled by user"));
    }
  }

  lemma WithoutRecordIsSafe(cfg: Config, s: Sys, r: Sys, id: Id)
    requires Safe(cfg, s) && SameFrame(s, r.(queue := s.queue))
    requires r.queue == Without(s.queue, id) && r.downloads == s.downloads - {id}
    ensures Safe(cfg, r)
  {
    ActiveAfterRemoval(s.downloads, id);
    RanksOnlyFall(s.running, s.tasks, s.downloads.Keys, r.tasks, r.downloads.Keys);
    assert QueueOk(cfg.limit, r.queue, r.downloads);
    assert TasksOk(r.tasks, r.running, r.downloads, r.nextTask, r.seen);
    assert PausesOk(cfg.backends, r.intents, r.pausedTries, r.tasks, r.downloads, r.nextTask);
  }

  lemma ForgetIsSafe(cfg: Config, env: Env, s: Sys, id: Id)
    requires Safe(cfg, s)
    ensures Safe(cfg, Forget(env, s, id).0)
  {
    WithoutRecordIsSafe(cfg, s, Forget(env, s, id).0, id);
  }

  lemma ShutdownIsSafe(cfg: Config, s: Sys)
    requires Safe(cfg, s)
    ensures Safe(cfg, Shutdown(s))
  {
    var r := Shutdown(s);
    assert r.downloads.Keys == s.downloads.Keys;
    assert ActiveIds(r.downloads) == ActiveIds(s.downloads);
    assert TasksOk(r.tasks, r.running, r.downloads, r.nextTask, r.seen);
    assert IntentsOk(cfg.backends, r.intents, r.downloads, r.seen);
    assert PausesOk(cfg.backends, r.intents, r.pausedTries, r.tasks, r.downloads, r.nextTask);
  }

  // ---------------------------------------------------------------- callbacks and tasks

  lemma ProgressIsSafe(cfg: Config, env: Env, s: Sys, id: Id, downloaded: u64, total: Option<u64>)
    requires Safe(cfg, s)
    ensures Safe(cfg, Progress(env, s, id, downloaded, total))
  {
    var r := Progress(env, s, id, downloaded, total);
    if id in s.downloads {
      InfoChangeIsSafe(cfg, s, r, id, r.downloads[id].info);
    }
  }

  lemma DropIsSafe(cfg: Config, s: Sys, t: TaskId)
    requires Safe(cfg, s) && t in s.tasks
    ensures Safe(cfg, DropTask(s, t))
    ensures s.tasks[t].id in s.downloads ==> NoTask(DropTask(s, t).tasks, s.tasks[t].id)
  {
    var r := DropTask(s, t);
    RankWithout(s.running, s.tasks, s.downloads.Keys, t);
    RanksOnlyFall(r.running, s.tasks, s.downloads.Keys, r.tasks, s.downloads.Keys);
    assert TasksOk(r.tasks, r.running, r.downloads, r.nextTask, r.seen);
  }

  /** The download of a task about to enter its backend is active, and none of those already held. */
  lemma RoomForOneMore(cfg: Config, s: Sys, t: TaskId)
    requires Safe(cfg, s) && t in s.tasks && s.tasks[t].Spawned? && s.tasks[t].id in s.downloads
    ensures t !in s.running
    ensures Rank(s.running, s.tasks, s.downloads.Keys) + 1 <= CountActive(s.downloads)
  {
    var id, held := s.tasks[t].id, HeldIds(s.running, s.tasks, s.downloads.Keys);
    RankCountsDownloads(s.running, s.tasks, s.downloads);
    assert id !in held;
    SubsetSize(held + {id}, ActiveIds(s.downloads));
  }

  lemma HandOverKeepsTasks(cfg: Config, s: Sys, t: TaskId, task: Task)
    requires Safe(cfg, s) && t in s.tasks && t !in s.running && task.Running? && task.id == s.tasks[t].id
    ensures TasksOk(s.tasks[t := task], s.running + [t], s.downloads, s.nextTask, s.seen)
    ensures PausesOk(cfg.backends, s.intents, s.pausedTries, s.tasks[t := task], s.downloads, s.nextTask)
  {}

  lemma HandOverIsSafe(cfg: Config, s: Sys, r: Sys, t: TaskId)
    requires Safe(cfg, s) && t in s.tasks && s.tasks[t].Spawned?
    requires s.tasks[t].id in s.downloads
    requires var a := CountActive(s.downloads);
             r == s.(tasks := s.tasks[t := Running(s.tasks[t].id, a, LimiterFor(cfg.cap, a))], running := s.running + [t])
    ensures Safe(cfg, r)
  {
    RoomForOneMore(cfg, s, t);
    RanksOnlyFall(s.running, s.tasks, s.downloads.Keys, r.tasks, s.downloads.Keys);
    assert r.running[..|r.running| - 1] == s.running;
    HandOverKeepsTasks(cfg, s, t, r.tasks[t]);
  }

  lemma FailureIsSafe(cfg: Config, env: Env, s: Sys, t: TaskId)
    requires Safe(cfg, s) && t in s.tasks && s.tasks[t].id in s.downloads
    requires s.downloads[s.tasks[t].id].info.backend !in cfg.backends
    ensures Safe(cfg, FailWithoutBackend(env, s, t))
  {
    DropIsSafe(cfg, s, t);
    TransitionIsSafe(cfg, env, DropTask(s, t), s.tasks[t].id, Failed, Some(NO_BACKEND));
  }

  lemma TaskBeginIsSafe(cfg: Config, env: Env, s: Sys, t: TaskId)
    requires Safe(cfg, s) && t in s.tasks && s.tasks[t].Spawned?
    ensures Safe(cfg, TaskBegin(cfg, env, s, t))
  {
    var id := s.tasks[t].id;
    DropIsSafe(cfg, s, t);
    if id in s.downloads {
      if s.downloads[id].info.backend !in cfg.backends {
        FailureIsSafe(cfg, env, s, t);
        ScheduleIsSafe(cfg, env, FailWithoutBackend(env, s, t));
      } else {
        HandOverIsSafe(cfg, s, TaskBegin(cfg, env, s, t), t);
      }
    }
  }

  lemma TransitionFromUnknown(env: Env, s: Sys, id: Id, next: DownloadState, error: Option<string>)
    requires id !in s.downloads
    ensures TransitionState(env, s, id, next, error).0 == s.(ticks := s.ticks + 1)
  {}

  lemma OutcomeIsSafe(cfg: Config, env: Env, s: Sys, id: Id, r: BackendResult)
    requires Safe(cfg, s) && id in s.downloads && NoTask(s.tasks, id) && s.downloads[id].info.state.Active() && r.Finished?
    ensures Safe(cfg, TransitionState(env, RecordOutcome(env, s, id, r), id, Completed, None).0)
  {
    var s1 := RecordOutcome(env, s, id, r);
    InfoChangeIsSafe(cfg, s, s1, id, s1.downloads[id].info);
    TransitionIsSafe(cfg, env, s1, id, Completed, None);
  }

  /** Once the intent is cleared, the download may come to rest in any of the stopped states. */
  lemma RestIsSafe(cfg: Config, env: Env, s: Sys, id: Id, next: DownloadState, error: Option<string>)
    requires Safe(cfg, s) && id in s.downloads && NoTask(s.tasks, id) && s.downloads[id].info.state.Active()
    requires next.Paused? || next.Cancelled? || next.Failed?
    ensures Safe(cfg, TransitionState(env, s.(intents := s.intents - {id}), id, next, error).0)
  {
    ForgottenIntentIsSafe(cfg, s, id);
    TransitionIsSafe(cfg, env, s.(intents := s.intents - {id}), id, next, error);
  }

  lemma ForgottenIntentIsSafe(cfg: Config, s: Sys, id: Id)
    requires Safe(cfg, s) && (id in s.downloads ==> NoTask(s.tasks, id))
    ensures Safe(cfg, s.(intents := s.intents - {id}))
  {}

  lemma FinishIsSafe(cfg: Config, env: Env, s: Sys, id: Id, r: BackendResult)
    requires Safe(cfg, s) && (id in s.downloads ==> NoTask(s.tasks, id) && s.downloads[id].info.state.Active()) && r.Finished?
    ensures Safe(cfg, Settle(env, s, id, r))
  {
    if id in s.downloads {
      OutcomeIsSafe(cfg, env, s, id, r);
    }
  }

  lemma StopIsSafe(cfg: Config, env: Env, s: Sys, id: Id)
    requires Safe(cfg, s) && (id in s.downloads ==> NoTask(s.tasks, id) && s.downloads[id].info.state.Active())
    ensures Safe(cfg, Settle(env, s, id, Stopped))
  {
    if id in s.downloads {
      if id in s.intents {
        RestIsSafe(cfg, env, s, id, Paused, Some("paused by user"));
      } else {
        RestIsSafe(cfg, env, s, id, Cancelled, Some("cancelled by user"));
      }
    } else {
      ForgottenIntentIsSafe(cfg, s, id);
    }
  }

  lemma BreakIsSafe(cfg: Config, env: Env, s: Sys, id: Id, error: string)
    requires Safe(cfg, s) && (id in s.downloads ==> NoTask(s.tasks, id) && s.downloads[id].info.state.Active())
    ensures Safe(cfg, Settle(env, s, id, Broken(error)))
  {
    if id in s.downloads {
      RestIsSafe(cfg, env, s, id, Failed, Some(error));
    }
  }

  lemma SettleIsSafe(cfg: Config, env: Env, s: Sys, id: Id, r: BackendResult)
    requires Safe(cfg, s) && (id in s.downloads ==> NoTask(s.tasks, id) && s.downloads[id].info.state.Active())
    ensures Safe(cfg, Settle(env, s, id, r))
  {
    match r
    case Finished(_, _, _) => FinishIsSafe(cfg, env, s, id, r);
    case Stopped => StopIsSafe(cfg, env, s, id);
    case Broken(error) => BreakIsSafe(cfg, env, s, id, error);
  }

  lemma SettleTaskIsSafe(cfg: Config, env: Env, s: Sys, t: TaskId, r: BackendResult)
    requires Safe(cfg, s) && t in s.tasks
    ensures Safe(cfg, SettleTask(env, s, t, r))
  {
    DropIsSafe(cfg, s, t);
    SettleIsSafe(cfg, env, DropTask(s, t), s.tasks[t].id, r);
  }

  lemma RemoveIsSafe(cfg: Config, env: Env, s: Sys, id: Id)
    requires Safe(cfg, s)
    ensures Safe(cfg, RemoveDownload(cfg, env, s, id).0)
  {
    ForgetIsSafe(cfg, env, s, id);
    ScheduleIsSafe(cfg, env, Forget(env, s, id).0);
  }

  lemma TaskEndIsSafe(cfg: Config, env: Env, s: Sys, t: TaskId, r: BackendResult)
    requires Safe(cfg, s) && t in s.tasks
    ensures Safe(cfg, TaskEnd(cfg, env, s, t, r))
  {
    SettleTaskIsSafe(cfg, env, s, t, r);
    ScheduleIsSafe(cfg, env, SettleTask(env, s, t, r));
  }

  /** Every step keeps the invariant, whatever the disk and the clock do. */
  lemma StepIsSafe(cfg: Config, env: Env, s: Sys, op: Op)
    requires Safe(cfg, s) && Enabled(s, op)
    ensures Safe(cfg, Apply(cfg, env, s, op).0)
  {
    match op
    case DoEnqueue(id, spec) => EnqueueIsSafe(cfg, env, s, id, spec);
    case DoStart(id) => StartIsSafe(cfg, env, s, id);
    case DoPause(id) => PauseIsSafe(cfg, s, id);
    case DoResume(id) => ResumeIsSafe(cfg, env, s, id);
    case DoCancel(id) => CancelIsSafe(cfg, env, s, id);
    case DoRetry(id) => RetryIsSafe(cfg, env, s, id);
    case DoRemove(id) => RemoveIsSafe(cfg, env, s, id);
    case DoShutdown => ShutdownIsSafe(cfg, s);
    case DoProgress(id, n, total) => ProgressIsSafe(cfg, env, s, id, n, total);
    case DoTaskBegin(t) => TaskBeginIsSafe(cfg, env, s, t);
    case DoTaskEnd(t, r) => TaskEndIsSafe(cfg, env, s, t, r);
    case DoTaskVanish(t) => DropIsSafe(cfg, s, t);
  }
}
