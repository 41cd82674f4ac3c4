/** With a working database every step keeps the invariant of the Consistency module. */
module ConsistentSteps {
  import opened Wrappers
  import opened Lifecycle
  import opened Queues
  import opened Records
  import opened ManagerModel
  import opened Safety
  import opened SafeSteps
  import opened Consistency

  type Base = map<Id, DownloadState>

  /** The states differ at most in fields the story does not mention. */
  ghost predicate SameStory(s: Sys, r: Sys) {
    && r.queue == s.queue && r.downloads == s.downloads && r.db == s.db && r.log == s.log && r.tasks == s.tasks
    && r.aborted == s.aborted && r.seen == s.seen && r.snapshots == s.snapshots
  }

  lemma SameStoryIsConsistent(base: Base, n0: nat, s: Sys, r: Sys)
    requires Consistent(base, n0, s) && SameStory(s, r)
    ensures Consistent(base, n0, r)
  {
    Unsettled(base, n0, s, 0);
    Settled(base, n0, r, 0);
  }

  // ---------------------------------------------------------------- public calls

  /** Saving the row first leaves the table one record ahead; recording the download catches up. */
  lemma AdmissionLag(env: Env, s: Sys, id: Id, d: Download)
    requires Reliable(env) && LagOk(s.snapshots) && AgreeExcept(s.downloads, s.db, id) && Canonical(s.db)
    requires id !in s.downloads && d.id == id
    ensures var s1 := Save(env, s, d).0;
            var s2 := Remember(s1.(downloads := s1.downloads[id := Managed(d, None, None)]));
            && s2 == s.(dbCalls := s2.dbCalls, db := s2.db, snapshots := s2.snapshots,
                        downloads := s.downloads[id := Managed(d, None, None)])
            && LagOk(s2.snapshots) && AgreeExcept(s2.downloads, s2.db, id) && Canonical(s2.db) && Agrees(s2.downloads, s2.db, id)
  {
    var s1 := Save(env, s, d).0;
    assert env.disk(s.dbCalls);
    SaveKeepsLag(env, s, d);
    ChangeKeepsAgreement(s1.downloads, s1.db, id, Managed(d, None, None));
    RememberKeepsLag(s1.(downloads := s1.downloads[id := Managed(d, None, None)]), id);
  }

  lemma AdmissionIsConsistent(base: Base, n0: nat, env: Env, s: Sys, id: Id, spec: Spec)
    requires Reliable(env) && Consistent(base, n0, s) && id !in s.seen && id !in s.downloads
    ensures Consistent(base, n0, Admitted(env, s, id, spec))
  {
    var d := NewDownload(id, spec, env.clock(s.ticks));
    Unsettled(base, n0, s, id);
    AdmissionLag(env, s.(ticks := s.ticks + 1, seen := s.seen + {id}), id, d);
    ArrivalEvent(base, n0, s.log, s.downloads, s.seen, id, Managed(d, None, None));
    Settled(base, n0, Admitted(env, s, id, spec), id);
  }

  /** A stopped download going back on the queue. */
  lemma RequeueIsConsistent(base: Base, n0: nat, env: Env, s: Sys, id: Id)
    requires Reliable(env) && Consistent(base, n0, s)
    requires StateOf(s, id) == Some(Paused) || StateOf(s, id) == Some(Failed)
    requires s.downloads[id].info.id == id
    ensures Requeue(env, s, id).1.Accepted? && Consistent(base, n0, Requeue(env, s, id).0)
  {
    Unsettled(base, n0, s, id);
    AgreeingIsInStep(s.downloads, s.db, id);
    TransitionIsConsistent(base, n0, env, s, id, Queued, None);
    var s1 := TransitionState(env, s, id, Queued, None).0;
    BackOnQueue(base, n0, s1, id);
  }

  lemma BackOnQueue(base: Base, n0: nat, s: Sys, id: Id)
    requires ConsistentBut(base, n0, s, id) && Agrees(s.downloads, s.db, id)
    requires id in s.downloads && s.downloads[id].info.state.Queued?
    ensures Consistent(base, n0, s.(queue := s.queue + [id]))
  {
    Settled(base, n0, s.(queue := s.queue + [id]), id);
  }

  lemma CancelIsConsistent(base: Base, n0: nat, cfg: Config, env: Env, s: Sys, id: Id)
    requires Reliable(env) && Safe(cfg, s) && Consistent(base, n0, s)
    ensures Consistent(base, n0, Cancel(env, s, id).0)
  {
    if id in s.downloads && !s.downloads[id].info.state.Active() && !s.downloads[id].info.state.Terminal() {
      DequeueIsConsistent(base, n0, s, id);
      AgreeingIsInStep(s.downloads, s.db, id);
      CancelAtRestIsConsistent(base, n0, env, s.(queue := Without(s.queue, id)), id);
    } else {
      SameStoryIsConsistent(base, n0, s, Cancel(env, s, id).0);
    }
  }

  lemma CancelAtRestIsConsistent(base: Base, n0: nat, env: Env, s: Sys, id: Id)
    requires Reliable(env) && ConsistentBut(base, n0, s, id) && id in s.downloads && s.downloads[id].info.id == id
    requires IsValidTransition(s.downloads[id].info.state, Cancelled) && InStep(s.downloads, s.db, id)
    ensures var (r, reply) := TransitionState(env, s, id, Cancelled, Some("cancelled by user"));
            reply.Accepted? && Consistent(base, n0, Publish(r, OnCancelled(id)))
  {
    var why := Some("cancelled by user");
    TransitionIsConsistent(base, n0, env, s, id, Cancelled, why);
    PublishIsConsistent(base, n0, TransitionState(env, s, id, Cancelled, why).0, OnCancelled(id), id);
  }

  lemma RemovalLag(s: Sys, id: Id)
    requires LagOk(s.snapshots) && AgreeExcept(s.downloads, s.db, id) && Canonical(s.db)
    ensures var r := s.(downloads := s.downloads - {id});
            LagOk(Remember(r).snapshots) && AgreeExcept(r.downloads, r.db, id)
  {
    var r := s.(downloads := s.downloads - {id});
    forall x | x != id
      ensures Agrees(r.downloads, r.db, x)
    {
      assert Agrees(s.downloads, s.db, x);
    }
    RememberKeepsLag(r, id);
  }

  lemma DeletionLag(env: Env, s: Sys, id: Id)
    requires Reliable(env) && LagOk(s.snapshots) && AgreeExcept(s.downloads, s.db, id) && Canonical(s.db) && id !in s.downloads
    ensures var (r, deleted) := Delete(env, s, id);
            deleted && LagOk(r.snapshots) && AgreeExcept(r.downloads, r.db, id) && Canonical(r.db) && Agrees(r.downloads, r.db, id)
  {
    assert env.disk(s.dbCalls);
    var r := s.(dbCalls := s.dbCalls + 1, db := s.db - {id});
    forall x | x != id
      ensures Agrees(r.downloads, r.db, x)
    {
      assert Agrees(s.downloads, s.db, x);
    }
    RememberKeepsLag(r, id);
  }

  /** What removing a download leaves, before scheduling. */
  lemma ForgetIsConsistent(base: Base, n0: nat, env: Env, s: Sys, id: Id)
    requires Reliable(env) && Consistent(base, n0, s)
    ensures Forget(env, s, id).1 && Consistent(base, n0, Forget(env, s, id).0)
  {
    Unsettled(base, n0, s, id);
    var s0 := Signal(s, id).(queue := Without(s.queue, id));
    RemovalLag(s0, id);
    DeletionLag(env, Remember(s0.(downloads := s0.downloads - {id})), id);
    Settled(base, n0, Forget(env, s, id).0, id);
  }

  lemma ShutdownIsConsistent(base: Base, n0: nat, s: Sys)
    requires Consistent(base, n0, s)
    ensures Consistent(base, n0, Shutdown(s))
  {
    var r := Shutdown(s);
    Unsettled(base, n0, s, 0);
    forall x
      ensures Agrees(r.downloads, r.db, x)
    {
      assert x != 0 ==> Agrees(s.downloads, s.db, x);
    }
    Settled(base, n0, r, 0);
  }

  // ---------------------------------------------------------------- callbacks and tasks

  /** A progress report on a known download, up to the announcements. */
  lemma ProgressKeepsLag(env: Env, s: Sys, id: Id, d: Download)
    requires Reliable(env) && LagOk(s.snapshots) && AgreeExcept(s.downloads, s.db, id) && Canonical(s.db)
    requires id in s.downloads && d.id == id
    requires AMoveBehind(s.downloads[id := s.downloads[id].(info := d)], s.db, id)
    ensures var r := Save(env, SetInfo(s, id, d), d).0;
            && r == s.(downloads := s.downloads[id := s.downloads[id].(info := d)], db := r.db, dbCalls := r.dbCalls,
                       snapshots := r.snapshots)
            && LagOk(r.snapshots) && AgreeExcept(r.downloads, r.db, id) && Canonical(r.db) && Agrees(r.downloads, r.db, id)
  {
    ChangeKeepsLag(s, id, d);
    assert env.disk(s.dbCalls);
    SaveKeepsLag(env, SetInfo(s, id, d), d);
  }

  /** A report that leaves the state alone. */
  lemma ReportIsConsistent(base: Base, n0: nat, env: Env, s: Sys, id: Id, d: Download)
    requires Reliable(env) && Consistent(base, n0, s) && id in s.downloads && d.id == id
    requires d.state == s.downloads[id].info.state
    requires SameRequest(Encode(d), Encode(s.downloads[id].info))
    ensures Consistent(base, n0, Save(env, SetInfo(s, id, d), d).0)
  {
    Unsettled(base, n0, s, id);
    ProgressKeepsLag(env, s, id, d);
    var r := Save(env, SetInfo(s, id, d), d).0;
    ChangeLeavesOthers(s.queue, s.downloads, s.tasks, s.aborted, id, s.downloads[id].(info := d));
    SameStateSameReplay(base, n0, s.log, s.downloads, s.seen, id, s.downloads[id].(info := d));
    Settled(base, n0, r, id);
  }

  /** The first report, which moves the download to Downloading. */
  lemma FirstReportIsConsistent(base: Base, n0: nat, env: Env, s: Sys, id: Id, d: Download)
    requires Reliable(env) && Consistent(base, n0, s) && id in s.downloads && d.id == id
    requires s.downloads[id].info.state.Starting? && d.state.Downloading?
    requires SameRequest(Encode(d), Encode(s.downloads[id].info))
    ensures Consistent(base, n0, Publish(Save(env, SetInfo(s, id, d), d).0, StateChanged(id, Starting, Downloading)))
  {
    Unsettled(base, n0, s, id);
    ProgressKeepsLag(env, s, id, d);
    var r := Save(env, SetInfo(s, id, d), d).0;
    ChangeLeavesOthers(s.queue, s.downloads, s.tasks, s.aborted, id, s.downloads[id].(info := d));
    MoveEvent(base, n0, s.log, s.downloads, s.seen, id, s.downloads[id].(info := d));
    Settled(base, n0, Publish(r, StateChanged(id, Starting, Downloading)), id);
  }

  lemma ProgressIsConsistent(base: Base, n0: nat, cfg: Config, env: Env, s: Sys, id: Id, downloaded: u64, total: Option<u64>)
    requires Reliable(env) && Safe(cfg, s) && Consistent(base, n0, s)
    ensures Consistent(base, n0, Progress(env, s, id, downloaded, total))
  {
    var s0 := s.(ticks := s.ticks + 1);
    SameStoryIsConsistent(base, n0, s, s0);
    if id in s.downloads {
      var d := Progress(env, s, id, downloaded, total).downloads[id].info;
      var r := Save(env, SetInfo(s0, id, d), d).0;
      var r1 := r;
      if s.downloads[id].info.state.Starting? {
        FirstReportIsConsistent(base, n0, env, s0, id, d);
        r1 := Publish(r, StateChanged(id, Starting, Downloading));
      } else {
        ReportIsConsistent(base, n0, env, s0, id, d);
      }
      Unsettled(base, n0, r1, id);
      PublishIsConsistent(base, n0, r1, OnProgress(id, downloaded, total), id);
    }
  }

  /** A task that is gone can only leave its own download without an owner. */
  lemma DropIsConsistent(base: Base, n0: nat, cfg: Config, s: Sys, t: TaskId)
    requires Safe(cfg, s) && Consistent(base, n0, s) && t in s.tasks
    ensures ConsistentBut(base, n0, DropTask(s, t), s.tasks[t].id) && InStep(s.downloads, s.db, s.tasks[t].id)
    ensures s.tasks[t].id !in s.downloads || t in s.aborted ==> Consistent(base, n0, DropTask(s, t))
  {
    var id := s.tasks[t].id;
    Unsettled(base, n0, s, id);
    AgreeingIsInStep(s.downloads, s.db, id);
    if id !in s.downloads || t in s.aborted {
      Settled(base, n0, DropTask(s, t), id);
    }
  }

  lemma RecordOutcomeIsConsistent(base: Base, n0: nat, env: Env, s: Sys, id: Id, r: BackendResult)
    requires r.Finished? && ConsistentBut(base, n0, s, id) && InStep(s.downloads, s.db, id)
    ensures var after := RecordOutcome(env, s, id, r);
            ConsistentBut(base, n0, after, id) && InStep(after.downloads, after.db, id)
  {
    if id in s.downloads {
      var d := RecordOutcome(env, s, id, r).downloads[id].info;
      ChangeKeepsLag(s.(ticks := s.ticks + 1), id, d);
      ChangeLeavesOthers(s.queue, s.downloads, s.tasks, s.aborted, id, s.downloads[id].(info := d));
      SameStateSameReplay(base, n0, s.log, s.downloads, s.seen, id, s.downloads[id].(info := d));
    }
  }

  /** The final move of a task. */
  lemma FinishIsConsistent(base: Base, n0: nat, env: Env, s: Sys, id: Id, next: DownloadState, error: Option<string>)
    requires Reliable(env) && ConsistentBut(base, n0, s, id)
    requires !next.Active() && !next.Queued?
    requires id in s.downloads ==> s.downloads[id].info.state.Active() && s.downloads[id].info.id == id
    requires id !in s.downloads ==> SettledAt(s, id)
    requires InStep(s.downloads, s.db, id)
    ensures var r := TransitionState(env, s, id, next, error).0;
            ConsistentBut(base, n0, r, id) && SettledAt(r, id)
  {
    if id in s.downloads {
      TransitionIsConsistent(base, n0, env, s, id, next, error);
    } else {
      TransitionFromUnknown(env, s, id, next, error);
    }
  }

  lemma FinishAndPublish(base: Base, n0: nat, env: Env, s: Sys, id: Id, next: DownloadState, error: Option<string>, e: Event)
    requires Reliable(env) && ConsistentBut(base, n0, s, id) && !e.OnQueued? && !e.StateChanged?
    requires !next.Active() && !next.Queued?
    requires id in s.downloads ==> s.downloads[id].info.state.Active() && s.downloads[id].info.id == id
    requires id !in s.downloads ==> SettledAt(s, id)
    requires InStep(s.downloads, s.db, id)
    ensures Consistent(base, n0, Publish(TransitionState(env, s, id, next, error).0, e))
  {
    FinishIsConsistent(base, n0, env, s, id, next, error);
    PublishIsConsistent(base, n0, TransitionState(env, s, id, next, error).0, e, id);
  }

  lemma SettleIsConsistent(base: Base, n0: nat, env: Env, s: Sys, id: Id, r: BackendResult)
    requires Reliable(env) && ConsistentBut(base, n0, s, id)
    requires id in s.downloads ==> s.downloads[id].info.state.Active() && s.downloads[id].info.id == id
    requires id !in s.downloads ==> SettledAt(s, id)
    requires InStep(s.downloads, s.db, id)
    ensures Consistent(base, n0, Settle(env, s, id, r))
  {
    var s1 := s.(intents := s.intents - {id});
    match r
    case Finished(_, _, _) =>
      RecordOutcomeIsConsistent(base, n0, env, s, id, r);
      FinishAndPublish(base, n0, env, RecordOutcome(env, s, id, r), id, Completed, None, OnCompleted(id));
    case Stopped =>
      FinishAndPublish(base, n0, env, s1, id, Paused, Some("paused by user"), OnPaused(id));
      FinishAndPublish(base, n0, env, s1, id, Cancelled, Some("cancelled by user"), OnCancelled(id));
    case Broken(error) =>
      FinishAndPublish(base, n0, env, s1, id, Failed, Some(error), OnFailed(id, error));
  }

  lemma TaskBeginIsConsistent(base: Base, n0: nat, cfg: Config, env: Env, s: Sys, t: TaskId)
    requires Reliable(env) && Safe(cfg, s) && Consistent(base, n0, s) && t in s.tasks && s.tasks[t].Spawned?
    ensures Consistent(base, n0, TaskBegin(cfg, env, s, t))
  {
    var id := s.tasks[t].id;
    DropIsConsistent(base, n0, cfg, s, t);
    DropIsSafe(cfg, s, t);
    if id in s.downloads {
      if s.downloads[id].info.backend in cfg.backends {
        Unsettled(base, n0, s, id);
        Settled(base, n0, TaskBegin(cfg, env, s, t), id);
      } else {
        FinishIsConsistent(base, n0, env, DropTask(s, t), id, Failed, Some(NO_BACKEND));
        Settled(base, n0, FailWithoutBackend(env, s, t), id);
        FailureIsSafe(cfg, env, s, t);
        ScheduleIsConsistent(base, n0, cfg, env, FailWithoutBackend(env, s, t));
      }
    }
  }

  lemma SettleTaskIsConsistent(base: Base, n0: nat, cfg: Config, env: Env, s: Sys, t: TaskId, r: BackendResult)
    requires Reliable(env) && Safe(cfg, s) && Consistent(base, n0, s) && t in s.tasks
    ensures Consistent(base, n0, SettleTask(env, s, t, r))
  {
    DropIsConsistent(base, n0, cfg, s, t);
    SettleIsConsistent(base, n0, env, DropTask(s, t), s.tasks[t].id, r);
  }

  lemma ResumeIsConsistent(base: Base, n0: nat, cfg: Config, env: Env, s: Sys, id: Id)
    requires Reliable(env) && Safe(cfg, s) && Consistent(base, n0, s)
    ensures Consistent(base, n0, Resume(cfg, env, s, id).0)
  {
    if StateOf(s, id) == Some(Paused) {
      var s1 := Requeue(env, s, id).0;
      RequeueIsConsistent(base, n0, env, s, id);
      RequeueIsSafe(cfg, env, s, id);
      Unsettled(base, n0, s1, id);
      PublishIsConsistent(base, n0, s1, OnResumed(id), id);
      ScheduleIsConsistent(base, n0, cfg, env, Publish(s1, OnResumed(id)));
    }
  }

  lemma RetryIsConsistent(base: Base, n0: nat, cfg: Config, env: Env, s: Sys, id: Id)
    requires Reliable(env) && Safe(cfg, s) && Consistent(base, n0, s)
    ensures Consistent(base, n0, Retry(cfg, env, s, id).0)
  {
    if StateOf(s, id) == Some(Failed) {
      RequeueIsConsistent(base, n0, env, s, id);
      RequeueIsSafe(cfg, env, s, id);
      ScheduleIsConsistent(base, n0, cfg, env, Requeue(env, s, id).0);
    }
  }

  lemma StartIsConsistent(base: Base, n0: nat, cfg: Config, env: Env, s: Sys, id: Id)
    requires Reliable(env) && Safe(cfg, s) && Consistent(base, n0, s)
    ensures Consistent(base, n0, Start(cfg, env, s, id).0)
  {
    if StateOf(s, id) == Some(Queued) {
      StartOneIsConsistent(base, n0, env, s, id);
    }
  }

  lemma RemoveIsConsistent(base: Base, n0: nat, cfg: Config, env: Env, s: Sys, id: Id)
    requires Reliable(env) && Safe(cfg, s) && Consistent(base, n0, s)
    ensures Consistent(base, n0, RemoveDownload(cfg, env, s, id).0)
  {
    ForgetIsConsistent(base, n0, env, s, id);
    ForgetIsSafe(cfg, env, s, id);
    ScheduleIsConsistent(base, n0, cfg, env, Forget(env, s, id).0);
  }

  lemma TaskEndIsConsistent(base: Base, n0: nat, cfg: Config, env: Env, s: Sys, t: TaskId, r: BackendResult)
    requires Reliable(env) && Safe(cfg, s) && Consistent(base, n0, s) && t in s.tasks
    ensures Consistent(base, n0, TaskEnd(cfg, env, s, t, r))
  {
    SettleTaskIsConsistent(base, n0, cfg, env, s, t, r);
    SettleTaskIsSafe(cfg, env, s, t, r);
    ScheduleIsConsistent(base, n0, cfg, env, SettleTask(env, s, t, r));
  }

  lemma EnqueueIsConsistent(base: Base, n0: nat, cfg: Config, env: Env, s: Sys, id: Id, spec: Spec)
    requires Reliable(env) && Safe(cfg, s) && Consistent(base, n0, s) && id !in s.seen
    ensures Consistent(base, n0, Enqueue(cfg, env, s, id, spec).0)
  {
    if spec.backend in cfg.backends {
      AdmissionIsConsistent(base, n0, env, s, id, spec);
      AdmissionIsSafe(cfg, env, s, id, spec);
      ScheduleIsConsistent(base, n0, cfg, env, Admitted(env, s, id, spec));
      assert env.disk(s.dbCalls);
    }
  }

  /** With a working database every step keeps memory, queue, table and event log in agreement. */
  lemma StepIsConsistent(base: Base, n0: nat, cfg: Config, env: Env, s: Sys, op: Op)
    requires Reliable(env) && Safe(cfg, s) && Consistent(base, n0, s) && Enabled(s, op)
    ensures Consistent(base, n0, Apply(cfg, env, s, op).0)
  {
    match op
    case DoPause(id) => SameStoryIsConsistent(base, n0, s, Pause(s, id).0);
    case DoCancel(id) => CancelIsConsistent(base, n0, cfg, env, s, id);
    case DoShutdown => ShutdownIsConsistent(base, n0, s);
    case DoProgress(id, n, total) => ProgressIsConsistent(base, n0, cfg, env, s, id, n, total);
    case DoTaskBegin(t) => TaskBeginIsConsistent(base, n0, cfg, env, s, t);
    case DoTaskEnd(t, r) => TaskEndIsConsistent(base, n0, cfg, env, s, t, r);
    case DoTaskVanish(t) => DropIsConsistent(base, n0, cfg, s, t);
    case DoEnqueue(id, spec) => EnqueueIsConsistent(base, n0, cfg, env, s, id, spec);
    case DoStart(id) => StartIsConsistent(base, n0, cfg, env, s, id);
    case DoResume(id) => ResumeIsConsistent(base, n0, cfg, env, s, id);
    case DoRetry(id) => RetryIsConsistent(base, n0, cfg, env, s, id);
    case DoRemove(id) => RemoveIsConsistent(base, n0, cfg, env, s, id);
  }
}
