/** What failing database calls cost, and what they cannot break. */
module Faults {
  import opened Wrappers
  import opened Lifecycle
  import opened Queues
  import opened Records
  import opened ManagerModel
  import opened Safety
  import opened SafeSteps
  import opened Scheduling
  import opened Consistency
  import opened Recovery
  import opened Runs

  // ---------------------------------------------------------------- rows are always rows that a save wrote

  /** The table is one that saves wrote, and so was every table a crash could have left. */
  ghost predicate OnlySavedRows(s: Sys) {
    Canonical(s.db) && forall i :: 0 <= i < |s.snapshots| ==> Canonical(s.snapshots[i].db)
  }

  lemma RememberKeepsRows(s: Sys)
    requires OnlySavedRows(s)
    ensures OnlySavedRows(Remember(s))
  {}

  lemma SaveKeepsRows(env: Env, s: Sys, d: Download)
    requires OnlySavedRows(s)
    ensures OnlySavedRows(Save(env, s, d).0)
  {
    SavedRowIsCanonical(s.db, d);
    RememberKeepsRows(s.(dbCalls := s.dbCalls + 1, db := if env.disk(s.dbCalls) then s.db[d.id := Encode(d)] else s.db));
  }

  lemma SetInfoKeepsRows(s: Sys, id: Id, info: Download)
    requires OnlySavedRows(s) && id in s.downloads
    ensures OnlySavedRows(SetInfo(s, id, info))
  {
    RememberKeepsRows(s.(downloads := s.downloads[id := s.downloads[id].(info := info)]));
  }

  lemma TransitionKeepsRows(env: Env, s: Sys, id: Id, next: DownloadState, error: Option<string>)
    requires OnlySavedRows(s)
    ensures OnlySavedRows(TransitionState(env, s, id, next, error).0)
  {
    if id in s.downloads && IsValidTransition(s.downloads[id].info.state, next) {
      var info := Stamp(s.downloads[id].info, next, env.clock(s.ticks), error);
      var s1 := s.(ticks := s.ticks + 1);
      SetInfoKeepsRows(s1, id, info);
      SaveKeepsRows(env, SetInfo(s1, id, info), info);
    }
  }

  lemma {:induction false} ScheduleKeepsRows(cfg: Config, env: Env, s: Sys)
    requires OnlySavedRows(s)
    ensures OnlySavedRows(Schedule(cfg, env, s))
    decreases |s.queue|
  {
    var ids := Selected(cfg, s);
    if ids != [] {
      TransitionKeepsRows(env, s.(queue := Without(s.queue, ids[0])), ids[0], Starting, None);
      ScheduleKeepsRows(cfg, env, StartOne(env, s, ids[0]));
    }
  }

  lemma AdmissionKeepsRows(env: Env, s: Sys, id: Id, spec: Spec)
    requires OnlySavedRows(s)
    ensures OnlySavedRows(Record(env, s, id, spec).0) && OnlySavedRows(Admitted(env, s, id, spec))
  {
    var d := NewDownload(id, spec, env.clock(s.ticks));
    SaveKeepsRows(env, s.(ticks := s.ticks + 1, seen := s.seen + {id}), d);
    var s1 := Record(env, s, id, spec).0;
    RememberKeepsRows(s1.(downloads := s1.downloads[id := Managed(d, None, None)]));
  }

  lemma ForgetKeepsRows(env: Env, s: Sys, id: Id)
    requires OnlySavedRows(s)
    ensures OnlySavedRows(Forget(env, s, id).0)
  {
    var s0 := Signal(s, id).(queue := Without(s.queue, id), downloads := s.downloads - {id});
    RememberKeepsRows(s0);
    DeleteKeepsRows(env, Remember(s0), id);
  }

  lemma DeleteKeepsRows(env: Env, s: Sys, id: Id)
    requires OnlySavedRows(s)
    ensures OnlySavedRows(Delete(env, s, id).0)
  {
    RememberKeepsRows(s.(dbCalls := s.dbCalls + 1, db := if env.disk(s.dbCalls) then s.db - {id} else s.db));
  }

  lemma SettleKeepsRows(env: Env, s: Sys, id: Id, r: BackendResult)
    requires OnlySavedRows(s)
    ensures OnlySavedRows(Settle(env, s, id, r))
  {
    var s1 := s.(intents := s.intents - {id});
    match r
    case Finished(_, _, _) => TransitionKeepsRows(env, RecordOutcome(env, s, id, r), id, Completed, None);
    case Stopped =>
      TransitionKeepsRows(env, s1, id, Paused, Some("paused by user"));
      TransitionKeepsRows(env, s1, id, Cancelled, Some("cancelled by user"));
    case Broken(error) => TransitionKeepsRows(env, s1, id, Failed, Some(error));
  }

  lemma ProgressKeepsRows(env: Env, s: Sys, id: Id, downloaded: u64, total: Option<u64>)
    requires OnlySavedRows(s)
    ensures OnlySavedRows(Progress(env, s, id, downloaded, total))
  {
    if id in s.downloads {
      var d := Reported(s.downloads[id].info, env.clock(s.ticks), downloaded, total);
      var s1 := s.(ticks := s.ticks + 1);
      SetInfoKeepsRows(s1, id, d);
      SaveKeepsRows(env, SetInfo(s1, id, d), d);
    }
  }

  lemma ResumeKeepsRows(cfg: Config, env: Env, s: Sys, id: Id)
    requires OnlySavedRows(s)
    ensures OnlySavedRows(Resume(cfg, env, s, id).0)
  {
    TransitionKeepsRows(env, s, id, Queued, None);
    ScheduleKeepsRows(cfg, env, Publish(Requeue(env, s, id).0, OnResumed(id)));
  }

  lemma RetryKeepsRows(cfg: Config, env: Env, s: Sys, id: Id)
    requires OnlySavedRows(s)
    ensures OnlySavedRows(Retry(cfg, env, s, id).0)
  {
    TransitionKeepsRows(env, s, id, Queued, None);
    ScheduleKeepsRows(cfg, env, Requeue(env, s, id).0);
  }

  lemma StartKeepsRows(cfg: Config, env: Env, s: Sys, id: Id)
    requires OnlySavedRows(s)
    ensures OnlySavedRows(Start(cfg, env, s, id).0)
  {
    TransitionKeepsRows(env, s.(queue := Without(s.queue, id)), id, Starting, None);
  }

  lemma CancelKeepsRows(env: Env, s: Sys, id: Id)
    requires OnlySavedRows(s)
    ensures OnlySavedRows(Cancel(env, s, id).0)
  {
    if id in s.downloads && !s.downloads[id].info.state.Active() && !s.downloads[id].info.state.Terminal() {
      TransitionKeepsRows(env, s.(queue := Without(s.queue, id)), id, Cancelled, Some("cancelled by user"));
    }
  }

  /** No step, on any disk, leaves a row that no save wrote, not even between two of its changes. */
  lemma StepKeepsRows(cfg: Config, env: Env, s: Sys, op: Op)
    requires OnlySavedRows(s) && Enabled(s, op)
    ensures OnlySavedRows(Apply(cfg, env, s, op).0)
  {
    match op
    case DoEnqueue(id, spec) =>
      AdmissionKeepsRows(env, s, id, spec);
      ScheduleKeepsRows(cfg, env, Admitted(env, s, id, spec));
    case DoStart(id) => StartKeepsRows(cfg, env, s, id);
    case DoResume(id) => ResumeKeepsRows(cfg, env, s, id);
    case DoCancel(id) => CancelKeepsRows(env, s, id);
    case DoRetry(id) => RetryKeepsRows(cfg, env, s, id);
    case DoRemove(id) =>
      ForgetKeepsRows(env, s, id);
      ScheduleKeepsRows(cfg, env, Forget(env, s, id).0);
    case DoProgress(id, n, total) => ProgressKeepsRows(env, s, id, n, total);
    case DoTaskBegin(t) =>
      TransitionKeepsRows(env, DropTask(s, t), s.tasks[t].id, Failed, Some(NO_BACKEND));
      ScheduleKeepsRows(cfg, env, FailWithoutBackend(env, s, t));
    case DoTaskEnd(t, r) =>
      SettleKeepsRows(env, DropTask(s, t), s.tasks[t].id, r);
      ScheduleKeepsRows(cfg, env, SettleTask(env, s, t, r));
    case _ =>
  }

  lemma RowsOneMore(cfg: Config, env: Env, trace: seq<Sys>, ops: seq<Op>, k: nat)
    requires Steps(cfg, env, trace, ops) && k < |ops| && OnlySavedRows(trace[k])
    ensures OnlySavedRows(trace[k + 1])
  {
    StepKeepsRows(cfg, env, trace[k], ops[k]);
  }

  lemma {:induction false} StepsKeepRows(cfg: Config, env: Env, trace: seq<Sys>, ops: seq<Op>, k: nat)
    requires Steps(cfg, env, trace, ops) && OnlySavedRows(trace[0]) && k < |trace|
    ensures OnlySavedRows(trace[k])
    decreases k
  {
    if k > 0 {
      StepsKeepRows(cfg, env, trace, ops, k - 1);
      RowsOneMore(cfg, env, trace, ops, k - 1);
    }
  }

  /**
   * Whatever the disk does, a process that opened on a table of saved rows leaves such a table, wherever it ends; and
   * so does an opening that fails. What is proved of one life therefore holds for the next one too.
   */
  lemma TablesStayCanonical(cfg: Config, env: Env, db: Table, trace: seq<Sys>, ops: seq<Op>, k: nat)
    requires Life(cfg, env, db, trace, ops) && Canonical(db) && k < |trace|
    ensures Canonical(trace[k].db)
    ensures forall i :: 0 <= i < |trace[k].snapshots| ==> Canonical(trace[k].snapshots[i].db)
  {
    FailedOpeningKeepsCanonical(cfg, env, db);
    StepsKeepRows(cfg, env, trace, ops, k);
  }

  lemma FailedOpeningKeepsCanonical(cfg: Config, env: Env, db: Table)
    requires Canonical(db)
    ensures Canonical(Open(cfg, env, db).0.db)
  {
    OpenRecovers(cfg, env, db);
    OpenKeepsCanonical(cfg.policy, db, Open(cfg, env, db).0.db);
  }

  // ---------------------------------------------------------------- queued downloads wait on the queue

  ghost predicate Waits(s: Sys, id: Id) {
    StateOf(s, id) == Some(Queued) ==> id in s.queue
  }

  /** The step is a resume or retry that moves `id` to Queued and cannot save the move. */
  predicate LosesEntry(env: Env, s: Sys, op: Op, id: Id) {
    && !env.disk(s.dbCalls)
    && ((op == DoResume(id) && StateOf(s, id) == Some(Paused)) || (op == DoRetry(id) && StateOf(s, id) == Some(Failed)))
  }

  lemma ScheduleKeepsWaiting(cfg: Config, env: Env, s: Sys, id: Id)
    requires Safe(cfg, s)
    ensures Waits(s, id) ==> Waits(Schedule(cfg, env, s), id)
    ensures !Waits(s, id) ==> !Waits(Schedule(cfg, env, s), id)
  {
    var ids := Selected(cfg, s);
    ScheduleEffect(cfg, env, s);
    FrontOrBack(s.queue, |ids|, id);
  }

  lemma TransitionKeepsWaiting(env: Env, s: Sys, id: Id, next: DownloadState, error: Option<string>, x: Id)
    requires !next.Queued?
    ensures var r := TransitionState(env, s, id, next, error).0;
            && (Waits(s, x) ==> Waits(r, x))
            && (!Waits(s, x) && x != id ==> !Waits(r, x))
  {}

  lemma StartKeepsWaiting(cfg: Config, env: Env, s: Sys, id: Id, x: Id)
    requires Safe(cfg, s)
    ensures var r := Start(cfg, env, s, id).0;
            && (Waits(s, x) ==> Waits(r, x))
            && (!Waits(s, x) && x != id ==> !Waits(r, x))
  {
    if StateOf(s, id) == Some(Queued) && CountActive(s.downloads) < cfg.limit {
      BeginEffect(env, s.(queue := Without(s.queue, id)), id);
    }
  }

  lemma CancelKeepsWaiting(env: Env, s: Sys, id: Id, x: Id)
    ensures var r := Cancel(env, s, id).0;
            && (Waits(s, x) ==> Waits(r, x))
            && (!Waits(s, x) && x != id ==> !Waits(r, x))
  {}

  lemma RequeueKeepsWaiting(env: Env, s: Sys, id: Id, x: Id)
    requires StateOf(s, id) == Some(Paused) || StateOf(s, id) == Some(Failed)
    ensures var r := Requeue(env, s, id).0;
            && (Waits(s, x) ==> (Waits(r, x) <==> x != id || env.disk(s.dbCalls) || id in s.queue))
            && (!Waits(s, x) ==> !Waits(r, x))
  {}

  lemma ResumeKeepsWaiting(cfg: Config, env: Env, s: Sys, id: Id, x: Id)
    requires Safe(cfg, s)
    ensures var r := Resume(cfg, env, s, id).0;
            && (Waits(s, x) ==> (Waits(r, x) <==> !LosesEntry(env, s, DoResume(id), x)))
            && (!Waits(s, x) ==> !Waits(r, x))
  {
    if StateOf(s, id) == Some(Paused) {
      RequeueOutcome(env, s, id);
      RequeueKeepsWaiting(env, s, id, x);
      RequeueIsSafe(cfg, env, s, id);
      ScheduleKeepsWaiting(cfg, env, Publish(Requeue(env, s, id).0, OnResumed(id)), x);
    }
  }

  lemma RetryKeepsWaiting(cfg: Config, env: Env, s: Sys, id: Id, x: Id)
    requires Safe(cfg, s)
    ensures var r := Retry(cfg, env, s, id).0;
            && (Waits(s, x) ==> (Waits(r, x) <==> !LosesEntry(env, s, DoRetry(id), x)))
            && (!Waits(s, x) ==> !Waits(r, x))
  {
    if StateOf(s, id) == Some(Failed) {
      RequeueOutcome(env, s, id);
      RequeueKeepsWaiting(env, s, id, x);
      RequeueIsSafe(cfg, env, s, id);
      ScheduleKeepsWaiting(cfg, env, Requeue(env, s, id).0, x);
    }
  }

  lemma EnqueueKeepsWaiting(cfg: Config, env: Env, s: Sys, id: Id, spec: Spec, x: Id)
    requires Safe(cfg, s) && id !in s.seen
    ensures var r := Enqueue(cfg, env, s, id, spec).0;
            (Waits(s, x) ==> Waits(r, x)) && (!Waits(s, x) ==> !Waits(r, x))
  {
    AdmissionIsSafe(cfg, env, s, id, spec);
    ScheduleKeepsWaiting(cfg, env, Admitted(env, s, id, spec), x);
  }

  lemma RemovalKeepsWaiting(cfg: Config, env: Env, s: Sys, id: Id, x: Id)
    requires Safe(cfg, s)
    ensures var r := RemoveDownload(cfg, env, s, id).0;
            && (Waits(s, x) ==> Waits(r, x))
            && (!Waits(s, x) && x != id ==> !Waits(r, x))
  {
    ForgetIsSafe(cfg, env, s, id);
    ScheduleKeepsWaiting(cfg, env, Forget(env, s, id).0, x);
  }

  lemma FinishKeepsWaiting(env: Env, s: Sys, id: Id, r: BackendResult, x: Id)
    requires r.Finished? && (id in s.downloads ==> s.downloads[id].info.state.Active())
    ensures Waits(Settle(env, s, id, r), x) <==> Waits(s, x)
  {
    TransitionKeepsWaiting(env, RecordOutcome(env, s, id, r), id, Completed, None, x);
  }

  lemma RestKeepsWaiting(env: Env, s: Sys, id: Id, next: DownloadState, error: Option<string>, x: Id)
    requires !next.Queued? && (id in s.downloads ==> s.downloads[id].info.state.Active())
    ensures Waits(TransitionState(env, s.(intents := s.intents - {id}), id, next, error).0, x) <==> Waits(s, x)
  {
    TransitionKeepsWaiting(env, s.(intents := s.intents - {id}), id, next, error, x);
  }

  lemma SettleKeepsWaiting(env: Env, s: Sys, id: Id, r: BackendResult, x: Id)
    requires id in s.downloads ==> s.downloads[id].info.state.Active()
    ensures Waits(Settle(env, s, id, r), x) <==> Waits(s, x)
  {
    match r
    case Finished(_, _, _) => FinishKeepsWaiting(env, s, id, r, x);
    case Stopped =>
      if id in s.intents {
        RestKeepsWaiting(env, s, id, Paused, Some("paused by user"), x);
      } else {
        RestKeepsWaiting(env, s, id, Cancelled, Some("cancelled by user"), x);
      }
    case Broken(error) => RestKeepsWaiting(env, s, id, Failed, Some(error), x);
  }

  lemma TaskKeepsWaiting(cfg: Config, env: Env, s: Sys, op: Op, x: Id)
    requires Safe(cfg, s) && Enabled(s, op) && (op.DoTaskBegin? || op.DoTaskEnd?)
    ensures var r := Apply(cfg, env, s, op).0; (Waits(s, x) ==> Waits(r, x)) && (!Waits(s, x) ==> !Waits(r, x))
  {
    var t := op.task;
    if op.DoTaskEnd? {
      SettleTaskIsSafe(cfg, env, s, t, op.result);
      SettleKeepsWaiting(env, DropTask(s, t), s.tasks[t].id, op.result, x);
      ScheduleKeepsWaiting(cfg, env, SettleTask(env, s, t, op.result), x);
    } else if s.tasks[t].id in s.downloads && s.downloads[s.tasks[t].id].info.backend !in cfg.backends {
      FailureIsSafe(cfg, env, s, t);
      TransitionKeepsWaiting(env, DropTask(s, t), s.tasks[t].id, Failed, Some(NO_BACKEND), x);
      ScheduleKeepsWaiting(cfg, env, FailWithoutBackend(env, s, t), x);
    }
  }

  lemma QuietKeepsWaiting(env: Env, s: Sys, op: Op, x: Id)
    requires op.DoPause? || op.DoShutdown? || op.DoProgress? || op.DoTaskVanish?
    ensures op.DoPause? ==> (Waits(Pause(s, op.id).0, x) <==> Waits(s, x))
    ensures Waits(Shutdown(s), x) <==> Waits(s, x)
    ensures op.DoProgress? ==> (Waits(Progress(env, s, op.id, op.downloaded, op.total), x) <==> Waits(s, x))
    ensures op.DoTaskVanish? ==> (Waits(DropTask(s, op.task), x) <==> Waits(s, x))
  {}

  lemma StepAndWaiting(cfg: Config, env: Env, s: Sys, op: Op, id: Id)
    requires Safe(cfg, s) && Enabled(s, op)
    ensures var r := Apply(cfg, env, s, op).0;
            && (Waits(s, id) ==> (Waits(r, id) <==> !LosesEntry(env, s, op, id)))
            && (!Waits(s, id) && op != DoStart(id) && op != DoCancel(id) && op != DoRemove(id) ==> !Waits(r, id))
  {
    match op
    case DoEnqueue(x, spec) => EnqueueKeepsWaiting(cfg, env, s, x, spec, id);
    case DoStart(x) => StartKeepsWaiting(cfg, env, s, x, id);
    case DoResume(x) => ResumeKeepsWaiting(cfg, env, s, x, id);
    case DoRetry(x) => RetryKeepsWaiting(cfg, env, s, x, id);
    case DoCancel(x) => CancelKeepsWaiting(env, s, x, id);
    case DoRemove(x) => RemovalKeepsWaiting(cfg, env, s, x, id);
    case DoTaskBegin(t) => TaskKeepsWaiting(cfg, env, s, op, id);
    case DoTaskEnd(t, r) => TaskKeepsWaiting(cfg, env, s, op, id);
    case _ => QuietKeepsWaiting(env, s, op, id);
  }

  /**
   * Every step, on any disk: a download that waits on the queue whenever it is Queued goes on doing so, unless, and
   * only unless, the step is a resume or retry of it whose save fails.
   */
  lemma StepKeepsWaiting(cfg: Config, env: Env, s: Sys, op: Op, id: Id)
    requires Safe(cfg, s) && Enabled(s, op) && Waits(s, id)
    ensures Waits(Apply(cfg, env, s, op).0, id) <==> !LosesEntry(env, s, op, id)
  {
    StepAndWaiting(cfg, env, s, op, id);
  }

  /** A Queued download that is on no queue stays so until a start, cancel or remove names it. */
  lemma LostStaysLost(cfg: Config, env: Env, s: Sys, op: Op, id: Id)
    requires Safe(cfg, s) && Enabled(s, op) && !Waits(s, id)
    requires op != DoStart(id) && op != DoCancel(id) && op != DoRemove(id)
    ensures !Waits(Apply(cfg, env, s, op).0, id)
  {
    StepAndWaiting(cfg, env, s, op, id);
  }

  /** Some step among the first `k` lost the queue entry of `id`. */
  ghost predicate EntryWasLost(env: Env, trace: seq<Sys>, ops: seq<Op>, k: nat, id: Id)
    requires k <= |ops| < |trace|
  {
    exists j :: 0 <= j < k && LosesEntry(env, trace[j], ops[j], id)
  }

  lemma NotLostBefore(env: Env, trace: seq<Sys>, ops: seq<Op>, k: nat, id: Id)
    requires 0 < k <= |ops| < |trace| && !EntryWasLost(env, trace, ops, k, id)
    ensures !EntryWasLost(env, trace, ops, k - 1, id) && !LosesEntry(env, trace[k - 1], ops[k - 1], id)
  {}

  lemma {:induction false} LostOnlyByFailedMoves(cfg: Config, env: Env, trace: seq<Sys>, ops: seq<Op>, k: nat, id: Id)
    requires Steps(cfg, env, trace, ops) && Safe(cfg, trace[0]) && Waits(trace[0], id) && k < |trace|
    ensures !EntryWasLost(env, trace, ops, k, id) ==> Waits(trace[k], id)
    decreases k
  {
    if k > 0 && !EntryWasLost(env, trace, ops, k, id) {
      NotLostBefore(env, trace, ops, k, id);
      LostOnlyByFailedMoves(cfg, env, trace, ops, k - 1, id);
      StepsAreSafe(cfg, env, trace, ops, k - 1);
      StepKeepsWaiting(cfg, env, trace[k - 1], ops[k - 1], id);
    }
  }

  /**
   * In every run, on any disk, a Queued download is on the queue, unless an earlier resume or retry of that very
   * download failed to save its move.
   */
  lemma QueuedWaitsUnlessAMoveFailed(cfg: Config, env: Env, db: Table, trace: seq<Sys>, ops: seq<Op>, k: nat, id: Id)
    requires Life(cfg, env, db, trace, ops) && k < |trace|
    requires StateOf(trace[k], id) == Some(Queued) && id !in trace[k].queue
    ensures EntryWasLost(env, trace, ops, k, id)
  {
    LifeIsSafe(cfg, env, db, trace, ops, 0);
    OpenRecovers(cfg, env, db);
    OpenQueuesAll(cfg.policy, db, trace[0]);
    LostOnlyByFailedMoves(cfg, env, trace, ops, k, id);
  }
}
