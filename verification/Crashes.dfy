/** What a crash in the middle of an operation leaves of the one record being worked on. */
module Crashes {
  import opened Wrappers
  import opened Lifecycle
  import opened Queues
  import opened Records
  import opened ManagerModel
  import opened Safety
  import opened SafeSteps
  import opened Scheduling
  import opened Consistency
  import opened Recovery
  import opened Runs

  /** Memory held `row` for `x` at moment `j`. */
  ghost predicate HeldAt(moments: seq<Snapshot>, j: nat, x: Id, row: Row) {
    && j < |moments| && x in moments[j].downloads && moments[j].downloads[x].info.id == x
    && row == Encode(moments[j].downloads[x].info)
  }

  /** `row` was the row of `x` in `s`, or memory held it at a moment since then and up to `i`. */
  ghost predicate Seen(s: Sys, moments: seq<Snapshot>, i: int, x: Id, row: Row) {
    (x in s.db && s.db[x] == row) || exists j :: |s.snapshots| <= j <= i && HeldAt(moments, j, x, row)
  }

  /** Moment `i` has no row for `x` but one that was seen, or one of a download that memory takes in at the next moment. */
  ghost predicate Explained(s: Sys, moments: seq<Snapshot>, i: nat, x: Id)
    requires i < |moments|
  {
    x in moments[i].db ==>
      || Seen(s, moments, i, x, moments[i].db[x])
      || (x !in moments[i].downloads && HeldAt(moments, i + 1, x, moments[i].db[x]))
  }

  /** Between `s` and `r` the table only ever held rows that memory held. */
  ghost predicate Traced(s: Sys, r: Sys) {
    && s.snapshots <= r.snapshots
    && (forall i, x :: |s.snapshots| <= i < |r.snapshots| ==> Explained(s, r.snapshots, i, x))
    && (forall x :: x in r.db ==> Seen(s, r.snapshots, |r.snapshots| - 1, x, r.db[x]))
  }

  lemma SeenLater(s: Sys, ms: seq<Snapshot>, ns: seq<Snapshot>, i: int, k: int, x: Id, row: Row)
    requires Seen(s, ms, i, x, row) && ms <= ns && i <= k
    ensures Seen(s, ns, k, x, row)
  {
    if !(x in s.db && s.db[x] == row) {
      var j :| |s.snapshots| <= j <= i && HeldAt(ms, j, x, row);
      assert HeldAt(ns, j, x, row);
    }
  }

  lemma SeenThrough(s: Sys, m: Sys, ns: seq<Snapshot>, i: int, x: Id, row: Row)
    requires Traced(s, m) && m.snapshots <= ns && Seen(m, ns, i, x, row) && |m.snapshots| - 1 <= i
    ensures Seen(s, ns, i, x, row)
  {
    if x in m.db && m.db[x] == row {
      SeenLater(s, m.snapshots, ns, |m.snapshots| - 1, i, x, row);
    } else {
      var j :| |m.snapshots| <= j <= i && HeldAt(ns, j, x, row);
      assert |s.snapshots| <= j;
    }
  }

  lemma ExplainedThrough(s: Sys, m: Sys, r: Sys, i: nat, x: Id)
    requires Traced(s, m) && Traced(m, r) && |s.snapshots| <= i < |r.snapshots|
    ensures Explained(s, r.snapshots, i, x)
  {
    if i < |m.snapshots| {
      assert Explained(s, m.snapshots, i, x) && m.snapshots[i] == r.snapshots[i];
      if x in m.snapshots[i].db {
        if Seen(s, m.snapshots, i, x, m.snapshots[i].db[x]) {
          SeenLater(s, m.snapshots, r.snapshots, i, i, x, m.snapshots[i].db[x]);
        } else {
          assert HeldAt(r.snapshots, i + 1, x, r.snapshots[i].db[x]);
        }
      }
    } else {
      assert Explained(m, r.snapshots, i, x);
      if x in r.snapshots[i].db && Seen(m, r.snapshots, i, x, r.snapshots[i].db[x]) {
        SeenThrough(s, m, r.snapshots, i, x, r.snapshots[i].db[x]);
      }
    }
  }

  lemma TracedThrough(s: Sys, m: Sys, r: Sys)
    requires Traced(s, m) && Traced(m, r)
    ensures Traced(s, r)
  {
    forall i, x | |s.snapshots| <= i < |r.snapshots|
      ensures Explained(s, r.snapshots, i, x)
    {
      ExplainedThrough(s, m, r, i, x);
    }
    forall x | x in r.db
      ensures Seen(s, r.snapshots, |r.snapshots| - 1, x, r.db[x])
    {
      SeenThrough(s, m, r.snapshots, |r.snapshots| - 1, x, r.db[x]);
    }
  }

  lemma SameRowsTraced(s: Sys, r: Sys)
    requires r.snapshots == s.snapshots && r.db == s.db
    ensures Traced(s, r)
  {}

  // ---------------------------------------------------------------- the pieces of a step

  /** Two moments: `first` leaves the rows alone, and `second` differs in the row of `id` only. */
  lemma TwoMomentsTraced(s: Sys, r: Sys, id: Id, first: Snapshot, second: Snapshot)
    requires r.snapshots == s.snapshots + [first, second] && r.db == second.db
    requires forall x :: x in first.db ==> x in s.db && first.db[x] == s.db[x]
    requires forall x :: x in second.db && x != id ==> x in s.db && second.db[x] == s.db[x]
    requires id in second.db ==>
               || (id in s.db && second.db[id] == s.db[id])
               || (id in second.downloads && second.downloads[id].info.id == id
                   && second.db[id] == Encode(second.downloads[id].info))
    ensures Traced(s, r)
  {
    var n := |s.snapshots|;
    assert r.snapshots[n] == first && r.snapshots[n + 1] == second;
    forall x | x in second.db
      ensures Seen(s, r.snapshots, n + 1, x, second.db[x])
    {
      assert x == id && id in second.downloads && second.downloads[id].info.id == id
             && second.db[id] == Encode(second.downloads[id].info) ==>
               HeldAt(r.snapshots, n + 1, x, second.db[x]);
    }
    forall i, x | n <= i < |r.snapshots|
      ensures Explained(s, r.snapshots, i, x)
    {
      assert i == n || i == n + 1;
    }
  }

  lemma ChangeTraced(env: Env, s: Sys, id: Id, info: Download)
    requires id in s.downloads && info.id == id
    ensures Traced(s, Save(env, SetInfo(s, id, info), info).0)
  {
    var r := Save(env, SetInfo(s, id, info), info).0;
    var known := s.downloads[id := s.downloads[id].(info := info)];
    assert r.snapshots == s.snapshots + [Snapshot(known, s.db), Snapshot(known, r.db)];
    TwoMomentsTraced(s, r, id, Snapshot(known, s.db), Snapshot(known, r.db));
  }

  lemma TransitionTraced(env: Env, s: Sys, id: Id, next: DownloadState, error: Option<string>)
    requires id in s.downloads ==> s.downloads[id].info.id == id
    ensures Traced(s, TransitionState(env, s, id, next, error).0)
  {
    var s1 := s.(ticks := s.ticks + 1);
    var r := TransitionState(env, s, id, next, error).0;
    if id in s.downloads && IsValidTransition(s.downloads[id].info.state, next) {
      var info := Stamp(s.downloads[id].info, next, env.clock(s.ticks), error);
      ChangeTraced(env, s1, id, info);
      AlsoTraced(s1, Save(env, SetInfo(s1, id, info), info).0, s, r);
    } else {
      SameRowsTraced(s, r);
    }
  }

  lemma AlsoTraced(s: Sys, r: Sys, s': Sys, r': Sys)
    requires Traced(s, r) && s'.snapshots == s.snapshots && s'.db == s.db && r'.snapshots == r.snapshots && r'.db == r.db
    ensures Traced(s', r')
  {
    forall x | x in r'.db
      ensures Seen(s', r'.snapshots, |r'.snapshots| - 1, x, r'.db[x])
    {
      SameSeen(s, s', r.snapshots, |r.snapshots| - 1, x, r.db[x]);
    }
    forall i, x | |s'.snapshots| <= i < |r'.snapshots|
      ensures Explained(s', r'.snapshots, i, x)
    {
      assert Explained(s, r.snapshots, i, x);
      if x in r.snapshots[i].db {
        SameSeen(s, s', r.snapshots, i, x, r.snapshots[i].db[x]);
      }
    }
  }

  lemma SameSeen(s: Sys, s': Sys, moments: seq<Snapshot>, i: int, x: Id, row: Row)
    requires s'.snapshots == s.snapshots && s'.db == s.db
    ensures Seen(s, moments, i, x, row) <==> Seen(s', moments, i, x, row)
  {}

  lemma OutcomeTraced(env: Env, s: Sys, id: Id, r: BackendResult)
    requires r.Finished?
    ensures Traced(s, RecordOutcome(env, s, id, r))
  {
    var m := RecordOutcome(env, s, id, r);
    if id in s.downloads {
      assert m.snapshots == s.snapshots + [Snapshot(m.downloads, s.db)] && m.db == s.db;
      forall i, x | |s.snapshots| <= i < |m.snapshots|
        ensures Explained(s, m.snapshots, i, x)
      {
        assert m.snapshots[i] == Snapshot(m.downloads, s.db);
      }
    }
  }

  lemma ForgetTraced(env: Env, s: Sys, id: Id)
    ensures Traced(s, Forget(env, s, id).0)
  {
    var r := Forget(env, s, id).0;
    var known := s.downloads - {id};
    assert r.snapshots == s.snapshots + [Snapshot(known, s.db), Snapshot(known, r.db)];
    TwoMomentsTraced(s, r, id, Snapshot(known, s.db), Snapshot(known, r.db));
  }

  /** A new download's row is saved one moment before memory takes it in. */
  lemma AdmissionTraced(env: Env, s: Sys, id: Id, spec: Spec)
    requires id !in s.downloads && Record(env, s, id, spec).1
    ensures Traced(s, Admitted(env, s, id, spec))
  {
    var r, n := Admitted(env, s, id, spec), |s.snapshots|;
    var row := Encode(NewDownload(id, spec, env.clock(s.ticks)));
    assert r.snapshots == s.snapshots + [Snapshot(s.downloads, r.db), Snapshot(r.downloads, r.db)];
    assert r.db == s.db[id := row];
    assert HeldAt(r.snapshots, n + 1, id, row);
    forall i, x | n <= i < |r.snapshots|
      ensures Explained(s, r.snapshots, i, x)
    {
      assert i == n || i == n + 1;
    }
  }

  lemma RefusalTraced(env: Env, s: Sys, id: Id, spec: Spec)
    requires !Record(env, s, id, spec).1
    ensures Traced(s, Record(env, s, id, spec).0)
  {
    var r := Record(env, s, id, spec).0;
    assert r.snapshots == s.snapshots + [Snapshot(s.downloads, s.db)] && r.db == s.db;
    forall i, x | |s.snapshots| <= i < |r.snapshots|
      ensures Explained(s, r.snapshots, i, x)
    {
      assert r.snapshots[i] == Snapshot(s.downloads, s.db);
    }
  }

  lemma StartOneTraced(env: Env, s: Sys, id: Id)
    requires id in s.downloads ==> s.downloads[id].info.id == id
    ensures Traced(s, StartOne(env, s, id))
  {
    var s0 := s.(queue := Without(s.queue, id));
    TransitionTraced(env, s0, id, Starting, None);
    AlsoTraced(s0, TransitionState(env, s0, id, Starting, None).0, s, StartOne(env, s, id));
  }

  lemma {:induction false} ScheduleTraced(cfg: Config, env: Env, s: Sys)
    requires Safe(cfg, s)
    ensures Traced(s, Schedule(cfg, env, s))
    decreases |s.queue|
  {
    var ids := Selected(cfg, s);
    if ids != [] {
      assert ids[0] == s.queue[0] && ids[0] in s.queue;
      StartOneIsSafe(cfg, env, s, ids[0]);
      StartOneTraced(env, s, ids[0]);
      ScheduleTraced(cfg, env, StartOne(env, s, ids[0]));
      TracedThrough(s, StartOne(env, s, ids[0]), Schedule(cfg, env, s));
    } else {
      SameRowsTraced(s, s);
    }
  }

  lemma ThenSchedule(cfg: Config, env: Env, s: Sys, m: Sys)
    requires Safe(cfg, m) && Traced(s, m)
    ensures Traced(s, Schedule(cfg, env, m))
  {
    ScheduleTraced(cfg, env, m);
    TracedThrough(s, m, Schedule(cfg, env, m));
  }

  // ---------------------------------------------------------------- the steps

  lemma EnqueueTraced(cfg: Config, env: Env, s: Sys, id: Id, spec: Spec)
    requires Safe(cfg, s) && id !in s.seen
    ensures Traced(s, Enqueue(cfg, env, s, id, spec).0)
  {
    if spec.backend !in cfg.backends {
      SameRowsTraced(s, s);
    } else if Record(env, s, id, spec).1 {
      AdmissionIsSafe(cfg, env, s, id, spec);
      AdmissionTraced(env, s, id, spec);
      ThenSchedule(cfg, env, s, Admitted(env, s, id, spec));
    } else {
      RefusalTraced(env, s, id, spec);
    }
  }

  lemma StartTraced(cfg: Config, env: Env, s: Sys, id: Id)
    requires Safe(cfg, s)
    ensures Traced(s, Start(cfg, env, s, id).0)
  {
    StartOneTraced(env, s, id);
    SameRowsTraced(s, s);
  }

  lemma RequeueTraced(cfg: Config, env: Env, s: Sys, id: Id)
    requires Safe(cfg, s)
    ensures Traced(s, Requeue(env, s, id).0) && Traced(s, Publish(Requeue(env, s, id).0, OnResumed(id)))
  {
    TransitionTraced(env, s, id, Queued, None);
    AlsoTraced(s, TransitionState(env, s, id, Queued, None).0, s, Requeue(env, s, id).0);
    AlsoTraced(s, Requeue(env, s, id).0, s, Publish(Requeue(env, s, id).0, OnResumed(id)));
  }

  lemma ResumeTraced(cfg: Config, env: Env, s: Sys, id: Id)
    requires Safe(cfg, s)
    ensures Traced(s, Resume(cfg, env, s, id).0)
  {
    if StateOf(s, id) == Some(Paused) {
      RequeueTraced(cfg, env, s, id);
      RequeueIsSafe(cfg, env, s, id);
      ThenSchedule(cfg, env, s, Publish(Requeue(env, s, id).0, OnResumed(id)));
    } else {
      SameRowsTraced(s, s);
    }
  }

  lemma RetryTraced(cfg: Config, env: Env, s: Sys, id: Id)
    requires Safe(cfg, s)
    ensures Traced(s, Retry(cfg, env, s, id).0)
  {
    if StateOf(s, id) == Some(Failed) {
      RequeueTraced(cfg, env, s, id);
      RequeueIsSafe(cfg, env, s, id);
      ThenSchedule(cfg, env, s, Requeue(env, s, id).0);
    } else {
      SameRowsTraced(s, s);
    }
  }

  lemma CancelTraced(cfg: Config, env: Env, s: Sys, id: Id)
    requires Safe(cfg, s)
    ensures Traced(s, Cancel(env, s, id).0)
  {
    if id in s.downloads && !s.downloads[id].info.state.Active() && !s.downloads[id].info.state.Terminal() {
      var s0 := s.(queue := Without(s.queue, id));
      TransitionTraced(env, s0, id, Cancelled, Some("cancelled by user"));
      AlsoTraced(s0, TransitionState(env, s0, id, Cancelled, Some("cancelled by user")).0, s, Cancel(env, s, id).0);
    } else {
      SameRowsTraced(s, Cancel(env, s, id).0);
    }
  }

  lemma RemovalTraced(cfg: Config, env: Env, s: Sys, id: Id)
    requires Safe(cfg, s)
    ensures Traced(s, RemoveDownload(cfg, env, s, id).0)
  {
    ForgetTraced(env, s, id);
    ForgetIsSafe(cfg, env, s, id);
    ThenSchedule(cfg, env, s, Forget(env, s, id).0);
  }

  lemma ProgressTraced(cfg: Config, env: Env, s: Sys, id: Id, downloaded: u64, total: Option<u64>)
    requires Safe(cfg, s)
    ensures Traced(s, Progress(env, s, id, downloaded, total))
  {
    var s1 := s.(ticks := s.ticks + 1);
    var r := Progress(env, s, id, downloaded, total);
    if id in s.downloads {
      var d := Reported(s.downloads[id].info, env.clock(s.ticks), downloaded, total);
      ChangeTraced(env, s1, id, d);
      AlsoTraced(s1, Save(env, SetInfo(s1, id, d), d).0, s, r);
    } else {
      SameRowsTraced(s, r);
    }
  }

  lemma FinalMoveTraced(env: Env, s: Sys, s1: Sys, id: Id, next: DownloadState, error: Option<string>, e: Event)
    requires s1.snapshots == s.snapshots && s1.db == s.db && (id in s1.downloads ==> s1.downloads[id].info.id == id)
    ensures Traced(s, Publish(TransitionState(env, s1, id, next, error).0, e))
  {
    TransitionTraced(env, s1, id, next, error);
    var m := TransitionState(env, s1, id, next, error).0;
    AlsoTraced(s1, m, s, Publish(m, e));
  }

  lemma SettleTraced(env: Env, s: Sys, id: Id, r: BackendResult)
    requires id in s.downloads ==> s.downloads[id].info.id == id
    ensures Traced(s, Settle(env, s, id, r))
  {
    var s1 := s.(intents := s.intents - {id});
    match r
    case Finished(_, _, _) =>
      var m := RecordOutcome(env, s, id, r);
      OutcomeTraced(env, s, id, r);
      FinalMoveTraced(env, m, m, id, Completed, None, OnCompleted(id));
      TracedThrough(s, m, Settle(env, s, id, r));
    case Stopped =>
      if id in s.intents {
        FinalMoveTraced(env, s, s1, id, Paused, Some("paused by user"), OnPaused(id));
      } else {
        FinalMoveTraced(env, s, s1, id, Cancelled, Some("cancelled by user"), OnCancelled(id));
      }
    case Broken(error) => FinalMoveTraced(env, s, s1, id, Failed, Some(error), OnFailed(id, error));
  }

  lemma TaskEndTraced(cfg: Config, env: Env, s: Sys, t: TaskId, r: BackendResult)
    requires Safe(cfg, s) && t in s.tasks
    ensures Traced(s, TaskEnd(cfg, env, s, t, r))
  {
    var s0 := DropTask(s, t);
    SettleTraced(env, s0, s.tasks[t].id, r);
    AlsoTraced(s0, SettleTask(env, s, t, r), s, SettleTask(env, s, t, r));
    SettleTaskIsSafe(cfg, env, s, t, r);
    ThenSchedule(cfg, env, s, SettleTask(env, s, t, r));
  }

  lemma TaskBeginTraced(cfg: Config, env: Env, s: Sys, t: TaskId)
    requires Safe(cfg, s) && t in s.tasks && s.tasks[t].Spawned?
    ensures Traced(s, TaskBegin(cfg, env, s, t))
  {
    var id, s0 := s.tasks[t].id, DropTask(s, t);
    if id in s.downloads && s.downloads[id].info.backend !in cfg.backends {
      TransitionTraced(env, s0, id, Failed, Some(NO_BACKEND));
      AlsoTraced(s0, FailWithoutBackend(env, s, t), s, FailWithoutBackend(env, s, t));
      FailureIsSafe(cfg, env, s, t);
      ThenSchedule(cfg, env, s, FailWithoutBackend(env, s, t));
    } else {
      SameRowsTraced(s, TaskBegin(cfg, env, s, t));
    }
  }

  /** On any disk, at every moment of every step, the table holds only rows that memory held, before or during the step. */
  lemma StepIsTraced(cfg: Config, env: Env, s: Sys, op: Op)
    requires Safe(cfg, s) && Enabled(s, op)
    ensures Traced(s, Apply(cfg, env, s, op).0)
  {
    match op
    case DoEnqueue(id, spec) => EnqueueTraced(cfg, env, s, id, spec);
    case DoStart(id) => StartTraced(cfg, env, s, id);
    case DoPause(id) => SameRowsTraced(s, Pause(s, id).0);
    case DoResume(id) => ResumeTraced(cfg, env, s, id);
    case DoCancel(id) => CancelTraced(cfg, env, s, id);
    case DoRetry(id) => RetryTraced(cfg, env, s, id);
    case DoRemove(id) => RemovalTraced(cfg, env, s, id);
    case DoShutdown => SameRowsTraced(s, Shutdown(s));
    case DoProgress(id, n, total) => ProgressTraced(cfg, env, s, id, n, total);
    case DoTaskBegin(t) => TaskBeginTraced(cfg, env, s, t);
    case DoTaskEnd(t, r) => TaskEndTraced(cfg, env, s, t, r);
    case DoTaskVanish(t) => SameRowsTraced(s, DropTask(s, t));
  }

  /**
   * In every run, on any disk, at every moment, each row is one the run began with, or the encoding of a record that
   * memory held since.
   */
  lemma {:induction false} RunIsTraced(cfg: Config, env: Env, trace: seq<Sys>, ops: seq<Op>, k: nat)
    requires Steps(cfg, env, trace, ops) && Safe(cfg, trace[0]) && k < |trace|
    ensures Traced(trace[0], trace[k])
    decreases k
  {
    if k == 0 {
      SameRowsTraced(trace[0], trace[0]);
    } else {
      RunIsTraced(cfg, env, trace, ops, k - 1);
      StepsAreSafe(cfg, env, trace, ops, k - 1);
      StepIsTraced(cfg, env, trace[k - 1], ops[k - 1]);
      TracedThrough(trace[0], trace[k - 1], trace[k]);
    }
  }

  // ---------------------------------------------------------------- crashes

  /** `e` is what opening makes of the record that memory held for `x` in `known`. */
  ghost predicate RecoveredFrom(policy: RecoveryPolicy, known: Known, x: Id, e: Download) {
    x in known && RecoveredAs(policy, Normalise(known[x].info), e)
  }

  /**
   * `e` is what opening makes of the whole record of `x` as memory held it when the step began, at moment `i` or an
   * earlier one of the same step, or, for a download just saved for the first time, at the next.
   */
  ghost predicate RecoveredFromStep(policy: RecoveryPolicy, s: Sys, r: Sys, i: nat, x: Id, e: Download) {
    || RecoveredFrom(policy, s.downloads, x, e)
    || exists j :: |s.snapshots| <= j <= i + 1 && j < |r.snapshots|
                   && (j <= i || (i < |r.snapshots| && x !in r.snapshots[i].downloads))
                   && RecoveredFrom(policy, r.snapshots[j].downloads, x, e)
  }

  lemma HeldIsRecovered(policy: RecoveryPolicy, known: Known, x: Id, row: Row, e: Download)
    requires x in known && known[x].info.id == x && row == Encode(known[x].info) && RecoveredAs(policy, Decode(x, row), e)
    ensures RecoveredFrom(policy, known, x, e)
  {}

  lemma ExplainedIsRecovered(policy: RecoveryPolicy, s: Sys, r: Sys, i: nat, x: Id, e: Download)
    requires |s.snapshots| <= i < |r.snapshots| && Explained(s, r.snapshots, i, x) && x in r.snapshots[i].db
    requires Agrees(s.downloads, s.db, x)
    requires RecoveredAs(policy, Decode(x, r.snapshots[i].db[x]), e)
    ensures RecoveredFromStep(policy, s, r, i, x, e)
  {
    var row := r.snapshots[i].db[x];
    if x in s.db && s.db[x] == row {
      HeldIsRecovered(policy, s.downloads, x, row, e);
    } else if Seen(s, r.snapshots, i, x, row) {
      var j: nat :| |s.snapshots| <= j <= i && HeldAt(r.snapshots, j, x, row);
      HeldIsRecovered(policy, r.snapshots[j].downloads, x, row, e);
    } else {
      assert HeldAt(r.snapshots, i + 1, x, row);
      HeldIsRecovered(policy, r.snapshots[i + 1].downloads, x, row, e);
    }
  }

  /**
   * A crash in the middle of any operation loses no more than that operation's own progress: every record the next
   * process has is, whole, what memory held for it before the operation or at an earlier moment of it, settled by
   * policy; only a download just saved for the first time is a moment ahead of the lost memory.
   */
  lemma CrashLosesAtMostTheStep(cfg: Config, env: Env, db: Table, trace: seq<Sys>, ops: seq<Op>, k: nat, i: nat,
                                cfg2: Config, env2: Env)
    requires Life(cfg, env, db, trace, ops) && Canonical(db) && Reliable(env) && k < |ops|
    requires |trace[k].snapshots| <= i < |trace[k + 1].snapshots| && Reliable(env2)
    ensures var s := Open(cfg2, env2, trace[k + 1].snapshots[i].db).0;
            && s.downloads.Keys == trace[k + 1].snapshots[i].db.Keys
            && (forall x :: x in s.downloads ==>
                  RecoveredFromStep(cfg2.policy, trace[k], trace[k + 1], i, x, s.downloads[x].info))
  {
    LifeIsSafe(cfg, env, db, trace, ops, k);
    LifeIsConsistent(cfg, env, db, trace, ops, k);
    ConsistentMirrors(States(trace[0].downloads), |trace[0].log|, trace[k]);
    assert Enabled(trace[k], ops[k]) && trace[k + 1] == Apply(cfg, env, trace[k], ops[k]).0;
    StepIsTraced(cfg, env, trace[k], ops[k]);
    CrashInStep(cfg2, env2, trace[k], trace[k + 1], i);
  }

  lemma CrashInStep(cfg: Config, env: Env, s: Sys, r: Sys, i: nat)
    requires Traced(s, r) && |s.snapshots| <= i < |r.snapshots| && Reliable(env)
    requires forall x :: Agrees(s.downloads, s.db, x)
    ensures var after := Open(cfg, env, r.snapshots[i].db).0;
            && after.downloads.Keys == r.snapshots[i].db.Keys
            && (forall x :: x in after.downloads ==>
                  RecoveredFromStep(cfg.policy, s, r, i, x, after.downloads[x].info))
  {
    var db := r.snapshots[i].db;
    OpenRecovers(cfg, env, db);
    var after := Open(cfg, env, db).0;
    forall x | x in after.downloads
      ensures RecoveredFromStep(cfg.policy, s, r, i, x, after.downloads[x].info)
    {
      assert Explained(s, r.snapshots, i, x) && Entered(cfg.policy, Decode(x, db[x]), after);
      ExplainedIsRecovered(cfg.policy, s, r, i, x, after.downloads[x].info);
    }
  }
}
