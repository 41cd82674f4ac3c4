/** The moments at which a crash is considered are all there are: between two of them one record or one row changes. */
module CrashPoints {
  import opened Wrappers
  import opened Lifecycle
  import opened Queues
  import opened Records
  import opened ManagerModel
  import opened Safety
  import opened Scheduling
  import opened Fairness
  import opened Agendas

  /** What a crash now would leave and lose. */
  function Moment(s: Sys): Snapshot {
    Snapshot(s.downloads, s.db)
  }

  ghost predicate SameRecordAt(a: Snapshot, b: Snapshot, x: Id) {
    (x in b.downloads <==> x in a.downloads) && (x in a.downloads ==> b.downloads[x].info == a.downloads[x].info)
  }

  ghost predicate SameRowAt(a: Snapshot, b: Snapshot, x: Id) {
    (x in b.db <==> x in a.db) && (x in a.db ==> b.db[x] == a.db[x])
  }

  /** Memory and table are the same. */
  ghost predicate SameMoment(a: Snapshot, b: Snapshot) {
    forall x :: SameRecordAt(a, b, x) && SameRowAt(a, b, x)
  }

  /** From `a` to `b` at most the record of `x` changed, or at most its row. */
  ghost predicate OneChange(a: Snapshot, b: Snapshot, x: Id) {
    && (forall y :: y != x ==> SameRecordAt(a, b, y) && SameRowAt(a, b, y))
    && (SameRecordAt(a, b, x) || SameRowAt(a, b, x))
  }

  /** From `a` by way of the moments `ms` to `b` there is at most one change at a time. */
  ghost predicate Gradual(a: Snapshot, ms: seq<Snapshot>, b: Snapshot)
    decreases |ms|
  {
    if ms == [] then SameMoment(a, b)
    else (exists x :: OneChange(a, ms[0], x)) && Gradual(ms[0], ms[1..], b)
  }

  lemma SameThenChange(a: Snapshot, b: Snapshot, c: Snapshot, x: Id)
    requires SameMoment(a, b) && OneChange(b, c, x)
    ensures OneChange(a, c, x)
  {
    assert SameRecordAt(a, b, x) && SameRowAt(a, b, x);
    forall y | y != x
      ensures SameRecordAt(a, c, y) && SameRowAt(a, c, y)
    {
      assert SameRecordAt(a, b, y) && SameRowAt(a, b, y) && SameRecordAt(b, c, y) && SameRowAt(b, c, y);
    }
  }

  lemma SameThenSame(a: Snapshot, b: Snapshot, c: Snapshot)
    requires SameMoment(a, b) && SameMoment(b, c)
    ensures SameMoment(a, c)
  {
    forall x
      ensures SameRecordAt(a, c, x) && SameRowAt(a, c, x)
    {
      assert SameRecordAt(a, b, x) && SameRowAt(a, b, x) && SameRecordAt(b, c, x) && SameRowAt(b, c, x);
    }
  }

  lemma {:induction false} GradualThen(a: Snapshot, ms: seq<Snapshot>, b: Snapshot, ns: seq<Snapshot>, c: Snapshot)
    requires Gradual(a, ms, b) && Gradual(b, ns, c)
    ensures Gradual(a, ms + ns, c)
    decreases |ms|
  {
    if ms == [] {
      assert ms + ns == ns;
      if ns == [] {
        SameThenSame(a, b, c);
      } else {
        var x :| OneChange(b, ns[0], x);
        SameThenChange(a, b, ns[0], x);
      }
    } else {
      assert (ms + ns)[0] == ms[0] && (ms + ns)[1..] == ms[1..] + ns;
      GradualThen(ms[0], ms[1..], b, ns, c);
    }
  }

  lemma OneMoment(a: Snapshot, m: Snapshot, b: Snapshot, x: Id)
    requires OneChange(a, m, x) && SameMoment(m, b)
    ensures Gradual(a, [m], b)
  {
    assert [m][1..] == [];
  }

  lemma TwoMoments(a: Snapshot, m: Snapshot, n: Snapshot, b: Snapshot, x: Id)
    requires OneChange(a, m, x) && OneChange(m, n, x) && SameMoment(n, b)
    ensures Gradual(a, [m, n], b)
  {
    OneMoment(m, n, b, x);
    assert [m, n][1..] == [n];
  }

  /** The moments recorded between `s` and `r` are gradual. */
  ghost predicate Recorded(s: Sys, r: Sys) {
    s.snapshots <= r.snapshots && Gradual(Moment(s), r.snapshots[|s.snapshots|..], Moment(r))
  }

  lemma RecordedThrough(s: Sys, m: Sys, r: Sys)
    requires Recorded(s, m) && Recorded(m, r)
    ensures Recorded(s, r)
  {
    GradualThen(Moment(s), m.snapshots[|s.snapshots|..], Moment(m), r.snapshots[|m.snapshots|..], Moment(r));
    assert r.snapshots[|s.snapshots|..] == m.snapshots[|s.snapshots|..] + r.snapshots[|m.snapshots|..];
  }

  lemma NothingRecorded(s: Sys, r: Sys)
    requires r.snapshots == s.snapshots && SameMoment(Moment(s), Moment(r))
    ensures Recorded(s, r)
  {
    assert r.snapshots[|s.snapshots|..] == [];
  }

  lemma RecordedTwo(s: Sys, r: Sys, m: Snapshot, n: Snapshot, x: Id)
    requires r.snapshots == s.snapshots + [m, n] && OneChange(Moment(s), m, x) && OneChange(m, n, x) && SameMoment(n, Moment(r))
    ensures Recorded(s, r)
  {
    assert r.snapshots[|s.snapshots|..] == [m, n];
    TwoMoments(Moment(s), m, n, Moment(r), x);
  }

  lemma RecordedOne(s: Sys, r: Sys, m: Snapshot, x: Id)
    requires r.snapshots == s.snapshots + [m] && OneChange(Moment(s), m, x) && SameMoment(m, Moment(r))
    ensures Recorded(s, r)
  {
    assert r.snapshots[|s.snapshots|..] == [m];
    OneMoment(Moment(s), m, Moment(r), x);
  }

  /** The same memory, table and moments, whatever else differs. */
  ghost predicate SameWorld(s: Sys, r: Sys) {
    r.snapshots == s.snapshots && SameMoment(Moment(s), Moment(r))
  }

  lemma AlsoRecorded(s: Sys, m: Sys, r: Sys)
    requires Recorded(s, m) && SameWorld(m, r)
    ensures Recorded(s, r)
  {
    NothingRecorded(m, r);
    RecordedThrough(s, m, r);
  }

  lemma BetweenSame(s: Sys, s1: Sys, r1: Sys, r: Sys)
    requires SameWorld(s, s1) && Recorded(s1, r1) && SameWorld(r1, r)
    ensures Recorded(s, r)
  {
    NothingRecorded(s, s1);
    RecordedThrough(s, s1, r1);
    AlsoRecorded(s, r1, r);
  }

  // ---------------------------------------------------------------- the pieces of a step

  lemma ChangeRecorded(env: Env, s: Sys, id: Id, info: Download)
    requires id in s.downloads && info.id == id
    ensures Recorded(s, Save(env, SetInfo(s, id, info), info).0)
  {
    var r := Save(env, SetInfo(s, id, info), info).0;
    RecordedTwo(s, r, Snapshot(r.downloads, s.db), Snapshot(r.downloads, r.db), id);
  }

  lemma MoveRecorded(env: Env, s: Sys, id: Id, next: DownloadState, error: Option<string>)
    requires id in s.downloads ==> s.downloads[id].info.id == id
    ensures Recorded(s, TransitionState(env, s, id, next, error).0)
  {
    var s1 := s.(ticks := s.ticks + 1);
    var r := TransitionState(env, s, id, next, error).0;
    if id in s.downloads && IsValidTransition(s.downloads[id].info.state, next) {
      var info := Stamp(s.downloads[id].info, next, env.clock(s.ticks), error);
      ChangeRecorded(env, s1, id, info);
      BetweenSame(s, s1, Save(env, SetInfo(s1, id, info), info).0, r);
    } else {
      NothingRecorded(s, r);
    }
  }

  lemma OutcomeRecorded(env: Env, s: Sys, id: Id, r: BackendResult)
    requires r.Finished?
    ensures Recorded(s, RecordOutcome(env, s, id, r))
  {
    var m := RecordOutcome(env, s, id, r);
    if id in s.downloads {
      RecordedOne(s, m, Snapshot(m.downloads, s.db), id);
    } else {
      NothingRecorded(s, m);
    }
  }

  lemma ForgettingRecorded(env: Env, s: Sys, id: Id)
    ensures Recorded(s, Forget(env, s, id).0)
  {
    var r := Forget(env, s, id).0;
    RecordedTwo(s, r, Snapshot(r.downloads, s.db), Snapshot(r.downloads, r.db), id);
  }

  lemma ArrivalRecorded(env: Env, s: Sys, id: Id, spec: Spec)
    requires id !in s.downloads
    ensures Record(env, s, id, spec).1 ==> Recorded(s, Admitted(env, s, id, spec))
    ensures Recorded(s, Record(env, s, id, spec).0)
  {
    var m, r := Record(env, s, id, spec).0, Admitted(env, s, id, spec);
    RecordedOne(s, m, Snapshot(s.downloads, m.db), id);
    RecordedTwo(s, r, Snapshot(s.downloads, m.db), Snapshot(r.downloads, m.db), id);
  }

  lemma StartOneRecorded(env: Env, s: Sys, id: Id)
    requires id in s.downloads ==> s.downloads[id].info.id == id
    ensures Recorded(s, StartOne(env, s, id))
  {
    var s0 := s.(queue := Without(s.queue, id));
    MoveRecorded(env, s0, id, Starting, None);
    BetweenSame(s, s0, TransitionState(env, s0, id, Starting, None).0, StartOne(env, s, id));
  }

  lemma {:induction false} ScheduleRecorded(cfg: Config, env: Env, s: Sys)
    requires Safe(cfg, s)
    ensures Recorded(s, Schedule(cfg, env, s))
    decreases |s.queue|
  {
    var ids := Selected(cfg, s);
    if ids != [] {
      FirstSelected(cfg, env, s);
      StartOneRecorded(env, s, ids[0]);
      ScheduleRecorded(cfg, env, StartOne(env, s, ids[0]));
      RecordedThrough(s, StartOne(env, s, ids[0]), Schedule(cfg, env, s));
    } else {
      NothingRecorded(s, s);
    }
  }

  // ---------------------------------------------------------------- the steps

  lemma EndMoveRecorded(env: Env, s: Sys, s1: Sys, id: Id, next: DownloadState, error: Option<string>, e: Event)
    requires SameWorld(s, s1) && (id in s1.downloads ==> s1.downloads[id].info.id == id)
    ensures Recorded(s, Publish(TransitionState(env, s1, id, next, error).0, e))
  {
    MoveRecorded(env, s1, id, next, error);
    BetweenSame(s, s1, TransitionState(env, s1, id, next, error).0, Publish(TransitionState(env, s1, id, next, error).0, e));
  }

  lemma EndRecorded(env: Env, s: Sys, id: Id, r: BackendResult)
    requires id in s.downloads ==> s.downloads[id].info.id == id
    ensures Recorded(s, Settle(env, s, id, r))
  {
    var s1 := s.(intents := s.intents - {id});
    match r
    case Finished(_, _, _) =>
      var m := RecordOutcome(env, s, id, r);
      OutcomeRecorded(env, s, id, r);
      EndMoveRecorded(env, m, m, id, Completed, None, OnCompleted(id));
      RecordedThrough(s, m, Settle(env, s, id, r));
    case Stopped =>
      if id in s.intents {
        EndMoveRecorded(env, s, s1, id, Paused, Some("paused by user"), OnPaused(id));
      } else {
        EndMoveRecorded(env, s, s1, id, Cancelled, Some("cancelled by user"), OnCancelled(id));
      }
    case Broken(error) => EndMoveRecorded(env, s, s1, id, Failed, Some(error), OnFailed(id, error));
  }

  lemma RequeueRecorded(cfg: Config, env: Env, s: Sys, id: Id)
    requires Safe(cfg, s)
    ensures Recorded(s, Requeue(env, s, id).0) && Recorded(s, Publish(Requeue(env, s, id).0, OnResumed(id)))
  {
    MoveRecorded(env, s, id, Queued, None);
    AlsoRecorded(s, TransitionState(env, s, id, Queued, None).0, Requeue(env, s, id).0);
    AlsoRecorded(s, Requeue(env, s, id).0, Publish(Requeue(env, s, id).0, OnResumed(id)));
  }

  lemma TaskRecorded(cfg: Config, env: Env, s: Sys, op: Op)
    requires Safe(cfg, s) && Enabled(s, op) && (op.DoTaskBegin? || op.DoTaskEnd?)
    ensures Recorded(s, Handed(cfg, env, s, op))
  {
    var s0 := DropTask(s, op.task);
    if op.DoTaskBegin? {
      MoveRecorded(env, s0, s.tasks[op.task].id, Failed, Some(NO_BACKEND));
    } else {
      EndRecorded(env, s0, s.tasks[op.task].id, op.result);
    }
    BetweenSame(s, s0, Handed(cfg, env, s, op), Handed(cfg, env, s, op));
  }

  lemma HandedRecorded(cfg: Config, env: Env, s: Sys, op: Op)
    requires Safe(cfg, s) && Enabled(s, op) && EndsInSchedule(cfg, env, s, op)
    ensures Recorded(s, Handed(cfg, env, s, op))
  {
    match op
    case DoEnqueue(id, spec) => ArrivalRecorded(env, s, id, spec);
    case DoResume(id) => RequeueRecorded(cfg, env, s, id);
    case DoRetry(id) => RequeueRecorded(cfg, env, s, id);
    case DoRemove(id) => ForgettingRecorded(env, s, id);
    case DoTaskBegin(_) => TaskRecorded(cfg, env, s, op);
    case DoTaskEnd(_, _) => TaskRecorded(cfg, env, s, op);
  }

  lemma CancelRecorded(cfg: Config, env: Env, s: Sys, id: Id)
    requires Safe(cfg, s)
    ensures Recorded(s, Cancel(env, s, id).0)
  {
    if id in s.downloads && !s.downloads[id].info.state.Active() && !s.downloads[id].info.state.Terminal() {
      var s0 := s.(queue := Without(s.queue, id));
      MoveRecorded(env, s0, id, Cancelled, Some("cancelled by user"));
      BetweenSame(s, s0, TransitionState(env, s0, id, Cancelled, Some("cancelled by user")).0, Cancel(env, s, id).0);
    } else {
      NothingRecorded(s, Cancel(env, s, id).0);
    }
  }

  lemma ReportRecorded(cfg: Config, env: Env, s: Sys, id: Id, downloaded: u64, total: Option<u64>)
    requires Safe(cfg, s)
    ensures Recorded(s, Progress(env, s, id, downloaded, total))
  {
    var s1, r := s.(ticks := s.ticks + 1), Progress(env, s, id, downloaded, total);
    if id in s.downloads {
      var d := Reported(s.downloads[id].info, env.clock(s.ticks), downloaded, total);
      ChangeRecorded(env, s1, id, d);
      BetweenSame(s, s1, Save(env, SetInfo(s1, id, d), d).0, r);
    } else {
      NothingRecorded(s, r);
    }
  }

  lemma RefusalRecorded(cfg: Config, env: Env, s: Sys, op: Op)
    requires Safe(cfg, s) && Enabled(s, op) && (op.DoResume? || op.DoRetry?) && !EndsInSchedule(cfg, env, s, op)
    ensures Recorded(s, Apply(cfg, env, s, op).0)
  {
    RequeueRecorded(cfg, env, s, op.id);
    NothingRecorded(s, s);
  }

  lemma MarksRecorded(s: Sys, id: Id, t: TaskId)
    ensures Recorded(s, Pause(s, id).0) && Recorded(s, Shutdown(s)) && Recorded(s, DropTask(s, t))
  {
    NothingRecorded(s, Pause(s, id).0);
    NothingRecorded(s, Shutdown(s));
    NothingRecorded(s, DropTask(s, t));
  }

  lemma QuietRecorded(cfg: Config, env: Env, s: Sys, op: Op)
    requires Safe(cfg, s) && Enabled(s, op) && !EndsInSchedule(cfg, env, s, op)
    ensures Recorded(s, Apply(cfg, env, s, op).0)
  {
    NothingRecorded(s, s);
    match op
    case DoEnqueue(id, spec) => ArrivalRecorded(env, s, id, spec);
    case DoStart(id) => StartOneRecorded(env, s, id);
    case DoPause(id) => MarksRecorded(s, id, 0);
    case DoResume(_) => RefusalRecorded(cfg, env, s, op);
    case DoRetry(_) => RefusalRecorded(cfg, env, s, op);
    case DoCancel(id) => CancelRecorded(cfg, env, s, id);
    case DoRemove(id) => ForgettingRecorded(env, s, id);
    case DoShutdown => MarksRecorded(s, 0, 0);
    case DoProgress(id, n, total) => ReportRecorded(cfg, env, s, id, n, total);
    case DoTaskBegin(t) => HandOverRecorded(cfg, env, s, t);
    case DoTaskVanish(t) => MarksRecorded(s, 0, t);
  }

  lemma HandOverRecorded(cfg: Config, env: Env, s: Sys, t: TaskId)
    requires Enabled(s, DoTaskBegin(t)) && !EndsInSchedule(cfg, env, s, DoTaskBegin(t))
    ensures Recorded(s, TaskBegin(cfg, env, s, t))
  {
    NothingRecorded(s, TaskBegin(cfg, env, s, t));
  }

  /**
   * Every step, on any disk: the moments recorded lead from what was before it to what is after it, and between two of
   * them no more than one record or one row changes. So a crash can strike at no other moment than at one of them.
   */
  lemma EveryMomentIsRecorded(cfg: Config, env: Env, s: Sys, op: Op)
    requires Safe(cfg, s) && Enabled(s, op)
    ensures Recorded(s, Apply(cfg, env, s, op).0)
  {
    if EndsInSchedule(cfg, env, s, op) {
      SchedulesExactlyWithAgenda(cfg, env, s, op);
      SelectsWhatBegins(cfg, env, s, op);
      HandedRecorded(cfg, env, s, op);
      ScheduleRecorded(cfg, env, Handed(cfg, env, s, op));
      RecordedThrough(s, Handed(cfg, env, s, op), Apply(cfg, env, s, op).0);
    } else {
      QuietRecorded(cfg, env, s, op);
    }
  }
}
