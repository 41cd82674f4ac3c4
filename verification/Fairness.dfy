/** No work waits that could run, and nobody overtakes in the queue. */
module Fairness {
  import opened Wrappers
  import opened Lifecycle
  import opened Queues
  import opened Records
  import opened ManagerModel
  import opened Safety
  import opened SafeSteps
  import opened Scheduling
  import opened Recovery
  import opened Runs

  // ---------------------------------------------------------------- what the queue becomes

  lemma TransitionKeepsQueue(env: Env, s: Sys, id: Id, next: DownloadState, error: Option<string>)
    ensures TransitionState(env, s, id, next, error).0.queue == s.queue
  {}

  lemma ScheduledQueue(cfg: Config, env: Env, s: Sys) returns (k: nat)
    requires Safe(cfg, s)
    ensures k <= |s.queue| && Schedule(cfg, env, s).queue == s.queue[k..]
  {
    ScheduleEffect(cfg, env, s);
    k := |Selected(cfg, s)|;
  }

  /** The step names a download and may take it off the queue by itself. */
  predicate TakesOff(op: Op, id: Id) {
    (op.DoStart? || op.DoCancel? || op.DoRemove?) && op.id == id
  }

  /**
   * What any step does to the queue: the download the call names may be taken off or put at the back, and then a
   * prefix, the downloads the scheduler started, goes.
   */
  ghost predicate QueueMoves(s: Sys, op: Op, base: seq<Id>, k: nat, q: seq<Id>) {
    && k <= |base| && q == base[k..]
    && (base == s.queue
        || ((op.DoStart? || op.DoCancel? || op.DoRemove?) && base == Without(s.queue, op.id))
        || ((op.DoEnqueue? || op.DoResume? || op.DoRetry?) && base == s.queue + [op.id] && op.id !in s.queue))
  }

  lemma UntouchedQueue(q: seq<Id>)
    ensures q[0..] == q
  {}

  lemma CallMovesQueue(cfg: Config, env: Env, s: Sys, op: Op) returns (base: seq<Id>, k: nat)
    requires Safe(cfg, s) && Enabled(s, op)
    requires op.DoEnqueue? || op.DoResume? || op.DoRetry? || op.DoRemove?
    ensures QueueMoves(s, op, base, k, Apply(cfg, env, s, op).0.queue)
  {
    base, k := s.queue, 0;
    UntouchedQueue(s.queue);
    match op
    case DoEnqueue(id, spec) =>
      if Apply(cfg, env, s, op).1.Accepted? {
        AdmissionIsSafe(cfg, env, s, id, spec);
        base := s.queue + [id];
        k := ScheduledQueue(cfg, env, Admitted(env, s, id, spec));
      }
    case DoRemove(id) =>
      ForgetIsSafe(cfg, env, s, id);
      base := Without(s.queue, id);
      UntouchedQueue(base);
      if Apply(cfg, env, s, op).1.Accepted? {
        k := ScheduledQueue(cfg, env, Forget(env, s, id).0);
      }
    case DoResume(id) => base, k := RequeueMovesQueue(cfg, env, s, op);
    case DoRetry(id) => base, k := RequeueMovesQueue(cfg, env, s, op);
    case _ =>
  }

  lemma RequeueMovesQueue(cfg: Config, env: Env, s: Sys, op: Op) returns (base: seq<Id>, k: nat)
    requires Safe(cfg, s) && Enabled(s, op) && (op.DoResume? || op.DoRetry?)
    ensures QueueMoves(s, op, base, k, Apply(cfg, env, s, op).0.queue)
  {
    var id := op.id;
    base, k := s.queue, 0;
    UntouchedQueue(s.queue);
    TransitionKeepsQueue(env, s, id, Queued, None);
    if Apply(cfg, env, s, op).1.Accepted? {
      RequeueIsSafe(cfg, env, s, id);
      var s1 := Requeue(env, s, id).0;
      base := s.queue + [id];
      k := ScheduledQueue(cfg, env, if op.DoResume? then Publish(s1, OnResumed(id)) else s1);
    }
  }

  lemma SettleKeepsQueue(env: Env, s: Sys, id: Id, r: BackendResult)
    ensures Settle(env, s, id, r).queue == s.queue
  {}

  lemma TaskEndMovesQueue(cfg: Config, env: Env, s: Sys, t: TaskId, r: BackendResult) returns (k: nat)
    requires Safe(cfg, s) && t in s.tasks
    ensures k <= |s.queue| && TaskEnd(cfg, env, s, t, r).queue == s.queue[k..]
  {
    SettleTaskIsSafe(cfg, env, s, t, r);
    SettleKeepsQueue(env, DropTask(s, t), s.tasks[t].id, r);
    k := ScheduledQueue(cfg, env, SettleTask(env, s, t, r));
  }

  lemma TaskBeginMovesQueue(cfg: Config, env: Env, s: Sys, t: TaskId) returns (k: nat)
    requires Safe(cfg, s) && t in s.tasks && s.tasks[t].Spawned?
    ensures k <= |s.queue| && TaskBegin(cfg, env, s, t).queue == s.queue[k..]
  {
    k := 0;
    var id := s.tasks[t].id;
    UntouchedQueue(s.queue);
    if id in s.downloads && s.downloads[id].info.backend !in cfg.backends {
      FailureIsSafe(cfg, env, s, t);
      TransitionKeepsQueue(env, DropTask(s, t), id, Failed, Some(NO_BACKEND));
      if s.downloads[id].info.state.Active() {
        k := ScheduledQueue(cfg, env, FailWithoutBackend(env, s, t));
      }
    }
  }

  lemma StepMovesQueue(cfg: Config, env: Env, s: Sys, op: Op) returns (base: seq<Id>, k: nat)
    requires Safe(cfg, s) && Enabled(s, op)
    ensures QueueMoves(s, op, base, k, Apply(cfg, env, s, op).0.queue)
  {
    base, k := s.queue, 0;
    UntouchedQueue(s.queue);
    if op.DoEnqueue? || op.DoResume? || op.DoRetry? || op.DoRemove? {
      base, k := CallMovesQueue(cfg, env, s, op);
    } else if op.DoTaskBegin? {
      k := TaskBeginMovesQueue(cfg, env, s, op.task);
    } else if op.DoTaskEnd? {
      k := TaskEndMovesQueue(cfg, env, s, op.task, op.result);
    } else if op.DoStart? || op.DoCancel? {
      UntouchedQueue(Without(s.queue, op.id));
      CancelledQueue(env, s, op.id);
      if Apply(cfg, env, s, op).0.queue != s.queue {
        base := Without(s.queue, op.id);
      }
    }
  }

  // ---------------------------------------------------------------- no overtaking

  ghost predicate Ahead(q: seq<Id>, a: Id, b: Id) {
    a in q && b in q && IndexOf(q, a) < IndexOf(q, b)
  }

  lemma BaseKeepsOrder(s: Sys, op: Op, base: seq<Id>, k: nat, q: seq<Id>, a: Id, b: Id)
    requires QueueMoves(s, op, base, k, q) && a in s.queue && b in s.queue && a in base && b in base
    ensures IndexOf(base, a) <= IndexOf(s.queue, a)
    ensures IndexOf(s.queue, a) < IndexOf(s.queue, b) ==> IndexOf(base, a) < IndexOf(base, b)
  {
    if base == s.queue {
    } else if op.DoStart? || op.DoCancel? || op.DoRemove? {
      WithoutKeepsOrder(s.queue, op.id, a, b);
    } else {
      IndexOfPrefix(s.queue, [op.id], a);
      IndexOfPrefix(s.queue, [op.id], b);
    }
  }

  lemma BaseHasNoDup(s: Sys, op: Op, base: seq<Id>, k: nat, q: seq<Id>)
    requires QueueMoves(s, op, base, k, q) && NoDup(s.queue)
    ensures NoDup(base)
  {}

  /** One step never swaps two downloads that stay queued, and never moves one of them back. */
  lemma StepKeepsOrder(cfg: Config, env: Env, s: Sys, op: Op, a: Id, b: Id)
    requires Safe(cfg, s) && Enabled(s, op)
    requires var q := Apply(cfg, env, s, op).0.queue; a in s.queue && b in s.queue && a in q && b in q
    ensures var q := Apply(cfg, env, s, op).0.queue;
            && IndexOf(q, a) <= IndexOf(s.queue, a)
            && (IndexOf(s.queue, a) < IndexOf(s.queue, b) ==> IndexOf(q, a) < IndexOf(q, b))
  {
    var base, k := StepMovesQueue(cfg, env, s, op);
    var q := Apply(cfg, env, s, op).0.queue;
    BaseHasNoDup(s, op, base, k, q);
    IndexOfSuffix(base, k, a);
    IndexOfSuffix(base, k, b);
    BaseKeepsOrder(s, op, base, k, q, a, b);
  }

  lemma InSuffix(q: seq<Id>, k: nat, a: Id)
    requires NoDup(q) && k <= |q| && a in q
    ensures a in q[k..] <==> k <= IndexOf(q, a)
  {}

  /** The later of two queued downloads leaves first only when a call takes it off by name. */
  lemma LaterLeavesAfterEarlier(cfg: Config, env: Env, s: Sys, op: Op, a: Id, b: Id)
    requires Safe(cfg, s) && Enabled(s, op) && Ahead(s.queue, a, b) && !TakesOff(op, b)
    ensures var q := Apply(cfg, env, s, op).0.queue; b !in q ==> a !in q
  {
    var base, k := StepMovesQueue(cfg, env, s, op);
    var q := Apply(cfg, env, s, op).0.queue;
    BaseHasNoDup(s, op, base, k, q);
    assert b in base;
    if a in base {
      BaseKeepsOrder(s, op, base, k, q, a, b);
      InSuffix(base, k, a);
      InSuffix(base, k, b);
    }
  }

  /** No overtaking in one process: two downloads that stay queued keep their order, and neither moves back. */
  lemma {:induction false} NoOvertaking(cfg: Config, env: Env, trace: seq<Sys>, ops: seq<Op>, a: Id, b: Id, k: nat)
    requires Steps(cfg, env, trace, ops) && Safe(cfg, trace[0]) && k < |trace|
    requires forall i :: 0 <= i <= k ==> a in trace[i].queue && b in trace[i].queue
    ensures IndexOf(trace[k].queue, a) <= IndexOf(trace[0].queue, a)
    ensures Ahead(trace[0].queue, a, b) ==> Ahead(trace[k].queue, a, b)
    decreases k
  {
    if k > 0 {
      NoOvertaking(cfg, env, trace, ops, a, b, k - 1);
      StepsAreSafe(cfg, env, trace, ops, k - 1);
      StepKeepsOrder(cfg, env, trace[k - 1], ops[k - 1], a, b);
    }
  }

  // ---------------------------------------------------------------- work conservation

  /** The step reaches the scheduling at the end of its code. */
  predicate EndsInSchedule(cfg: Config, env: Env, s: Sys, op: Op)
    requires Enabled(s, op)
  {
    match op
    case DoEnqueue(_, _) => Apply(cfg, env, s, op).1.Accepted?
    case DoResume(_) => Apply(cfg, env, s, op).1.Accepted?
    case DoRetry(_) => Apply(cfg, env, s, op).1.Accepted?
    case DoRemove(_) => Apply(cfg, env, s, op).1.Accepted?
    case DoTaskEnd(_, _) => true
    case DoTaskBegin(t) =>
      var id := s.tasks[t].id;
      id in s.downloads && s.downloads[id].info.state.Active() && s.downloads[id].info.backend !in cfg.backends
    case _ => false
  }

  /** After every step that schedules, no work that could run is left waiting, on any disk. */
  lemma SchedulingStepsConserveWork(cfg: Config, env: Env, s: Sys, op: Op)
    requires Enabled(s, op) && EndsInSchedule(cfg, env, s, op)
    ensures WorkConserving(cfg, Apply(cfg, env, s, op).0)
  {
    match op
    case DoEnqueue(id, spec) =>
      ScheduleConservesWork(cfg, env, Admitted(env, s, id, spec));
    case DoResume(id) =>
      ScheduleConservesWork(cfg, env, Publish(Requeue(env, s, id).0, OnResumed(id)));
    case DoRetry(id) =>
      ScheduleConservesWork(cfg, env, Requeue(env, s, id).0);
    case DoRemove(id) =>
      ScheduleConservesWork(cfg, env, Forget(env, s, id).0);
    case DoTaskEnd(t, r) =>
      ScheduleConservesWork(cfg, env, SettleTask(env, s, t, r));
    case DoTaskBegin(t) =>
      ScheduleConservesWork(cfg, env, FailWithoutBackend(env, s, t));
  }

  /** A move between two states that are not active leaves the count alone. */
  lemma RestingMoveKeepsCount(env: Env, s: Sys, id: Id, next: DownloadState, error: Option<string>)
    requires !next.Active() && (id in s.downloads ==> !s.downloads[id].info.state.Active())
    ensures CountActive(TransitionState(env, s, id, next, error).0.downloads) == CountActive(s.downloads)
  {
    var r := TransitionState(env, s, id, next, error).0;
    if id in s.downloads && IsValidTransition(s.downloads[id].info.state, next) {
      ActiveAfterUpdate(s.downloads, id, r.downloads[id]);
    }
  }

  lemma FailedRequeueKeepsCount(cfg: Config, env: Env, s: Sys, id: Id)
    ensures Resume(cfg, env, s, id).1.Rejected? ==>
              CountActive(Resume(cfg, env, s, id).0.downloads) == CountActive(s.downloads)
    ensures Retry(cfg, env, s, id).1.Rejected? ==>
              CountActive(Retry(cfg, env, s, id).0.downloads) == CountActive(s.downloads)
  {
    if StateOf(s, id) == Some(Paused) || StateOf(s, id) == Some(Failed) {
      RestingMoveKeepsCount(env, s, id, Queued, None);
    }
  }

  lemma CancelKeepsCount(env: Env, s: Sys, id: Id)
    ensures CountActive(Cancel(env, s, id).0.downloads) == CountActive(s.downloads)
  {
    if id in s.downloads && !s.downloads[id].info.state.Active() {
      RestingMoveKeepsCount(env, s.(queue := Without(s.queue, id)), id, Cancelled, Some("cancelled by user"));
    }
  }

  lemma ProgressKeepsCount(env: Env, s: Sys, id: Id, downloaded: u64, total: Option<u64>)
    ensures CountActive(Progress(env, s, id, downloaded, total).downloads) == CountActive(s.downloads)
  {
    if id in s.downloads {
      ActiveAfterUpdate(s.downloads, id, Progress(env, s, id, downloaded, total).downloads[id]);
    }
  }

  lemma RefusalKeepsMemory(cfg: Config, env: Env, s: Sys, id: Id, spec: Spec)
    requires Enqueue(cfg, env, s, id, spec).1.Rejected?
    ensures var r := Enqueue(cfg, env, s, id, spec).0; r.downloads == s.downloads && r.queue == s.queue
  {}

  lemma HandOverKeepsCount(cfg: Config, env: Env, s: Sys, t: TaskId)
    requires Enabled(s, DoTaskBegin(t)) && !EndsInSchedule(cfg, env, s, DoTaskBegin(t))
    ensures var r := TaskBegin(cfg, env, s, t); r.downloads == s.downloads && r.queue == s.queue
  {}

  lemma RefusalKeepsQueue(cfg: Config, env: Env, s: Sys, id: Id)
    ensures Resume(cfg, env, s, id).1.Rejected? ==> Resume(cfg, env, s, id).0.queue == s.queue
    ensures Retry(cfg, env, s, id).1.Rejected? ==> Retry(cfg, env, s, id).0.queue == s.queue
  {
    TransitionKeepsQueue(env, s, id, Queued, None);
  }

  lemma CancelledQueue(env: Env, s: Sys, id: Id)
    ensures Cancel(env, s, id).0.queue == s.queue || Cancel(env, s, id).0.queue == Without(s.queue, id)
  {
    TransitionKeepsQueue(env, s.(queue := Without(s.queue, id)), id, Cancelled, Some("cancelled by user"));
  }

  /** A step that does not schedule shrinks the queue or leaves it, and leaves the count, unless a removal's delete fails. */
  lemma QuietStepsKeepCount(cfg: Config, env: Env, s: Sys, op: Op)
    requires Safe(cfg, s) && Enabled(s, op) && !EndsInSchedule(cfg, env, s, op)
    requires !op.DoRemove? && !(op.DoStart? && CountActive(s.downloads) < cfg.limit)
    ensures var r := Apply(cfg, env, s, op).0;
            CountActive(r.downloads) == CountActive(s.downloads) && (s.queue == [] ==> r.queue == [])
  {
    match op
    case DoResume(id) =>
      FailedRequeueKeepsCount(cfg, env, s, id);
      RefusalKeepsQueue(cfg, env, s, id);
    case DoRetry(id) =>
      FailedRequeueKeepsCount(cfg, env, s, id);
      RefusalKeepsQueue(cfg, env, s, id);
    case DoCancel(id) =>
      CancelKeepsCount(env, s, id);
      CancelledQueue(env, s, id);
    case DoProgress(id, n, total) => ProgressKeepsCount(env, s, id, n, total);
    case DoShutdown => assert ActiveIds(Shutdown(s).downloads) == ActiveIds(s.downloads);
    case DoTaskBegin(t) => HandOverKeepsCount(cfg, env, s, t);
    case DoEnqueue(id, spec) => RefusalKeepsMemory(cfg, env, s, id, spec);
    case _ =>
  }

  /** The step removes an active download while others wait, and the database does not delete its row. */
  predicate Stalls(env: Env, s: Sys, op: Op) {
    && op.DoRemove? && !env.disk(s.dbCalls) && s.queue != []
    && op.id in s.downloads && s.downloads[op.id].info.state.Active()
  }

  /** A removal whose delete fails returns before it schedules; that matters exactly when it frees a place others wait for. */
  lemma RemovalStalls(cfg: Config, env: Env, s: Sys, id: Id)
    requires Safe(cfg, s) && WorkConserving(cfg, s)
    ensures WorkConserving(cfg, RemoveDownload(cfg, env, s, id).0) <==> !Stalls(env, s, DoRemove(id))
  {
    if env.disk(s.dbCalls) {
      SchedulingStepsConserveWork(cfg, env, s, DoRemove(id));
    } else {
      ForgottenCount(env, s, id);
      if id in s.downloads && s.downloads[id].info.state.Active() {
        WithoutAbsent(s.queue, id);
      }
    }
  }

  lemma ForgottenCount(env: Env, s: Sys, id: Id)
    ensures var r := Forget(env, s, id).0;
            && r.queue == Without(s.queue, id)
            && CountActive(r.downloads) == CountActive(s.downloads) - if id in ActiveIds(s.downloads) then 1 else 0
  {
    assert Forget(env, s, id).0.downloads == s.downloads - {id};
    ActiveAfterRemoval(s.downloads, id);
    if id !in ActiveIds(s.downloads) {
      assert ActiveIds(s.downloads) - {id} == ActiveIds(s.downloads);
    }
  }

  /**
   * Work conservation is an invariant: once no work waits that could run, no step leaves such work waiting, on any
   * disk, except exactly a removal that stalls.
   */
  lemma WorkConservationIsKept(cfg: Config, env: Env, s: Sys, op: Op)
    requires Safe(cfg, s) && Enabled(s, op) && WorkConserving(cfg, s)
    ensures WorkConserving(cfg, Apply(cfg, env, s, op).0) <==> !Stalls(env, s, op)
  {
    if op.DoRemove? {
      RemovalStalls(cfg, env, s, op.id);
    } else if EndsInSchedule(cfg, env, s, op) {
      SchedulingStepsConserveWork(cfg, env, s, op);
    } else if !(op.DoStart? && CountActive(s.downloads) < cfg.limit) {
      QuietStepsKeepCount(cfg, env, s, op);
    }
  }

  ghost predicate NoneStalls(env: Env, trace: seq<Sys>, ops: seq<Op>, m: nat, k: nat)
    requires k <= |ops| < |trace|
  {
    forall j {:trigger ops[j]} :: m <= j < k ==> !Stalls(env, trace[j], ops[j])
  }

  lemma ConservedOneMore(cfg: Config, env: Env, trace: seq<Sys>, ops: seq<Op>, k: nat)
    requires Steps(cfg, env, trace, ops) && k < |ops| && Safe(cfg, trace[k])
    requires WorkConserving(cfg, trace[k]) && !Stalls(env, trace[k], ops[k])
    ensures WorkConserving(cfg, trace[k + 1])
  {
    WorkConservationIsKept(cfg, env, trace[k], ops[k]);
  }

  lemma {:induction false} ConservedFromThereOn(cfg: Config, env: Env, trace: seq<Sys>, ops: seq<Op>, m: nat, k: nat)
    requires Steps(cfg, env, trace, ops) && Safe(cfg, trace[0]) && m <= k < |trace|
    requires WorkConserving(cfg, trace[m]) && NoneStalls(env, trace, ops, m, k)
    ensures WorkConserving(cfg, trace[k])
    decreases k
  {
    if m < k {
      ConservedFromThereOn(cfg, env, trace, ops, m, k - 1);
      StepsAreSafe(cfg, env, trace, ops, k - 1);
      ConservedOneMore(cfg, env, trace, ops, k - 1);
    }
  }

  /** On any disk, from the first step that schedules on, no work that could run waits, until a removal stalls. */
  lemma NoWorkWaitsOnceScheduled(cfg: Config, env: Env, trace: seq<Sys>, ops: seq<Op>, i: nat, k: nat)
    requires Steps(cfg, env, trace, ops) && Safe(cfg, trace[0]) && i < k < |trace|
    requires Enabled(trace[i], ops[i]) && EndsInSchedule(cfg, env, trace[i], ops[i])
    requires NoneStalls(env, trace, ops, i + 1, k)
    ensures WorkConserving(cfg, trace[k])
  {
    SchedulingStepsConserveWork(cfg, env, trace[i], ops[i]);
    ConservedFromThereOn(cfg, env, trace, ops, i + 1, k);
  }

  /** Opening does not schedule: whatever it queued waits, if the limit lets anything run at all. */
  lemma OpenLeavesQueueWaiting(cfg: Config, env: Env, db: Table)
    requires Open(cfg, env, db).1
    ensures WorkConserving(cfg, Open(cfg, env, db).0) <==>
              cfg.limit == 0 || forall id :: id in db ==> !RecoveredState(cfg.policy, db[id].state).Queued?
  {
    OpenRecovers(cfg, env, db);
    var q := Open(cfg, env, db).0.queue;
    if q != [] {
      assert q[0] in q;
    }
  }

  /**
   * Nor does an explicit start, although the design notes say it does: it begins the one download it names, and work
   * is left waiting unless that was the last one queued or filled the last place.
   */
  lemma StartDoesNotSchedule(cfg: Config, env: Env, s: Sys, id: Id)
    requires Safe(cfg, s) && StateOf(s, id) == Some(Queued) && CountActive(s.downloads) < cfg.limit
    ensures Start(cfg, env, s, id).0.queue == Without(s.queue, id)
    ensures WorkConserving(cfg, Start(cfg, env, s, id).0) <==>
              Without(s.queue, id) == [] || CountActive(s.downloads) + 1 == cfg.limit
  {
    BeginEffect(env, s.(queue := Without(s.queue, id)), id);
  }
}
