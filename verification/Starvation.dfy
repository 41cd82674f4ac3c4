/** How long a queued download waits: every place that is freed moves it up, until its turn comes. */
module Starvation {
  import opened Wrappers
  import opened Lifecycle
  import opened Queues
  import opened Scheduler
  import opened ManagerModel
  import opened Safety
  import opened Scheduling
  import opened Runs
  import opened Fairness
  import opened Agendas

  /** The step gives back a place and reaches the scheduler: an attempt ends, or an active download is removed. */
  predicate FreesPlace(cfg: Config, env: Env, s: Sys, op: Op)
    requires Enabled(s, op)
  {
    var a := AgendaOf(cfg, env, s, op);
    a.Some? && a.value.active < CountActive(s.downloads)
  }

  /** Which steps these are: ends of known attempts, saved removals of active ones, and attempts without a backend. */
  lemma FreesPlaceExactlyWhen(cfg: Config, env: Env, s: Sys, op: Op)
    requires Safe(cfg, s) && Enabled(s, op)
    ensures FreesPlace(cfg, env, s, op) <==>
              || (op.DoTaskEnd? && s.tasks[op.task].id in s.downloads)
              || (op.DoRemove? && env.disk(s.dbCalls) && op.id in ActiveIds(s.downloads))
              || (op.DoTaskBegin? && s.tasks[op.task].id in s.downloads
                  && s.downloads[s.tasks[op.task].id].info.backend !in cfg.backends)
  {
    var id := if op.DoTaskEnd? || op.DoTaskBegin? then s.tasks[op.task].id else if op.DoRemove? then op.id else 0;
    OneLess(ActiveIds(s.downloads), id);
  }

  lemma OneLess(a: set<Id>, x: Id)
    ensures |a - {x}| == |a| - if x in a then 1 else 0
  {
    if x in a {
      assert a == (a - {x}) + {x};
    } else {
      assert a - {x} == a;
    }
  }

  /** Whoever is still queued after a scheduling stood behind all the places that were free, and moves up by as many. */
  lemma ScheduledPosition(cfg: Config, env: Env, s: Sys, op: Op, x: Id)
    requires Safe(cfg, s) && Enabled(s, op) && EndsInSchedule(cfg, env, s, op) && x in Apply(cfg, env, s, op).0.queue
    ensures var (a, q) := (AgendaOf(cfg, env, s, op), Apply(cfg, env, s, op).0.queue);
            && a.Some? && x in a.value.queue
            && IndexOf(q, x) + Capacity(a.value.active, cfg.limit) == IndexOf(a.value.queue, x)
  {
    SchedulesExactlyWithAgenda(cfg, env, s, op);
    AgendaIsHanded(cfg, env, s, op);
    SchedulesWhatItHands(cfg, env, s, op);
    var m := Handed(cfg, env, s, op);
    ScheduleEffect(cfg, env, m);
    IndexOfSuffix(m.queue, |Selected(cfg, m)|, x);
  }

  /** On any disk, a freed place moves every download that stays queued up by at least one. */
  lemma FreedPlaceMovesUp(cfg: Config, env: Env, s: Sys, op: Op, x: Id)
    requires Safe(cfg, s) && Enabled(s, op) && FreesPlace(cfg, env, s, op)
    requires x in s.queue && x in Apply(cfg, env, s, op).0.queue
    ensures IndexOf(Apply(cfg, env, s, op).0.queue, x) < IndexOf(s.queue, x)
  {
    SchedulesExactlyWithAgenda(cfg, env, s, op);
    ScheduledPosition(cfg, env, s, op, x);
    if op.DoRemove? {
      WithoutKeepsOrder(s.queue, op.id, x, x);
    }
  }

  // ---------------------------------------------------------------- whole runs

  predicate FreesPlaceAt(cfg: Config, env: Env, trace: seq<Sys>, ops: seq<Op>, j: nat) {
    j < |ops| < |trace| && Enabled(trace[j], ops[j]) && FreesPlace(cfg, env, trace[j], ops[j])
  }

  /** How many of the first `k` steps freed a place. */
  function PlacesFreed(cfg: Config, env: Env, trace: seq<Sys>, ops: seq<Op>, k: nat): nat {
    if k == 0 then 0
    else PlacesFreed(cfg, env, trace, ops, k - 1) + if FreesPlaceAt(cfg, env, trace, ops, k - 1) then 1 else 0
  }

  /** The position of `x` after `k` steps, and the places these steps freed. */
  function Score(cfg: Config, env: Env, trace: seq<Sys>, ops: seq<Op>, k: nat, x: Id): nat
  {
    PlacesFreed(cfg, env, trace, ops, k) + if k < |trace| && x in trace[k].queue then IndexOf(trace[k].queue, x) else 0
  }

  ghost predicate StaysQueued(trace: seq<Sys>, x: Id, k: nat)
    requires k < |trace|
  {
    forall i :: 0 <= i <= k ==> x in trace[i].queue
  }

  lemma PositionOneMore(cfg: Config, env: Env, trace: seq<Sys>, ops: seq<Op>, k: nat, x: Id)
    requires Steps(cfg, env, trace, ops) && k < |ops| && Safe(cfg, trace[k])
    requires x in trace[k].queue && x in trace[k + 1].queue
    ensures Score(cfg, env, trace, ops, k + 1, x) <= Score(cfg, env, trace, ops, k, x)
  {
    if FreesPlace(cfg, env, trace[k], ops[k]) {
      FreedPlaceMovesUp(cfg, env, trace[k], ops[k], x);
    } else {
      StepKeepsOrder(cfg, env, trace[k], ops[k], x, x);
    }
  }

  lemma ScoreOneMore(cfg: Config, env: Env, trace: seq<Sys>, ops: seq<Op>, k: nat, x: Id)
    requires Steps(cfg, env, trace, ops) && Safe(cfg, trace[0]) && 0 < k < |trace|
    requires x in trace[k - 1].queue && x in trace[k].queue
    ensures Score(cfg, env, trace, ops, k, x) <= Score(cfg, env, trace, ops, k - 1, x)
  {
    StepsAreSafe(cfg, env, trace, ops, k - 1);
    PositionOneMore(cfg, env, trace, ops, k - 1, x);
  }

  ghost predicate ScoreFalls(cfg: Config, env: Env, trace: seq<Sys>, ops: seq<Op>, k: nat, x: Id) {
    forall j :: 0 < j <= k ==> Score(cfg, env, trace, ops, j, x) <= Score(cfg, env, trace, ops, j - 1, x)
  }

  lemma EveryScoreFalls(cfg: Config, env: Env, trace: seq<Sys>, ops: seq<Op>, k: nat, x: Id)
    requires Steps(cfg, env, trace, ops) && Safe(cfg, trace[0]) && k < |trace| && StaysQueued(trace, x, k)
    ensures ScoreFalls(cfg, env, trace, ops, k, x)
  {
    forall j | 0 < j <= k
      ensures Score(cfg, env, trace, ops, j, x) <= Score(cfg, env, trace, ops, j - 1, x)
    {
      ScoreOneMore(cfg, env, trace, ops, j, x);
    }
  }

  lemma {:induction false} FallenFromTheStart(cfg: Config, env: Env, trace: seq<Sys>, ops: seq<Op>, k: nat, x: Id)
    requires ScoreFalls(cfg, env, trace, ops, k, x)
    ensures Score(cfg, env, trace, ops, k, x) <= Score(cfg, env, trace, ops, 0, x)
  {
    if k > 0 {
      FallenFromTheStart(cfg, env, trace, ops, k - 1, x);
    }
  }

  /** In every run, on any disk, a download that stays queued sees no more freed places than were queued before it. */
  lemma WaitsAtMostItsPosition(cfg: Config, env: Env, trace: seq<Sys>, ops: seq<Op>, k: nat, x: Id)
    requires Steps(cfg, env, trace, ops) && Safe(cfg, trace[0]) && k < |trace| && StaysQueued(trace, x, k)
    ensures IndexOf(trace[k].queue, x) + PlacesFreed(cfg, env, trace, ops, k) <= IndexOf(trace[0].queue, x)
  {
    EveryScoreFalls(cfg, env, trace, ops, k, x);
    FallenFromTheStart(cfg, env, trace, ops, k, x);
  }

  /** A queued download that no start, cancel or remove names leaves the queue only by being started. */
  lemma LeavesByStarting(cfg: Config, env: Env, s: Sys, op: Op, x: Id)
    requires Safe(cfg, s) && Enabled(s, op) && x in s.queue && !TakesOff(op, x)
    ensures var r := Apply(cfg, env, s, op).0; x in r.queue || StateOf(r, x) == Some(Starting)
  {
    SchedulesExactlyWithAgenda(cfg, env, s, op);
    if EndsInSchedule(cfg, env, s, op) {
      AgendaIsHanded(cfg, env, s, op);
      SchedulesWhatItHands(cfg, env, s, op);
      ScheduleNeverLosesQueued(cfg, env, Handed(cfg, env, s, op), x);
    } else {
      QuietKeepsQueued(cfg, env, s, op, x);
    }
  }

  lemma CallKeepsQueued(cfg: Config, env: Env, s: Sys, op: Op, x: Id)
    requires Enabled(s, op) && (op.DoEnqueue? || op.DoResume? || op.DoRetry? || op.DoRemove?)
    requires !EndsInSchedule(cfg, env, s, op) && x in s.queue && !TakesOff(op, x)
    ensures x in Apply(cfg, env, s, op).0.queue
  {
    match op
    case DoEnqueue(id, spec) => RefusalKeepsMemory(cfg, env, s, id, spec);
    case DoResume(id) => RefusalKeepsQueue(cfg, env, s, id);
    case DoRetry(id) => RefusalKeepsQueue(cfg, env, s, id);
    case DoRemove(id) => ForgottenCount(env, s, id);
  }

  lemma CancelKeepsQueued(env: Env, s: Sys, id: Id, x: Id)
    requires x in s.queue && x != id
    ensures x in Cancel(env, s, id).0.queue
  {
    TransitionKeepsQueue(env, s.(queue := Without(s.queue, id)), id, Cancelled, Some("cancelled by user"));
  }

  lemma QuietKeepsQueued(cfg: Config, env: Env, s: Sys, op: Op, x: Id)
    requires Enabled(s, op) && !EndsInSchedule(cfg, env, s, op) && x in s.queue && !TakesOff(op, x)
    ensures x in Apply(cfg, env, s, op).0.queue
  {
    match op
    case DoCancel(id) => CancelKeepsQueued(env, s, id, x);
    case DoTaskBegin(t) => HandOverKeepsCount(cfg, env, s, t);
    case DoStart(_) =>
    case DoPause(_) =>
    case DoShutdown =>
    case DoProgress(_, _, _) =>
    case DoTaskVanish(_) =>
    case _ => CallKeepsQueued(cfg, env, s, op, x);
  }

  ghost predicate TurnCame(trace: seq<Sys>, x: Id, j: nat) {
    j + 1 < |trace| && x in trace[j].queue && StateOf(trace[j + 1], x) == Some(Starting)
  }

  lemma {:induction false} QueuedOrStarted(cfg: Config, env: Env, trace: seq<Sys>, ops: seq<Op>, k: nat, x: Id)
    requires Steps(cfg, env, trace, ops) && Safe(cfg, trace[0]) && k < |trace| && x in trace[0].queue
    requires forall j :: 0 <= j < k ==> !TakesOff(ops[j], x)
    requires forall j :: 0 <= j < k ==> !TurnCame(trace, x, j)
    ensures x in trace[k].queue
    decreases k
  {
    if k > 0 {
      QueuedOrStarted(cfg, env, trace, ops, k - 1, x);
      StepsAreSafe(cfg, env, trace, ops, k - 1);
      assert !TakesOff(ops[k - 1], x) && !TurnCame(trace, x, k - 1);
      LeavesByStarting(cfg, env, trace[k - 1], ops[k - 1], x);
    }
  }

  /**
   * Nobody starves: in every run, on any disk, a queued download that no call takes off the queue by name has been
   * started by the time more places were freed than downloads were queued before it.
   */
  lemma EveryTurnComes(cfg: Config, env: Env, trace: seq<Sys>, ops: seq<Op>, k: nat, x: Id)
    requires Steps(cfg, env, trace, ops) && Safe(cfg, trace[0]) && k < |trace| && x in trace[0].queue
    requires forall j :: 0 <= j < k ==> !TakesOff(ops[j], x)
    requires PlacesFreed(cfg, env, trace, ops, k) > IndexOf(trace[0].queue, x)
    ensures exists j :: 0 <= j < k && TurnCame(trace, x, j)
  {
    if forall j :: 0 <= j < k ==> !TurnCame(trace, x, j) {
      forall i | 0 <= i <= k
        ensures x in trace[i].queue
      {
        QueuedOrStarted(cfg, env, trace, ops, i, x);
      }
      WaitsAtMostItsPosition(cfg, env, trace, ops, k, x);
    }
  }
}
