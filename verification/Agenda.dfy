/** What a step hands to the scheduler, said before the step is taken: whom it begins, in which order, with which saves. */
module Agendas {
  import opened Wrappers
  import opened Lifecycle
  import opened Queues
  import opened Scheduler
  import opened ManagerModel
  import opened Safety
  import opened SafeSteps
  import opened Scheduling
  import opened Runs
  import opened Fairness

  /** The ids to choose from, how many downloads are active then, and how many calls and clock readings came before. */
  datatype Agenda = Agenda(queue: seq<Id>, active: nat, calls: nat, ticks: nat)

  /** The active downloads, not counting `id`. */
  function ActiveBut(s: Sys, id: Id): nat {
    |ActiveIds(s.downloads) - {id}|
  }

  /** What the step chooses from, if it gets to choose; an explicit start has the one download it names. */
  function AgendaOf(cfg: Config, env: Env, s: Sys, op: Op): Option<Agenda>
    requires Enabled(s, op)
  {
    var (active, saved) := (CountActive(s.downloads), env.disk(s.dbCalls));
    match op
    case DoEnqueue(id, spec) =>
      if spec.backend in cfg.backends && saved then Some(Agenda(s.queue + [id], active, s.dbCalls + 1, s.ticks + 1)) else None
    case DoStart(id) => if StateOf(s, id) == Some(Queued) then Some(Agenda([id], active, s.dbCalls, s.ticks)) else None
    case DoResume(id) =>
      if StateOf(s, id) == Some(Paused) && saved then Some(Agenda(s.queue + [id], active, s.dbCalls + 1, s.ticks + 1)) else None
    case DoRetry(id) =>
      if StateOf(s, id) == Some(Failed) && saved then Some(Agenda(s.queue + [id], active, s.dbCalls + 1, s.ticks + 1)) else None
    case DoRemove(id) =>
      if saved then Some(Agenda(Without(s.queue, id), ActiveBut(s, id), s.dbCalls + 1, s.ticks)) else None
    case DoTaskBegin(t) =>
      var id := s.tasks[t].id;
      if id in ActiveIds(s.downloads) && s.downloads[id].info.backend !in cfg.backends
      then Some(Agenda(s.queue, ActiveBut(s, id), s.dbCalls + 1, s.ticks + 1))
      else None
    case DoTaskEnd(t, r) =>
      var id := s.tasks[t].id;
      Some(Agenda(s.queue, ActiveBut(s, id), s.dbCalls + if id in s.downloads then 1 else 0,
                  s.ticks + if id in s.downloads && r.Finished? then 2 else 1))
    case _ => None
  }

  /** The downloads that the step begins, first to last. */
  function Begins(cfg: Config, env: Env, s: Sys, op: Op): seq<Id>
    requires Enabled(s, op)
  {
    match AgendaOf(cfg, env, s, op)
    case None => []
    case Some(a) => SelectForStart(a.queue, a.active, cfg.limit)
  }

  /** Of `ids`, begun in this order with one save each, the first of them call number `calls`, that of `id` fails. */
  predicate SaveFails(env: Env, calls: nat, ids: seq<Id>, id: Id) {
    id in ids && !env.disk(calls + IndexOf(ids, id))
  }

  lemma SaveFailsFirstOrLater(env: Env, calls: nat, ids: seq<Id>, id: Id)
    requires ids != [] && ids[0] !in ids[1..]
    ensures SaveFails(env, calls, ids, id) <==>
              if id == ids[0] then !env.disk(calls) else SaveFails(env, calls + 1, ids[1..], id)
  {}

  /** The step begins `id`, and the save of that move fails. */
  predicate StartFails(cfg: Config, env: Env, s: Sys, op: Op, id: Id)
    requires Enabled(s, op)
  {
    var a := AgendaOf(cfg, env, s, op);
    a.Some? && SaveFails(env, a.value.calls, Begins(cfg, env, s, op), id)
  }

  /** The state in which a step that schedules reaches the scheduler. */
  function Handed(cfg: Config, env: Env, s: Sys, op: Op): Sys
    requires Enabled(s, op)
  {
    match op
    case DoEnqueue(id, spec) => Admitted(env, s, id, spec)
    case DoResume(id) => Publish(Requeue(env, s, id).0, OnResumed(id))
    case DoRetry(id) => Requeue(env, s, id).0
    case DoRemove(id) => Forget(env, s, id).0
    case DoTaskBegin(t) => FailWithoutBackend(env, s, t)
    case DoTaskEnd(t, r) => SettleTask(env, s, t, r)
    case _ => s
  }

  /** A step that reaches the scheduler is the part before, and then the scheduling. */
  lemma SchedulesWhatItHands(cfg: Config, env: Env, s: Sys, op: Op)
    requires Enabled(s, op) && EndsInSchedule(cfg, env, s, op)
    ensures Apply(cfg, env, s, op).0 == Schedule(cfg, env, Handed(cfg, env, s, op))
  {}

  /** `m` is as the agenda says. */
  ghost predicate Matches(m: Sys, a: Agenda) {
    m.queue == a.queue && CountActive(m.downloads) == a.active && m.dbCalls == a.calls && m.ticks == a.ticks
  }

  lemma RequeueMatches(env: Env, s: Sys, id: Id)
    requires (StateOf(s, id) == Some(Paused) || StateOf(s, id) == Some(Failed)) && env.disk(s.dbCalls)
    ensures Matches(Requeue(env, s, id).0, Agenda(s.queue + [id], CountActive(s.downloads), s.dbCalls + 1, s.ticks + 1))
  {
    RequeueOutcome(env, s, id);
    RestingMoveKeepsCount(env, s, id, Queued, None);
  }

  lemma AdmissionMatches(env: Env, s: Sys, id: Id, spec: Spec)
    requires id !in s.downloads
    ensures Matches(Admitted(env, s, id, spec),
                    Agenda(s.queue + [id], CountActive(s.downloads), s.dbCalls + 1, s.ticks + 1))
  {
    ActiveAfterUpdate(s.downloads, id, Managed(NewDownload(id, spec, env.clock(s.ticks)), None, None));
  }

  lemma RemovalMatches(env: Env, s: Sys, id: Id)
    ensures Matches(Forget(env, s, id).0, Agenda(Without(s.queue, id), ActiveBut(s, id), s.dbCalls + 1, s.ticks))
  {
    ActiveAfterRemoval(s.downloads, id);
    assert Forget(env, s, id).0.downloads == s.downloads - {id};
  }

  /** Coming to rest gives a download's place back, on any disk, and takes one save. */
  lemma RestFreesPlace(env: Env, s: Sys, id: Id, next: DownloadState, error: Option<string>)
    requires !next.Active() && (id in s.downloads ==> IsValidTransition(s.downloads[id].info.state, next))
    ensures var r := TransitionState(env, s, id, next, error).0;
            && ActiveIds(r.downloads) == ActiveIds(s.downloads) - {id}
            && r.queue == s.queue && r.dbCalls == s.dbCalls + (if id in s.downloads then 1 else 0)
            && r.ticks == s.ticks + 1
  {
    var r := TransitionState(env, s, id, next, error).0;
    if id in s.downloads {
      ActiveAfterUpdate(s.downloads, id, r.downloads[id]);
    }
  }

  lemma OutcomeKeepsOthersActive(env: Env, s: Sys, id: Id, r: BackendResult)
    requires r.Finished?
    ensures var m := RecordOutcome(env, s, id, r);
            && ActiveIds(m.downloads) - {id} == ActiveIds(s.downloads) - {id}
            && m.queue == s.queue && m.dbCalls == s.dbCalls && (id in m.downloads <==> id in s.downloads)
            && m.ticks == s.ticks + (if id in s.downloads then 1 else 0)
            && (id in s.downloads ==> m.downloads[id].info.state == s.downloads[id].info.state)
  {
    if id in s.downloads {
      ActiveAfterUpdate(s.downloads, id, RecordOutcome(env, s, id, r).downloads[id]);
    }
  }

  lemma FinishFreesPlace(env: Env, s: Sys, id: Id, r: BackendResult)
    requires r.Finished? && (id in s.downloads ==> s.downloads[id].info.state.Active())
    ensures var m := Settle(env, s, id, r);
            && ActiveIds(m.downloads) == ActiveIds(s.downloads) - {id}
            && m.queue == s.queue && m.dbCalls == s.dbCalls + (if id in s.downloads then 1 else 0)
            && m.ticks == s.ticks + (if id in s.downloads && r.Finished? then 2 else 1)
  {
    var m := RecordOutcome(env, s, id, r);
    OutcomeKeepsOthersActive(env, s, id, r);
    RestFreesPlace(env, m, id, Completed, None);
  }

  lemma SettleFreesPlace(env: Env, s: Sys, id: Id, r: BackendResult)
    requires id in s.downloads ==> s.downloads[id].info.state.Active()
    ensures var m := Settle(env, s, id, r);
            && ActiveIds(m.downloads) == ActiveIds(s.downloads) - {id}
            && m.queue == s.queue && m.dbCalls == s.dbCalls + (if id in s.downloads then 1 else 0)
            && m.ticks == s.ticks + (if id in s.downloads && r.Finished? then 2 else 1)
  {
    var s1 := s.(intents := s.intents - {id});
    match r
    case Finished(_, _, _) => FinishFreesPlace(env, s, id, r);
    case Stopped =>
      if id in s.intents {
        RestFreesPlace(env, s1, id, Paused, Some("paused by user"));
      } else {
        RestFreesPlace(env, s1, id, Cancelled, Some("cancelled by user"));
      }
    case Broken(error) => RestFreesPlace(env, s1, id, Failed, Some(error));
  }

  lemma EndMatches(env: Env, s: Sys, t: TaskId, r: BackendResult, a: Agenda)
    requires t in s.tasks
    requires s.tasks[t].id in s.downloads ==> s.downloads[s.tasks[t].id].info.state.Active()
    requires a.queue == s.queue && a.active == ActiveBut(s, s.tasks[t].id)
    requires a.calls == s.dbCalls + if s.tasks[t].id in s.downloads then 1 else 0
    requires a.ticks == s.ticks + if s.tasks[t].id in s.downloads && r.Finished? then 2 else 1
    ensures Matches(SettleTask(env, s, t, r), a)
  {
    SettleFreesPlace(env, DropTask(s, t), s.tasks[t].id, r);
  }

  lemma TaskEndMatches(cfg: Config, env: Env, s: Sys, op: Op)
    requires Enabled(s, op) && op.DoTaskEnd?
    requires s.tasks[op.task].id in s.downloads ==> s.downloads[s.tasks[op.task].id].info.state.Active()
    ensures Matches(Handed(cfg, env, s, op), AgendaOf(cfg, env, s, op).value)
  {
    EndMatches(env, s, op.task, op.result, AgendaOf(cfg, env, s, op).value);
  }

  lemma TaskBeginMatches(cfg: Config, env: Env, s: Sys, t: TaskId)
    requires Enabled(s, DoTaskBegin(t)) && AgendaOf(cfg, env, s, DoTaskBegin(t)).Some?
    ensures Matches(FailWithoutBackend(env, s, t), AgendaOf(cfg, env, s, DoTaskBegin(t)).value)
  {
    RestFreesPlace(env, DropTask(s, t), s.tasks[t].id, Failed, Some(NO_BACKEND));
  }

  /** A step has an agenda exactly when it reaches the scheduler, or is an explicit start of a Queued download. */
  lemma SchedulesExactlyWithAgenda(cfg: Config, env: Env, s: Sys, op: Op)
    requires Enabled(s, op)
    ensures EndsInSchedule(cfg, env, s, op) <==> AgendaOf(cfg, env, s, op).Some? && !op.DoStart?
  {
    if (op.DoResume? && StateOf(s, op.id) == Some(Paused)) || (op.DoRetry? && StateOf(s, op.id) == Some(Failed)) {
      RequeueOutcome(env, s, op.id);
    }
  }

  lemma HandedIsSafe(cfg: Config, env: Env, s: Sys, op: Op)
    requires Safe(cfg, s) && Enabled(s, op) && !op.DoStart? && AgendaOf(cfg, env, s, op).Some?
    ensures Safe(cfg, Handed(cfg, env, s, op))
  {
    match op
    case DoEnqueue(id, spec) => AdmissionIsSafe(cfg, env, s, id, spec);
    case DoResume(id) => RequeueIsSafe(cfg, env, s, id);
    case DoRetry(id) => RequeueIsSafe(cfg, env, s, id);
    case DoRemove(id) => ForgetIsSafe(cfg, env, s, id);
    case DoTaskBegin(t) => FailureIsSafe(cfg, env, s, t);
    case DoTaskEnd(t, r) => SettleTaskIsSafe(cfg, env, s, t, r);
  }

  lemma CallMatches(cfg: Config, env: Env, s: Sys, op: Op)
    requires Enabled(s, op) && AgendaOf(cfg, env, s, op).Some?
    requires op.DoResume? || op.DoRetry? || op.DoRemove? || (op.DoEnqueue? && op.id !in s.downloads)
    ensures Matches(Handed(cfg, env, s, op), AgendaOf(cfg, env, s, op).value)
  {
    match op
    case DoEnqueue(id, spec) => AdmissionMatches(env, s, id, spec);
    case DoResume(id) => RequeueMatches(env, s, id);
    case DoRetry(id) => RequeueMatches(env, s, id);
    case DoRemove(id) => RemovalMatches(env, s, id);
  }

  lemma HandedMatches(cfg: Config, env: Env, s: Sys, op: Op)
    requires Enabled(s, op) && !op.DoStart? && AgendaOf(cfg, env, s, op).Some?
    requires op.DoEnqueue? ==> op.id !in s.downloads
    requires op.DoTaskEnd? && s.tasks[op.task].id in s.downloads ==> s.downloads[s.tasks[op.task].id].info.state.Active()
    ensures Matches(Handed(cfg, env, s, op), AgendaOf(cfg, env, s, op).value)
  {
    match op
    case DoEnqueue(_, _) => CallMatches(cfg, env, s, op);
    case DoResume(_) => CallMatches(cfg, env, s, op);
    case DoRetry(_) => CallMatches(cfg, env, s, op);
    case DoRemove(_) => CallMatches(cfg, env, s, op);
    case DoTaskBegin(t) => TaskBeginMatches(cfg, env, s, t);
    case DoTaskEnd(_, _) => TaskEndMatches(cfg, env, s, op);
  }

  /** The agenda is what the scheduler finds. */
  lemma AgendaIsHanded(cfg: Config, env: Env, s: Sys, op: Op)
    requires Safe(cfg, s) && Enabled(s, op) && !op.DoStart? && AgendaOf(cfg, env, s, op).Some?
    ensures Safe(cfg, Handed(cfg, env, s, op)) && Matches(Handed(cfg, env, s, op), AgendaOf(cfg, env, s, op).value)
  {
    HandedIsSafe(cfg, env, s, op);
    HandedMatches(cfg, env, s, op);
  }

  /** The scheduler starts what the agenda says the step begins. */
  lemma SelectsWhatBegins(cfg: Config, env: Env, s: Sys, op: Op)
    requires Safe(cfg, s) && Enabled(s, op) && EndsInSchedule(cfg, env, s, op)
    ensures var (m, r) := (Handed(cfg, env, s, op), Apply(cfg, env, s, op).0);
            && Safe(cfg, m) && r == Schedule(cfg, env, m) && Selected(cfg, m) == Begins(cfg, env, s, op)
            && m.dbCalls == AgendaOf(cfg, env, s, op).value.calls && m.ticks == AgendaOf(cfg, env, s, op).value.ticks
  {
    SchedulesExactlyWithAgenda(cfg, env, s, op);
    AgendaIsHanded(cfg, env, s, op);
    SchedulesWhatItHands(cfg, env, s, op);
  }

  /** The scheduler's first start, and what is left for it to do. */
  lemma FirstSelected(cfg: Config, env: Env, s: Sys)
    requires Safe(cfg, s) && Selected(cfg, s) != []
    ensures var (ids, s1) := (Selected(cfg, s), StartOne(env, s, Selected(cfg, s)[0]));
            && StateOf(s, ids[0]) == Some(Queued) && ids[0] !in ids[1..]
            && Safe(cfg, s1) && Selected(cfg, s1) == ids[1..]
  {
    var ids := Selected(cfg, s);
    assert ids[0] == s.queue[0] && ids[0] in s.queue;
    SelectionShrinks(cfg, env, s);
    StartOneIsSafe(cfg, env, s, ids[0]);
    Tail(s.queue);
  }

  // ---------------------------------------------------------------- whom a step begins

  /** Nobody on the agenda is active, and what comes before the scheduling makes nobody active. */
  lemma AgendaIsAtRest(cfg: Config, env: Env, s: Sys, op: Op, x: Id)
    requires Safe(cfg, s) && Enabled(s, op) && AgendaOf(cfg, env, s, op).Some?
    ensures x in AgendaOf(cfg, env, s, op).value.queue ==> x !in ActiveIds(s.downloads)
  {}

  /** Coming to rest, and nothing else, is what a task that is over does to its download. */
  lemma SettledIsNotActive(cfg: Config, env: Env, s: Sys, op: Op, x: Id)
    requires Safe(cfg, s) && Enabled(s, op) && (op.DoTaskBegin? || op.DoTaskEnd?) && EndsInSchedule(cfg, env, s, op)
    ensures x in ActiveIds(Handed(cfg, env, s, op).downloads) ==> x in ActiveIds(s.downloads)
  {
    if op.DoTaskEnd? {
      SettleFreesPlace(env, DropTask(s, op.task), s.tasks[op.task].id, op.result);
    } else {
      RestFreesPlace(env, DropTask(s, op.task), s.tasks[op.task].id, Failed, Some(NO_BACKEND));
    }
  }

  lemma RequeuedIsNotActive(env: Env, s: Sys, id: Id, x: Id)
    requires StateOf(s, id) == Some(Paused) || StateOf(s, id) == Some(Failed)
    ensures x in ActiveIds(Requeue(env, s, id).0.downloads) <==> x in ActiveIds(s.downloads)
  {}

  lemma ArrivalActivatesNobody(env: Env, s: Sys, id: Id, spec: Spec, x: Id)
    ensures x in ActiveIds(Admitted(env, s, id, spec).downloads) ==> x in ActiveIds(s.downloads)
    ensures x in ActiveIds(Record(env, s, id, spec).0.downloads) ==> x in ActiveIds(s.downloads)
  {}

  lemma ForgettingActivatesNobody(env: Env, s: Sys, id: Id, x: Id)
    ensures x in ActiveIds(Forget(env, s, id).0.downloads) ==> x in ActiveIds(s.downloads)
  {}

  lemma HandedActivatesNobody(cfg: Config, env: Env, s: Sys, op: Op, x: Id)
    requires Safe(cfg, s) && Enabled(s, op) && EndsInSchedule(cfg, env, s, op)
    requires x in ActiveIds(Handed(cfg, env, s, op).downloads)
    ensures x in ActiveIds(s.downloads)
  {
    match op
    case DoEnqueue(id, spec) => ArrivalActivatesNobody(env, s, id, spec, x);
    case DoRemove(id) => ForgettingActivatesNobody(env, s, id, x);
    case DoResume(id) => RequeuedIsNotActive(env, s, id, x);
    case DoRetry(id) => RequeuedIsNotActive(env, s, id, x);
    case DoTaskBegin(_) => SettledIsNotActive(cfg, env, s, op, x);
    case DoTaskEnd(_, _) => SettledIsNotActive(cfg, env, s, op, x);
    case _ =>
  }

  lemma ScheduledBecomeActive(cfg: Config, env: Env, s: Sys, x: Id)
    requires Safe(cfg, s)
    ensures x in ActiveIds(Schedule(cfg, env, s).downloads) <==> x in ActiveIds(s.downloads) || x in Selected(cfg, s)
  {
    ScheduleEffect(cfg, env, s);
  }

  /** An explicit start begins the one download it names, if that is Queued and there is room. */
  lemma StartBegins(cfg: Config, env: Env, s: Sys, id: Id)
    ensures Begins(cfg, env, s, DoStart(id))
         == if StateOf(s, id) == Some(Queued) && CountActive(s.downloads) < cfg.limit then [id] else []
  {}

  lemma StartActivatesOne(cfg: Config, env: Env, s: Sys, id: Id, x: Id)
    requires Safe(cfg, s)
    ensures x in Begins(cfg, env, s, DoStart(id)) <==>
              x in ActiveIds(Start(cfg, env, s, id).0.downloads) && x !in ActiveIds(s.downloads)
  {
    StartBegins(cfg, env, s, id);
    if StateOf(s, id) == Some(Queued) && CountActive(s.downloads) < cfg.limit {
      BeginEffect(env, s.(queue := Without(s.queue, id)), id);
    }
  }

  lemma CancelActivatesNobody(env: Env, s: Sys, id: Id, x: Id)
    ensures x in ActiveIds(Cancel(env, s, id).0.downloads) ==> x in ActiveIds(s.downloads)
  {
    if id in s.downloads && !s.downloads[id].info.state.Active() && !s.downloads[id].info.state.Terminal() {
      RestFreesPlace(env, s.(queue := Without(s.queue, id)), id, Cancelled, Some("cancelled by user"));
    }
  }

  lemma ProgressActivatesNobody(env: Env, s: Sys, id: Id, downloaded: u64, total: Option<u64>, x: Id)
    ensures x in ActiveIds(Progress(env, s, id, downloaded, total).downloads) ==> x in ActiveIds(s.downloads)
  {}

  lemma RefusalActivatesNobody(cfg: Config, env: Env, s: Sys, id: Id, x: Id)
    ensures Resume(cfg, env, s, id).1.Rejected? && x in ActiveIds(Resume(cfg, env, s, id).0.downloads) ==>
              x in ActiveIds(s.downloads)
    ensures Retry(cfg, env, s, id).1.Rejected? && x in ActiveIds(Retry(cfg, env, s, id).0.downloads) ==>
              x in ActiveIds(s.downloads)
  {
    if StateOf(s, id) == Some(Paused) || StateOf(s, id) == Some(Failed) {
      RequeuedIsNotActive(env, s, id, x);
    }
  }

  lemma QuietCallActivatesNobody(cfg: Config, env: Env, s: Sys, op: Op, x: Id)
    requires Enabled(s, op) && (op.DoEnqueue? || op.DoResume? || op.DoRetry? || op.DoCancel? || op.DoRemove?)
    requires !EndsInSchedule(cfg, env, s, op) && x in ActiveIds(Apply(cfg, env, s, op).0.downloads)
    ensures x in ActiveIds(s.downloads)
  {
    match op
    case DoEnqueue(id, spec) => ArrivalActivatesNobody(env, s, id, spec, x);
    case DoResume(id) => RefusalActivatesNobody(cfg, env, s, id, x);
    case DoRetry(id) => RefusalActivatesNobody(cfg, env, s, id, x);
    case DoCancel(id) => CancelActivatesNobody(env, s, id, x);
    case DoRemove(id) => ForgettingActivatesNobody(env, s, id, x);
  }

  lemma QuietActivatesNobody(cfg: Config, env: Env, s: Sys, op: Op, x: Id)
    requires Enabled(s, op) && !EndsInSchedule(cfg, env, s, op) && !op.DoStart?
    requires x in ActiveIds(Apply(cfg, env, s, op).0.downloads)
    ensures x in ActiveIds(s.downloads)
  {
    match op
    case DoPause(_) =>
    case DoShutdown =>
    case DoTaskVanish(_) =>
    case DoProgress(id, n, total) => ProgressActivatesNobody(env, s, id, n, total, x);
    case DoTaskBegin(t) => assert TaskBegin(cfg, env, s, t).downloads == s.downloads;
    case _ => QuietCallActivatesNobody(cfg, env, s, op, x);
  }

  /** Every step, on any disk, makes exactly those downloads active that its agenda selects. */
  lemma BeginsWhatBecomesActive(cfg: Config, env: Env, s: Sys, op: Op, x: Id)
    requires Safe(cfg, s) && Enabled(s, op)
    ensures x in Begins(cfg, env, s, op) <==>
              x in ActiveIds(Apply(cfg, env, s, op).0.downloads) && x !in ActiveIds(s.downloads)
  {
    SchedulesExactlyWithAgenda(cfg, env, s, op);
    if EndsInSchedule(cfg, env, s, op) {
      ScheduledMakeActive(cfg, env, s, op, x);
    } else if op.DoStart? {
      StartActivatesOne(cfg, env, s, op.id, x);
    } else if x in ActiveIds(Apply(cfg, env, s, op).0.downloads) {
      QuietActivatesNobody(cfg, env, s, op, x);
    }
  }

  lemma ScheduledMakeActive(cfg: Config, env: Env, s: Sys, op: Op, x: Id)
    requires Safe(cfg, s) && Enabled(s, op) && EndsInSchedule(cfg, env, s, op)
    ensures x in Begins(cfg, env, s, op) <==>
              x in ActiveIds(Apply(cfg, env, s, op).0.downloads) && x !in ActiveIds(s.downloads)
  {
    var m := Handed(cfg, env, s, op);
    SchedulesExactlyWithAgenda(cfg, env, s, op);
    SelectsWhatBegins(cfg, env, s, op);
    ScheduledBecomeActive(cfg, env, m, x);
    AgendaIsAtRest(cfg, env, s, op, x);
    if x in ActiveIds(m.downloads) {
      HandedActivatesNobody(cfg, env, s, op, x);
    }
  }
}
