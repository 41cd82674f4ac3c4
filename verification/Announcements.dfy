/** What each step publishes and what each call answers, on any disk. */
module Announcements {
  import opened Wrappers
  import opened Lifecycle
  import opened Queues
  import opened ManagerModel
  import opened Safety
  import opened Scheduling
  import opened Fairness
  import opened Agendas
  import opened Histories

  /** A move and what is said about it, if the move was saved; nothing otherwise. */
  function Said(saved: bool, id: Id, from: DownloadState, to: DownloadState, said: seq<Event>): seq<Event> {
    if saved then [StateChanged(id, from, to)] + said else []
  }

  /** What starting `ids` publishes, first to last, with the saves from call number `calls` on. */
  function StartEvents(env: Env, calls: nat, ids: seq<Id>): seq<Event>
    decreases |ids|
  {
    if ids == [] then []
    else Said(env.disk(calls), ids[0], Queued, Starting, [OnStarted(ids[0])]) + StartEvents(env, calls + 1, ids[1..])
  }

  /** What a step publishes before it starts anybody. */
  function OwnEvents(cfg: Config, env: Env, s: Sys, op: Op): seq<Event>
    requires Enabled(s, op)
  {
    var saved := env.disk(s.dbCalls);
    match op
    case DoEnqueue(id, spec) => if spec.backend in cfg.backends && saved then [OnQueued(id)] else []
    case DoResume(id) =>
      if StateOf(s, id) == Some(Paused) then Said(saved, id, Paused, Queued, [OnResumed(id)]) else []
    case DoRetry(id) => if StateOf(s, id) == Some(Failed) then Said(saved, id, Failed, Queued, []) else []
    case DoCancel(id) =>
      if id in s.downloads && !s.downloads[id].info.state.Active() && !s.downloads[id].info.state.Terminal()
      then Said(saved, id, s.downloads[id].info.state, Cancelled, [OnCancelled(id)])
      else []
    case DoProgress(id, n, total) =>
      if id !in s.downloads then []
      else (if s.downloads[id].info.state.Starting? then [StateChanged(id, Starting, Downloading)] else [])
           + [OnProgress(id, n, total)]
    case DoTaskBegin(t) =>
      var id := s.tasks[t].id;
      if id in s.downloads && s.downloads[id].info.state.Active() && s.downloads[id].info.backend !in cfg.backends
      then Said(saved, id, s.downloads[id].info.state, Failed, [])
      else []
    case DoTaskEnd(t, r) => OutcomeEvents(env, s, s.tasks[t].id, r)
    case _ => []
  }

  /** What a step publishes. */
  function Events(cfg: Config, env: Env, s: Sys, op: Op): seq<Event>
    requires Enabled(s, op)
  {
    match AgendaOf(cfg, env, s, op)
    case None => OwnEvents(cfg, env, s, op)
    case Some(a) => OwnEvents(cfg, env, s, op) + StartEvents(env, a.calls, Begins(cfg, env, s, op))
  }

  lemma MoveSays(env: Env, s: Sys, id: Id, next: DownloadState, error: Option<string>)
    requires id in s.downloads && IsValidTransition(s.downloads[id].info.state, next)
    ensures var (r, reply) := TransitionState(env, s, id, next, error);
            && (reply.Accepted? <==> env.disk(s.dbCalls)) && (reply.Rejected? ==> reply == Rejected(Database))
            && r.log == s.log + Said(env.disk(s.dbCalls), id, s.downloads[id].info.state, next, [])
            && r.dbCalls == s.dbCalls + 1
  {
    assert s.log + [] == s.log;
    assert [StateChanged(id, s.downloads[id].info.state, next)] + [] == [StateChanged(id, s.downloads[id].info.state, next)];
  }

  lemma ThenSays(log: seq<Event>, saved: bool, id: Id, from: DownloadState, to: DownloadState, e: Event)
    requires saved
    ensures log + Said(saved, id, from, to, []) + [e] == log + Said(saved, id, from, to, [e])
  {}

  lemma StartOneSays(env: Env, s: Sys, id: Id)
    requires StateOf(s, id) == Some(Queued)
    ensures var r := StartOne(env, s, id);
            && r.log == s.log + Said(env.disk(s.dbCalls), id, Queued, Starting, [OnStarted(id)])
            && r.dbCalls == s.dbCalls + 1
  {
    var s0 := s.(queue := Without(s.queue, id));
    MoveSays(env, s0, id, Starting, None);
    if env.disk(s.dbCalls) {
      ThenSays(s.log, true, id, Queued, Starting, OnStarted(id));
    }
  }

  /** From `s` to `r` the starts of `ids` were published. */
  ghost predicate SaysStarts(env: Env, s: Sys, ids: seq<Id>, r: Sys) {
    r.log == s.log + StartEvents(env, s.dbCalls, ids)
  }

  lemma FirstThenOthers(env: Env, s: Sys, s1: Sys, ids: seq<Id>, r: Sys)
    requires ids != [] && s1.log == s.log + Said(env.disk(s.dbCalls), ids[0], Queued, Starting, [OnStarted(ids[0])])
    requires s1.dbCalls == s.dbCalls + 1 && SaysStarts(env, s1, ids[1..], r)
    ensures SaysStarts(env, s, ids, r)
  {}

  lemma {:induction false} ScheduleSays(cfg: Config, env: Env, s: Sys)
    requires Safe(cfg, s)
    ensures SaysStarts(env, s, Selected(cfg, s), Schedule(cfg, env, s))
    decreases |s.queue|
  {
    var ids := Selected(cfg, s);
    if ids != [] {
      var s1 := StartOne(env, s, ids[0]);
      FirstSelected(cfg, env, s);
      StartOneSays(env, s, ids[0]);
      ScheduleSays(cfg, env, s1);
      FirstThenOthers(env, s, s1, ids, Schedule(cfg, env, s));
    } else {
      assert s.log + [] == s.log;
    }
  }

  lemma RequeueSays(env: Env, s: Sys, id: Id)
    requires StateOf(s, id) == Some(Paused) || StateOf(s, id) == Some(Failed)
    ensures var (r, reply) := Requeue(env, s, id);
            && (reply.Accepted? <==> env.disk(s.dbCalls)) && (reply.Rejected? ==> reply == Rejected(Database))
            && r.log == s.log + Said(env.disk(s.dbCalls), id, s.downloads[id].info.state, Queued, [])
  {
    MoveSays(env, s, id, Queued, None);
  }

  lemma RequeueOpSays(cfg: Config, env: Env, s: Sys, op: Op)
    requires Enabled(s, op) && (op.DoResume? || op.DoRetry?) && EndsInSchedule(cfg, env, s, op)
    ensures Handed(cfg, env, s, op).log == s.log + OwnEvents(cfg, env, s, op)
  {
    SchedulesExactlyWithAgenda(cfg, env, s, op);
    RequeueSays(env, s, op.id);
    if op.DoResume? {
      ThenSays(s.log, true, op.id, Paused, Queued, OnResumed(op.id));
    }
  }

  lemma HandedSays(cfg: Config, env: Env, s: Sys, op: Op)
    requires Safe(cfg, s) && Enabled(s, op) && EndsInSchedule(cfg, env, s, op)
    ensures Handed(cfg, env, s, op).log == s.log + OwnEvents(cfg, env, s, op)
  {
    match op
    case DoEnqueue(_, _) => SchedulesExactlyWithAgenda(cfg, env, s, op);
    case DoResume(_) => RequeueOpSays(cfg, env, s, op);
    case DoRetry(_) => RequeueOpSays(cfg, env, s, op);
    case DoRemove(_) => assert s.log + [] == s.log;
    case DoTaskBegin(t) => MoveSays(env, DropTask(s, t), s.tasks[t].id, Failed, Some(NO_BACKEND));
    case DoTaskEnd(t, r) => SettleAnnounces(env, DropTask(s, t), s.tasks[t].id, r);
  }

  lemma StartSays(cfg: Config, env: Env, s: Sys, id: Id)
    requires Safe(cfg, s)
    ensures Start(cfg, env, s, id).0.log == s.log + Events(cfg, env, s, DoStart(id))
  {
    StartBegins(cfg, env, s, id);
    assert s.log + [] == s.log;
    if StateOf(s, id) == Some(Queued) && CountActive(s.downloads) < cfg.limit {
      StartOneSays(env, s, id);
      assert [id][1..] == [];
      assert StartEvents(env, s.dbCalls, [id]) == Said(env.disk(s.dbCalls), id, Queued, Starting, [OnStarted(id)]);
    }
  }

  lemma CancelSays(cfg: Config, env: Env, s: Sys, id: Id)
    ensures Cancel(env, s, id).0.log == s.log + OwnEvents(cfg, env, s, DoCancel(id))
  {
    assert s.log + [] == s.log;
    if id in s.downloads && !s.downloads[id].info.state.Active() && !s.downloads[id].info.state.Terminal() {
      MoveSays(env, s.(queue := Without(s.queue, id)), id, Cancelled, Some("cancelled by user"));
      if env.disk(s.dbCalls) {
        ThenSays(s.log, true, id, s.downloads[id].info.state, Cancelled, OnCancelled(id));
      }
    }
  }

  lemma ReportSays(cfg: Config, env: Env, s: Sys, id: Id, downloaded: u64, total: Option<u64>)
    ensures Progress(env, s, id, downloaded, total).log == s.log + OwnEvents(cfg, env, s, DoProgress(id, downloaded, total))
  {
    assert s.log + [] == s.log;
  }

  lemma RefusalSays(cfg: Config, env: Env, s: Sys, op: Op)
    requires Enabled(s, op) && (op.DoResume? || op.DoRetry?) && !EndsInSchedule(cfg, env, s, op)
    ensures Apply(cfg, env, s, op).0.log == s.log + OwnEvents(cfg, env, s, op)
  {
    assert s.log + [] == s.log;
    if StateOf(s, op.id) == Some(if op.DoResume? then Paused else Failed) {
      RequeueSays(env, s, op.id);
    }
  }

  lemma QuietSays(cfg: Config, env: Env, s: Sys, op: Op)
    requires Safe(cfg, s) && Enabled(s, op) && !EndsInSchedule(cfg, env, s, op) && !op.DoStart?
    ensures Apply(cfg, env, s, op).0.log == s.log + OwnEvents(cfg, env, s, op)
  {
    assert s.log + [] == s.log;
    match op
    case DoEnqueue(_, _) => SchedulesExactlyWithAgenda(cfg, env, s, op);
    case DoResume(_) => RefusalSays(cfg, env, s, op);
    case DoRetry(_) => RefusalSays(cfg, env, s, op);
    case DoCancel(id) => CancelSays(cfg, env, s, id);
    case DoProgress(id, n, total) => ReportSays(cfg, env, s, id, n, total);
    case _ =>
  }

  lemma OwnThenStarts(env: Env, s: Sys, own: seq<Event>, m: Sys, ids: seq<Id>, r: Sys)
    requires m.log == s.log + own && SaysStarts(env, m, ids, r)
    ensures r.log == s.log + (own + StartEvents(env, m.dbCalls, ids))
  {}

  lemma SchedulingStepSays(cfg: Config, env: Env, s: Sys, op: Op)
    requires Safe(cfg, s) && Enabled(s, op) && EndsInSchedule(cfg, env, s, op)
    ensures Apply(cfg, env, s, op).0.log == s.log + Events(cfg, env, s, op)
  {
    var m := Handed(cfg, env, s, op);
    SchedulesExactlyWithAgenda(cfg, env, s, op);
    SelectsWhatBegins(cfg, env, s, op);
    HandedSays(cfg, env, s, op);
    ScheduleSays(cfg, env, m);
    OwnThenStarts(env, s, OwnEvents(cfg, env, s, op), m, Begins(cfg, env, s, op), Apply(cfg, env, s, op).0);
  }

  /**
   * Every step, on any disk, publishes exactly its own events, and then, for each download it begins whose save works,
   * the move and the start, in the order of its agenda.
   */
  lemma StepPublishes(cfg: Config, env: Env, s: Sys, op: Op)
    requires Safe(cfg, s) && Enabled(s, op)
    ensures Apply(cfg, env, s, op).0.log == s.log + Events(cfg, env, s, op)
  {
    SchedulesExactlyWithAgenda(cfg, env, s, op);
    if EndsInSchedule(cfg, env, s, op) {
      SchedulingStepSays(cfg, env, s, op);
    } else if op.DoStart? {
      StartSays(cfg, env, s, op.id);
    } else {
      QuietSays(cfg, env, s, op);
    }
  }

  // ---------------------------------------------------------------- answers

  /** The call asks for something that the present state of the download does not allow. */
  predicate OutOfTurn(s: Sys, op: Op) {
    || (op.DoStart? && StateOf(s, op.id) != Some(Queued))
    || (op.DoPause? && StateOf(s, op.id) != Some(Starting) && StateOf(s, op.id) != Some(Downloading))
    || (op.DoResume? && StateOf(s, op.id) != Some(Paused))
    || (op.DoRetry? && StateOf(s, op.id) != Some(Failed))
    || (op.DoCancel? && (StateOf(s, op.id) == Some(Completed) || StateOf(s, op.id) == Some(Cancelled)))
  }

  /** The call answers for its first database call. */
  predicate AnswersForDisk(cfg: Config, s: Sys, op: Op) {
    || (op.DoEnqueue? && op.spec.backend in cfg.backends)
    || (op.DoResume? && StateOf(s, op.id) == Some(Paused))
    || (op.DoRetry? && StateOf(s, op.id) == Some(Failed))
    || (op.DoCancel? && (StateOf(s, op.id) == Some(Queued) || StateOf(s, op.id) == Some(Paused)
                         || StateOf(s, op.id) == Some(Failed)))
    || op.DoRemove?
  }

  lemma RequeueAnswers(cfg: Config, env: Env, s: Sys, id: Id)
    ensures StateOf(s, id) == Some(Paused) ==>
              Resume(cfg, env, s, id).1 == if env.disk(s.dbCalls) then Accepted else Rejected(Database)
    ensures StateOf(s, id) == Some(Failed) ==>
              Retry(cfg, env, s, id).1 == if env.disk(s.dbCalls) then Accepted else Rejected(Database)
  {
    if StateOf(s, id) == Some(Paused) || StateOf(s, id) == Some(Failed) {
      RequeueSays(env, s, id);
    }
  }

  lemma CancelAnswers(env: Env, s: Sys, id: Id)
    ensures StateOf(s, id) in {Some(Queued), Some(Paused), Some(Failed)} ==>
              Cancel(env, s, id).1 == if env.disk(s.dbCalls) then Accepted else Rejected(Database)
  {
    if StateOf(s, id) in {Some(Queued), Some(Paused), Some(Failed)} {
      MoveSays(env, s.(queue := Without(s.queue, id)), id, Cancelled, Some("cancelled by user"));
    }
  }

  /**
   * Every call is refused in these cases, for these reasons, and accepted otherwise. An explicit start answers neither
   * for a full limit nor for its save.
   */
  lemma StepAnswers(cfg: Config, env: Env, s: Sys, op: Op)
    requires Enabled(s, op)
    ensures var reply := Apply(cfg, env, s, op).1;
            && (reply == Rejected(NoBackend) <==> op.DoEnqueue? && op.spec.backend !in cfg.backends)
            && (reply == Rejected(Unknown) <==> op.DoCancel? && op.id !in s.downloads)
            && (reply == Rejected(WrongState) <==> OutOfTurn(s, op))
            && (reply == Rejected(Database) <==> AnswersForDisk(cfg, s, op) && !env.disk(s.dbCalls))
  {
    match op
    case DoResume(id) => RequeueAnswers(cfg, env, s, id);
    case DoRetry(id) => RequeueAnswers(cfg, env, s, id);
    case DoCancel(id) => CancelAnswers(env, s, id);
    case _ =>
  }
}
