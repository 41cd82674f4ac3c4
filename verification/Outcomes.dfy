/** What each step makes of each record, field by field, on any disk. */
module Outcomes {
  import opened Wrappers
  import opened Lifecycle
  import opened Queues
  import opened Records
  import opened ManagerModel
  import opened Safety
  import opened SafeSteps
  import opened Scheduling
  import opened Fairness
  import opened Agendas

  // ---------------------------------------------------------------- what a move, and what a report, leaves

  /**
   * From `d` to `e` the download moved to `next` at `now`. Completing, and nothing else, sets the completion time;
   * it clears the error text, failing and cancelling replace it, any other move only sets it when given one.
   */
  ghost predicate MovedTo(d: Download, e: Download, next: DownloadState, now: Time, error: Option<string>) {
    && e.state == next && e.updatedAt == now
    && e.completedAt == (if next.Completed? then Some(now) else d.completedAt)
    && e.startedAt == (if next.Downloading? && d.startedAt.None? then Some(now) else d.startedAt)
    && (next.Completed? ==> e.error.None?)
    && (next.Failed? || next.Cancelled? ==> e.error == error)
    && (next.Queued? || next.Paused? || next.Starting? ==> e.error == if error.Some? then error else d.error)
    && (next.Downloading? ==> e.error == d.error)
    && e == d.(state := e.state, updatedAt := e.updatedAt, completedAt := e.completedAt, startedAt := e.startedAt,
               error := e.error)
  }

  /** From `d` to `e` a report came in at `now`. */
  ghost predicate ReportedTo(d: Download, e: Download, now: Time, downloaded: u64, total: Option<u64>) {
    && e.downloadedBytes == downloaded && e.updatedAt == now
    && (total.Some? ==> e.totalBytes == total) && (total.None? ==> e.totalBytes == d.totalBytes)
    && (d.state.Starting? ==> e.state.Downloading? && e.startedAt == Some(d.startedAt.UnwrapOr(now)))
    && (!d.state.Starting? ==> e.state == d.state && e.startedAt == d.startedAt)
    && e == d.(downloadedBytes := e.downloadedBytes, updatedAt := e.updatedAt, totalBytes := e.totalBytes,
               state := e.state, startedAt := e.startedAt)
  }

  /** From `d` to `e` the attempt ended with answer `r`, at `now`, and for a success completed at `later`. */
  ghost predicate EndedWith(d: Download, e: Download, r: BackendResult, paused: bool, now: Time, later: Time) {
    match r
    case Finished(downloaded, total, meta) =>
      MovedTo(d.(downloadedBytes := downloaded, meta := meta, totalBytes := if total.Some? then total else d.totalBytes), e,
              Completed, later, None)
    case Stopped =>
      if paused then MovedTo(d, e, Paused, now, Some("paused by user"))
      else MovedTo(d, e, Cancelled, now, Some("cancelled by user"))
    case Broken(error) => MovedTo(d, e, Failed, now, Some(error))
  }

  /** What the step itself, before it starts anybody, makes of the record `d` of download `x`. */
  ghost predicate OwnChange(cfg: Config, env: Env, s: Sys, op: Op, x: Id, d: Download, e: Download)
    requires Enabled(s, op)
  {
    var now := env.clock(s.ticks);
    match op
    case DoResume(id) => if x == id && d.state.Paused? then MovedTo(d, e, Queued, now, None) else e == d
    case DoRetry(id) => if x == id && d.state.Failed? then MovedTo(d, e, Queued, now, None) else e == d
    case DoCancel(id) =>
      if x == id && !d.state.Active() && !d.state.Terminal()
      then MovedTo(d, e, Cancelled, now, Some("cancelled by user"))
      else e == d
    case DoProgress(id, n, total) => if x == id then ReportedTo(d, e, now, n, total) else e == d
    case DoTaskBegin(t) =>
      if x == s.tasks[t].id && d.backend !in cfg.backends then MovedTo(d, e, Failed, now, Some(NO_BACKEND)) else e == d
    case DoTaskEnd(t, r) =>
      if x == s.tasks[t].id then EndedWith(d, e, r, x in s.intents, now, env.clock(s.ticks + 1)) else e == d
    case _ => e == d
  }

  /** Of `ids`, started in order from clock reading `ticks` on, `x` is moved to Starting; others stay. */
  ghost predicate StartedIn(env: Env, ticks: nat, ids: seq<Id>, x: Id, d: Download, e: Download) {
    if x in ids then MovedTo(d, e, Starting, env.clock(ticks + IndexOf(ids, x)), None) else e == d
  }

  // ---------------------------------------------------------------- the pieces of a step

  lemma MoveRecord(env: Env, s: Sys, id: Id, next: DownloadState, error: Option<string>)
    requires id in s.downloads && IsValidTransition(s.downloads[id].info.state, next)
    ensures var r := TransitionState(env, s, id, next, error).0;
            && id in r.downloads && r.ticks == s.ticks + 1
            && MovedTo(s.downloads[id].info, r.downloads[id].info, next, env.clock(s.ticks), error)
  {}

  lemma MoveOfAnother(env: Env, s: Sys, id: Id, next: DownloadState, error: Option<string>, x: Id)
    requires x != id || id !in s.downloads || !IsValidTransition(s.downloads[id].info.state, next)
    ensures var r := TransitionState(env, s, id, next, error).0;
            (x in r.downloads <==> x in s.downloads) && (x in s.downloads ==> r.downloads[x].info == s.downloads[x].info)
  {}

  lemma StartOneRecord(env: Env, s: Sys, id: Id, x: Id)
    requires StateOf(s, id) == Some(Queued) && x in s.downloads
    ensures var r := StartOne(env, s, id);
            && x in r.downloads && r.ticks == s.ticks + 1
            && (x == id ==> MovedTo(s.downloads[x].info, r.downloads[x].info, Starting, env.clock(s.ticks), None))
            && (x != id ==> r.downloads[x].info == s.downloads[x].info)
  {
    var s0 := s.(queue := Without(s.queue, id));
    MoveRecord(env, s0, id, Starting, None);
    if x != id {
      MoveOfAnother(env, s0, id, Starting, None, x);
    }
  }

  /** From `s` to `r` the downloads `ids` were started, first to last, as far as `x` is concerned. */
  ghost predicate AllStarted(env: Env, s: Sys, ids: seq<Id>, r: Sys, x: Id) {
    x in s.downloads && x in r.downloads && StartedIn(env, s.ticks, ids, x, s.downloads[x].info, r.downloads[x].info)
  }

  /** From `s` to `s1` the first of `ids` was. */
  ghost predicate FirstStarted(env: Env, s: Sys, ids: seq<Id>, s1: Sys, x: Id) {
    && x in s.downloads && x in s1.downloads && s1.ticks == s.ticks + 1 && ids != [] && ids[0] !in ids[1..]
    && if x == ids[0] then MovedTo(s.downloads[x].info, s1.downloads[x].info, Starting, env.clock(s.ticks), None)
       else s1.downloads[x].info == s.downloads[x].info
  }

  lemma FirstThenOthers(env: Env, s: Sys, ids: seq<Id>, s1: Sys, r: Sys, x: Id)
    requires FirstStarted(env, s, ids, s1, x) && AllStarted(env, s1, ids[1..], r, x)
    ensures AllStarted(env, s, ids, r, x)
  {}

  lemma FirstIsStarted(cfg: Config, env: Env, s: Sys, x: Id)
    requires Safe(cfg, s) && Selected(cfg, s) != [] && x in s.downloads
    ensures FirstStarted(env, s, Selected(cfg, s), StartOne(env, s, Selected(cfg, s)[0]), x)
  {
    FirstSelected(cfg, env, s);
    StartOneRecord(env, s, Selected(cfg, s)[0], x);
  }

  lemma {:induction false} ScheduleRecord(cfg: Config, env: Env, s: Sys, x: Id)
    requires Safe(cfg, s) && x in s.downloads
    ensures AllStarted(env, s, Selected(cfg, s), Schedule(cfg, env, s), x)
    decreases |s.queue|
  {
    var ids := Selected(cfg, s);
    if ids != [] {
      var s1 := StartOne(env, s, ids[0]);
      FirstIsStarted(cfg, env, s, x);
      FirstSelected(cfg, env, s);
      ScheduleRecord(cfg, env, s1, x);
      FirstThenOthers(env, s, ids, s1, Schedule(cfg, env, s), x);
    }
  }

  // ---------------------------------------------------------------- the steps

  /** Between `s` and `m` the step did what it does itself, as far as `x` is concerned. */
  ghost predicate DidItsOwn(cfg: Config, env: Env, s: Sys, op: Op, m: Sys, x: Id)
    requires Enabled(s, op)
  {
    x in s.downloads && x in m.downloads ==> OwnChange(cfg, env, s, op, x, s.downloads[x].info, m.downloads[x].info)
  }

  lemma MoveOfOne(env: Env, s: Sys, id: Id, next: DownloadState, error: Option<string>, x: Id)
    requires id in s.downloads && IsValidTransition(s.downloads[id].info.state, next) && x in s.downloads
    ensures var r := TransitionState(env, s, id, next, error).0;
            && x in r.downloads
            && if x == id then MovedTo(s.downloads[x].info, r.downloads[x].info, next, env.clock(s.ticks), error)
               else r.downloads[x].info == s.downloads[x].info
  {
    if x == id {
      MoveRecord(env, s, id, next, error);
    } else {
      MoveOfAnother(env, s, id, next, error, x);
    }
  }

  lemma RequeuedRecord(env: Env, s: Sys, id: Id, x: Id)
    requires (StateOf(s, id) == Some(Paused) || StateOf(s, id) == Some(Failed)) && x in s.downloads
    ensures var r := Requeue(env, s, id).0;
            && x in r.downloads
            && if x == id then MovedTo(s.downloads[x].info, r.downloads[x].info, Queued, env.clock(s.ticks), None)
               else r.downloads[x].info == s.downloads[x].info
  {
    MoveOfOne(env, s, id, Queued, None, x);
  }

  lemma EndedRecord(env: Env, s: Sys, id: Id, r: BackendResult)
    requires id in s.downloads && s.downloads[id].info.state.Active()
    ensures var m := Settle(env, s, id, r);
            && id in m.downloads
            && EndedWith(s.downloads[id].info, m.downloads[id].info, r, id in s.intents, env.clock(s.ticks),
                         env.clock(s.ticks + 1))
  {
    var s1 := s.(intents := s.intents - {id});
    match r
    case Finished(_, _, _) => MoveRecord(env, RecordOutcome(env, s, id, r), id, Completed, None);
    case Stopped =>
      if id in s.intents {
        MoveRecord(env, s1, id, Paused, Some("paused by user"));
      } else {
        MoveRecord(env, s1, id, Cancelled, Some("cancelled by user"));
      }
    case Broken(error) => MoveRecord(env, s1, id, Failed, Some(error));
  }

  lemma EndOfAnother(env: Env, s: Sys, id: Id, r: BackendResult, x: Id)
    requires x != id && x in s.downloads
    ensures var m := Settle(env, s, id, r); x in m.downloads && m.downloads[x].info == s.downloads[x].info
  {
    var s1 := s.(intents := s.intents - {id});
    match r
    case Finished(_, _, _) => MoveOfAnother(env, RecordOutcome(env, s, id, r), id, Completed, None, x);
    case Stopped =>
      MoveOfAnother(env, s1, id, Paused, Some("paused by user"), x);
      MoveOfAnother(env, s1, id, Cancelled, Some("cancelled by user"), x);
    case Broken(error) => MoveOfAnother(env, s1, id, Failed, Some(error), x);
  }

  lemma FailureDidItsOwn(cfg: Config, env: Env, s: Sys, t: TaskId, x: Id)
    requires Safe(cfg, s) && Enabled(s, DoTaskBegin(t)) && EndsInSchedule(cfg, env, s, DoTaskBegin(t)) && x in s.downloads
    ensures var m := FailWithoutBackend(env, s, t);
            x in m.downloads && DidItsOwn(cfg, env, s, DoTaskBegin(t), m, x)
  {
    MoveOfOne(env, DropTask(s, t), s.tasks[t].id, Failed, Some(NO_BACKEND), x);
  }

  lemma EndDidItsOwn(cfg: Config, env: Env, s: Sys, op: Op, x: Id)
    requires Safe(cfg, s) && Enabled(s, op) && op.DoTaskEnd? && x in s.downloads
    ensures x in Handed(cfg, env, s, op).downloads && DidItsOwn(cfg, env, s, op, Handed(cfg, env, s, op), x)
  {
    var id := s.tasks[op.task].id;
    if x == id {
      EndedItself(env, s, op.task, op.result);
    } else {
      EndOfAnother(env, DropTask(s, op.task), id, op.result, x);
    }
  }

  lemma EndedItself(env: Env, s: Sys, t: TaskId, r: BackendResult)
    requires t in s.tasks && s.tasks[t].id in s.downloads && s.downloads[s.tasks[t].id].info.state.Active()
    ensures var (id, m) := (s.tasks[t].id, SettleTask(env, s, t, r));
            && id in m.downloads
            && EndedWith(s.downloads[id].info, m.downloads[id].info, r, id in s.intents, env.clock(s.ticks),
                         env.clock(s.ticks + 1))
  {
    EndedRecord(env, DropTask(s, t), s.tasks[t].id, r);
  }

  lemma RequeueDidItsOwn(cfg: Config, env: Env, s: Sys, op: Op, x: Id)
    requires Enabled(s, op) && (op.DoResume? || op.DoRetry?) && EndsInSchedule(cfg, env, s, op) && x in s.downloads
    ensures x in Handed(cfg, env, s, op).downloads && DidItsOwn(cfg, env, s, op, Handed(cfg, env, s, op), x)
  {
    SchedulesExactlyWithAgenda(cfg, env, s, op);
    RequeuedRecord(env, s, op.id, x);
  }

  lemma ArrivalDidItsOwn(cfg: Config, env: Env, s: Sys, id: Id, spec: Spec, x: Id)
    requires Safe(cfg, s) && id !in s.seen && x in s.downloads
    ensures var m := Admitted(env, s, id, spec); x in m.downloads && DidItsOwn(cfg, env, s, DoEnqueue(id, spec), m, x)
  {}

  lemma ForgettingDidItsOwn(cfg: Config, env: Env, s: Sys, id: Id, x: Id)
    requires x in s.downloads
    ensures var m := Forget(env, s, id).0; (x != id ==> x in m.downloads) && DidItsOwn(cfg, env, s, DoRemove(id), m, x)
  {}

  lemma HandedDidItsOwn(cfg: Config, env: Env, s: Sys, op: Op, x: Id)
    requires Safe(cfg, s) && Enabled(s, op) && EndsInSchedule(cfg, env, s, op) && x in s.downloads
    ensures DidItsOwn(cfg, env, s, op, Handed(cfg, env, s, op), x)
    ensures op != DoRemove(x) ==> x in Handed(cfg, env, s, op).downloads
  {
    match op
    case DoEnqueue(id, spec) => ArrivalDidItsOwn(cfg, env, s, id, spec, x);
    case DoResume(_) => RequeueDidItsOwn(cfg, env, s, op, x);
    case DoRetry(_) => RequeueDidItsOwn(cfg, env, s, op, x);
    case DoRemove(id) => ForgettingDidItsOwn(cfg, env, s, id, x);
    case DoTaskBegin(t) => FailureDidItsOwn(cfg, env, s, t, x);
    case DoTaskEnd(_, _) => EndDidItsOwn(cfg, env, s, op, x);
  }

  lemma CancelDidItsOwn(cfg: Config, env: Env, s: Sys, id: Id, x: Id)
    requires x in s.downloads
    ensures DidItsOwn(cfg, env, s, DoCancel(id), Cancel(env, s, id).0, x)
  {
    if id in s.downloads && !s.downloads[id].info.state.Active() && !s.downloads[id].info.state.Terminal() {
      MoveOfOne(env, s.(queue := Without(s.queue, id)), id, Cancelled, Some("cancelled by user"), x);
    }
  }

  lemma ReportDidItsOwn(cfg: Config, env: Env, s: Sys, id: Id, downloaded: u64, total: Option<u64>, x: Id)
    requires x in s.downloads
    ensures DidItsOwn(cfg, env, s, DoProgress(id, downloaded, total), Progress(env, s, id, downloaded, total), x)
  {}

  lemma RefusalDidItsOwn(cfg: Config, env: Env, s: Sys, op: Op, x: Id)
    requires Enabled(s, op) && (op.DoResume? || op.DoRetry?) && !EndsInSchedule(cfg, env, s, op) && x in s.downloads
    ensures DidItsOwn(cfg, env, s, op, Apply(cfg, env, s, op).0, x)
  {
    if StateOf(s, op.id) == Some(if op.DoResume? then Paused else Failed) {
      RequeuedRecord(env, s, op.id, x);
    }
  }

  lemma QuietDidItsOwn(cfg: Config, env: Env, s: Sys, op: Op, x: Id)
    requires Safe(cfg, s) && Enabled(s, op) && !EndsInSchedule(cfg, env, s, op) && !op.DoStart? && x in s.downloads
    ensures DidItsOwn(cfg, env, s, op, Apply(cfg, env, s, op).0, x)
  {
    match op
    case DoEnqueue(id, spec) => RefusalKeepsMemory(cfg, env, s, id, spec);
    case DoResume(_) => RefusalDidItsOwn(cfg, env, s, op, x);
    case DoRetry(_) => RefusalDidItsOwn(cfg, env, s, op, x);
    case DoCancel(id) => CancelDidItsOwn(cfg, env, s, id, x);
    case DoProgress(id, n, total) => ReportDidItsOwn(cfg, env, s, id, n, total, x);
    case DoTaskBegin(t) => HandOverKeepsCount(cfg, env, s, t);
    case _ =>
  }

  /** From `d` to `e` the step made its own change of `x`, and then started it if its agenda says so. */
  ghost predicate Became(cfg: Config, env: Env, s: Sys, op: Op, x: Id, d: Download, e: Download)
    requires Enabled(s, op)
  {
    var ticks := if AgendaOf(cfg, env, s, op).Some? then AgendaOf(cfg, env, s, op).value.ticks else 0;
    exists own: Download ::
      OwnChange(cfg, env, s, op, x, d, own) && StartedIn(env, ticks, Begins(cfg, env, s, op), x, own, e)
  }

  lemma StartBecame(cfg: Config, env: Env, s: Sys, id: Id, x: Id)
    requires Safe(cfg, s) && x in s.downloads
    ensures var r := Start(cfg, env, s, id).0;
            x in r.downloads && Became(cfg, env, s, DoStart(id), x, s.downloads[x].info, r.downloads[x].info)
  {
    StartBegins(cfg, env, s, id);
    if StateOf(s, id) == Some(Queued) && CountActive(s.downloads) < cfg.limit {
      StartOneRecord(env, s, id, x);
    }
    assert OwnChange(cfg, env, s, DoStart(id), x, s.downloads[x].info, s.downloads[x].info);
  }

  lemma ScheduledBecame(cfg: Config, env: Env, s: Sys, op: Op, x: Id)
    requires Safe(cfg, s) && Enabled(s, op) && EndsInSchedule(cfg, env, s, op) && x in s.downloads && op != DoRemove(x)
    ensures var r := Apply(cfg, env, s, op).0;
            x in r.downloads && Became(cfg, env, s, op, x, s.downloads[x].info, r.downloads[x].info)
  {
    var m := Handed(cfg, env, s, op);
    SchedulesExactlyWithAgenda(cfg, env, s, op);
    SelectsWhatBegins(cfg, env, s, op);
    HandedDidItsOwn(cfg, env, s, op, x);
    ScheduleRecord(cfg, env, m, x);
    assert OwnChange(cfg, env, s, op, x, s.downloads[x].info, m.downloads[x].info);
  }

  /**
   * Every step, on any disk, in every field: a record that stays known is what the step's own change makes of it, and
   * then, if the step begins it, Starting as of that clock reading; without either it is as it was.
   */
  lemma RecordAfterStep(cfg: Config, env: Env, s: Sys, op: Op, x: Id)
    requires Safe(cfg, s) && Enabled(s, op) && x in s.downloads && x in Apply(cfg, env, s, op).0.downloads
    ensures Became(cfg, env, s, op, x, s.downloads[x].info, Apply(cfg, env, s, op).0.downloads[x].info)
  {
    if EndsInSchedule(cfg, env, s, op) {
      if op == DoRemove(x) {
        RemovalForgets(cfg, env, s, x);
      } else {
        ScheduledBecame(cfg, env, s, op, x);
      }
    } else if op.DoStart? {
      StartBecame(cfg, env, s, op.id, x);
    } else {
      SchedulesExactlyWithAgenda(cfg, env, s, op);
      QuietDidItsOwn(cfg, env, s, op, x);
    }
  }

  lemma RemovalForgets(cfg: Config, env: Env, s: Sys, id: Id)
    requires Safe(cfg, s)
    ensures id !in RemoveDownload(cfg, env, s, id).0.downloads
  {
    ForgetIsSafe(cfg, env, s, id);
    ScheduleEffect(cfg, env, Forget(env, s, id).0);
  }

  // ---------------------------------------------------------------- who is known

  /** The downloads known after a step: an accepted enqueue adds its newcomer, a removal forgets its victim. */
  function KnownAfter(cfg: Config, env: Env, s: Sys, op: Op): set<Id> {
    match op
    case DoEnqueue(id, spec) =>
      if spec.backend in cfg.backends && env.disk(s.dbCalls) then s.downloads.Keys + {id} else s.downloads.Keys
    case DoRemove(id) => s.downloads.Keys - {id}
    case _ => s.downloads.Keys
  }

  lemma MoveKeepsKeys(env: Env, s: Sys, id: Id, next: DownloadState, error: Option<string>)
    ensures TransitionState(env, s, id, next, error).0.downloads.Keys == s.downloads.Keys
  {}

  lemma EndKeepsKeys(env: Env, s: Sys, id: Id, r: BackendResult)
    ensures Settle(env, s, id, r).downloads.Keys == s.downloads.Keys
  {
    var s1 := s.(intents := s.intents - {id});
    match r
    case Finished(_, _, _) => MoveKeepsKeys(env, RecordOutcome(env, s, id, r), id, Completed, None);
    case Stopped =>
      MoveKeepsKeys(env, s1, id, Paused, Some("paused by user"));
      MoveKeepsKeys(env, s1, id, Cancelled, Some("cancelled by user"));
    case Broken(error) => MoveKeepsKeys(env, s1, id, Failed, Some(error));
  }

  lemma HandedKeys(cfg: Config, env: Env, s: Sys, op: Op)
    requires Enabled(s, op) && EndsInSchedule(cfg, env, s, op)
    ensures Handed(cfg, env, s, op).downloads.Keys == KnownAfter(cfg, env, s, op)
  {
    match op
    case DoEnqueue(id, spec) => SchedulesExactlyWithAgenda(cfg, env, s, op);
    case DoResume(id) => MoveKeepsKeys(env, s, id, Queued, None);
    case DoRetry(id) => MoveKeepsKeys(env, s, id, Queued, None);
    case DoRemove(_) =>
    case DoTaskBegin(t) => MoveKeepsKeys(env, DropTask(s, t), s.tasks[t].id, Failed, Some(NO_BACKEND));
    case DoTaskEnd(t, r) => EndKeepsKeys(env, DropTask(s, t), s.tasks[t].id, r);
  }

  lemma StartKeepsKeys(env: Env, s: Sys, id: Id)
    ensures StartOne(env, s, id).downloads.Keys == s.downloads.Keys
  {
    MoveKeepsKeys(env, s.(queue := Without(s.queue, id)), id, Starting, None);
  }

  lemma QuietKeys(cfg: Config, env: Env, s: Sys, op: Op)
    requires Enabled(s, op) && !EndsInSchedule(cfg, env, s, op)
    ensures Apply(cfg, env, s, op).0.downloads.Keys == KnownAfter(cfg, env, s, op)
  {
    match op
    case DoEnqueue(id, spec) => RefusalKeepsMemory(cfg, env, s, id, spec);
    case DoStart(id) => StartKeepsKeys(env, s, id);
    case DoResume(id) => MoveKeepsKeys(env, s, id, Queued, None);
    case DoRetry(id) => MoveKeepsKeys(env, s, id, Queued, None);
    case DoCancel(id) => CancelKeepsKeys(env, s, id);
    case DoTaskBegin(t) => HandOverKeepsCount(cfg, env, s, t);
    case DoProgress(id, n, total) => ReportKeepsKeys(env, s, id, n, total);
    case _ =>
  }

  lemma CancelKeepsKeys(env: Env, s: Sys, id: Id)
    ensures Cancel(env, s, id).0.downloads.Keys == s.downloads.Keys
  {
    MoveKeepsKeys(env, s.(queue := Without(s.queue, id)), id, Cancelled, Some("cancelled by user"));
  }

  lemma ReportKeepsKeys(env: Env, s: Sys, id: Id, downloaded: u64, total: Option<u64>)
    ensures Progress(env, s, id, downloaded, total).downloads.Keys == s.downloads.Keys
  {}

  /** Every step, on any disk: exactly these downloads are known afterwards. */
  lemma KnownAfterStep(cfg: Config, env: Env, s: Sys, op: Op)
    requires Safe(cfg, s) && Enabled(s, op)
    ensures Apply(cfg, env, s, op).0.downloads.Keys == KnownAfter(cfg, env, s, op)
  {
    if EndsInSchedule(cfg, env, s, op) {
      SchedulesExactlyWithAgenda(cfg, env, s, op);
      SelectsWhatBegins(cfg, env, s, op);
      HandedKeys(cfg, env, s, op);
      ScheduleEffect(cfg, env, Handed(cfg, env, s, op));
    } else {
      QuietKeys(cfg, env, s, op);
    }
  }

  /** The record that an accepted enqueue makes of its request. */
  ghost predicate Requested(d: Download, id: Id, spec: Spec, now: Time) {
    && d.id == id && d.url == spec.url && d.destination == spec.destination && d.backend == spec.backend
    && d.overwrite == spec.overwrite && d.meta == spec.meta
    && d.state.Queued? && d.downloadedBytes == 0 && d.totalBytes.None? && d.error.None?
    && d.createdAt == now && d.updatedAt == now && d.startedAt.None? && d.completedAt.None?
  }

  /** `e` is the record of the request, started if the agenda says so. */
  ghost predicate Arrived(cfg: Config, env: Env, s: Sys, id: Id, spec: Spec, e: Download)
    requires id !in s.seen
  {
    exists own: Download ::
      Requested(own, id, spec, env.clock(s.ticks))
      && StartedIn(env, s.ticks + 1, Begins(cfg, env, s, DoEnqueue(id, spec)), id, own, e)
  }

  lemma AdmittedAsRequested(env: Env, s: Sys, id: Id, spec: Spec)
    ensures var m := Admitted(env, s, id, spec);
            && id in m.downloads && m.ticks == s.ticks + 1
            && Requested(m.downloads[id].info, id, spec, env.clock(s.ticks))
  {}

  lemma ThenArrived(cfg: Config, env: Env, s: Sys, id: Id, spec: Spec, m: Sys, r: Sys)
    requires id !in s.seen && id in m.downloads && Requested(m.downloads[id].info, id, spec, env.clock(s.ticks))
    requires m.ticks == s.ticks + 1 && AllStarted(env, m, Begins(cfg, env, s, DoEnqueue(id, spec)), r, id)
    ensures Arrived(cfg, env, s, id, spec, r.downloads[id].info)
  {}

  /** An accepted enqueue records the request as asked for, and starts it if the agenda says so. */
  lemma NewcomerAfterStep(cfg: Config, env: Env, s: Sys, id: Id, spec: Spec)
    requires Safe(cfg, s) && id !in s.seen && spec.backend in cfg.backends && env.disk(s.dbCalls)
    ensures var r := Enqueue(cfg, env, s, id, spec).0;
            id in r.downloads && Arrived(cfg, env, s, id, spec, r.downloads[id].info)
  {
    var op, m := DoEnqueue(id, spec), Admitted(env, s, id, spec);
    SchedulesExactlyWithAgenda(cfg, env, s, op);
    SelectsWhatBegins(cfg, env, s, op);
    AdmittedAsRequested(env, s, id, spec);
    ScheduleRecord(cfg, env, m, id);
    ThenArrived(cfg, env, s, id, spec, m, Enqueue(cfg, env, s, id, spec).0);
  }
}
