/** What records keep for good, and what the event log tells of each operation. */
module Histories {
  import opened Wrappers
  import opened Lifecycle
  import opened Queues
  import opened Records
  import opened ManagerModel
  import opened Safety
  import opened Scheduling
  import opened Recovery
  import opened Runs
  import opened Attempts

  // ---------------------------------------------------------------- what a record keeps

  /** From `d` to `e` the request is the same, and a start time once set stays. */
  ghost predicate Evolved(d: Download, e: Download) {
    && e.id == d.id && e.url == d.url && e.destination == d.destination && e.backend == d.backend
    && e.overwrite == d.overwrite && e.createdAt == d.createdAt
    && (d.startedAt.Some? ==> e.startedAt == d.startedAt)
  }

  ghost predicate EachEvolved(m: Known, n: Known) {
    forall x :: x in m && x in n ==> Evolved(m[x].info, n[x].info)
  }

  ghost predicate AllEvolved(s: Sys, r: Sys) {
    EachEvolved(s.downloads, r.downloads)
  }

  lemma StampEvolves(d: Download, next: DownloadState, now: Time, error: Option<string>)
    ensures Evolved(d, Stamp(d, next, now, error))
  {}

  lemma TransitionEvolves(env: Env, s: Sys, id: Id, next: DownloadState, error: Option<string>)
    ensures var r := TransitionState(env, s, id, next, error).0;
            AllEvolved(s, r) && r.downloads.Keys == s.downloads.Keys
  {
    if id in s.downloads && IsValidTransition(s.downloads[id].info.state, next) {
      var info := Stamp(s.downloads[id].info, next, env.clock(s.ticks), error);
      StampEvolves(s.downloads[id].info, next, env.clock(s.ticks), error);
      ChangeEvolves(s.downloads, id, s.downloads[id].(info := info));
    }
  }

  lemma ChangeEvolves(m: Known, id: Id, changed: Managed)
    requires id in m && Evolved(m[id].info, changed.info)
    ensures EachEvolved(m, m[id := changed])
  {}

  lemma BeginEvolves(env: Env, s: Sys, id: Id)
    ensures var r := BeginDownload(env, s, id);
            AllEvolved(s, r) && r.downloads.Keys == s.downloads.Keys
  {
    TransitionEvolves(env, s, id, Starting, None);
  }

  lemma {:induction false} ScheduleEvolves(cfg: Config, env: Env, s: Sys)
    ensures var r := Schedule(cfg, env, s);
            AllEvolved(s, r) && r.downloads.Keys == s.downloads.Keys
    decreases |s.queue|
  {
    var ids := Selected(cfg, s);
    if ids != [] {
      BeginEvolves(env, s.(queue := Without(s.queue, ids[0])), ids[0]);
      ScheduleEvolves(cfg, env, StartOne(env, s, ids[0]));
    }
  }

  lemma EvolvedThen(s: Sys, m: Sys, r: Sys)
    requires AllEvolved(s, m) && AllEvolved(m, r)
    requires r.downloads.Keys <= m.downloads.Keys || s.downloads.Keys <= m.downloads.Keys
    ensures AllEvolved(s, r)
  {}

  lemma ThenSchedule(cfg: Config, env: Env, s: Sys, m: Sys)
    requires AllEvolved(s, m)
    ensures AllEvolved(s, Schedule(cfg, env, m))
  {
    ScheduleEvolves(cfg, env, m);
    EvolvedThen(s, m, Schedule(cfg, env, m));
  }

  lemma SettleEvolves(env: Env, s: Sys, id: Id, r: BackendResult)
    ensures AllEvolved(s, Settle(env, s, id, r))
  {
    var s1 := s.(intents := s.intents - {id});
    match r
    case Finished(_, _, _) =>
      TransitionEvolves(env, RecordOutcome(env, s, id, r), id, Completed, None);
      EvolvedThen(s, RecordOutcome(env, s, id, r), Settle(env, s, id, r));
    case Stopped =>
      TransitionEvolves(env, s1, id, Paused, Some("paused by user"));
      TransitionEvolves(env, s1, id, Cancelled, Some("cancelled by user"));
    case Broken(error) => TransitionEvolves(env, s1, id, Failed, Some(error));
  }

  lemma TaskEvolves(cfg: Config, env: Env, s: Sys, op: Op)
    requires Enabled(s, op) && (op.DoTaskBegin? || op.DoTaskEnd?)
    ensures AllEvolved(s, Apply(cfg, env, s, op).0)
  {
    match op
    case DoTaskBegin(t) =>
      TransitionEvolves(env, DropTask(s, t), s.tasks[t].id, Failed, Some(NO_BACKEND));
      ThenSchedule(cfg, env, s, FailWithoutBackend(env, s, t));
    case DoTaskEnd(t, r) =>
      SettleEvolves(env, DropTask(s, t), s.tasks[t].id, r);
      ThenSchedule(cfg, env, s, SettleTask(env, s, t, r));
  }

  lemma RequeueEvolves(cfg: Config, env: Env, s: Sys, op: Op)
    requires op.DoResume? || op.DoRetry?
    ensures AllEvolved(s, Apply(cfg, env, s, op).0)
  {
    TransitionEvolves(env, s, op.id, Queued, None);
    ThenSchedule(cfg, env, s, Requeue(env, s, op.id).0);
    ThenSchedule(cfg, env, s, Publish(Requeue(env, s, op.id).0, OnResumed(op.id)));
  }

  lemma ArrivalEvolves(cfg: Config, env: Env, s: Sys, id: Id, spec: Spec)
    requires KeysOk(s.downloads, s.seen) && id !in s.seen
    ensures AllEvolved(s, Enqueue(cfg, env, s, id, spec).0)
  {
    ThenSchedule(cfg, env, s, Admitted(env, s, id, spec));
  }

  lemma StartEvolves(cfg: Config, env: Env, s: Sys, id: Id)
    ensures AllEvolved(s, Start(cfg, env, s, id).0)
  {
    if StateOf(s, id) == Some(Queued) && CountActive(s.downloads) < cfg.limit {
      BeginEvolves(env, s.(queue := Without(s.queue, id)), id);
    } else {
      assert Start(cfg, env, s, id).0 == s;
    }
  }

  lemma CancelEvolves(env: Env, s: Sys, id: Id)
    ensures AllEvolved(s, Cancel(env, s, id).0)
  {
    if id in s.downloads && !s.downloads[id].info.state.Active() && !s.downloads[id].info.state.Terminal() {
      TransitionEvolves(env, s.(queue := Without(s.queue, id)), id, Cancelled, Some("cancelled by user"));
    } else {
      assert Cancel(env, s, id).0.downloads == s.downloads;
    }
  }

  lemma RemovalEvolves(cfg: Config, env: Env, s: Sys, id: Id)
    ensures AllEvolved(s, RemoveDownload(cfg, env, s, id).0)
  {
    ThenSchedule(cfg, env, s, Forget(env, s, id).0);
  }

  lemma ProgressEvolves(env: Env, s: Sys, id: Id, downloaded: u64, total: Option<u64>)
    ensures AllEvolved(s, Progress(env, s, id, downloaded, total))
  {}

  lemma QuietEvolves(s: Sys, id: Id, t: TaskId)
    ensures AllEvolved(s, Pause(s, id).0) && AllEvolved(s, Shutdown(s)) && AllEvolved(s, DropTask(s, t))
  {}

  /** No step changes what a download was asked to be, nor the time it first started. */
  lemma StepEvolves(cfg: Config, env: Env, s: Sys, op: Op)
    requires Safe(cfg, s) && Enabled(s, op)
    ensures AllEvolved(s, Apply(cfg, env, s, op).0)
  {
    match op
    case DoEnqueue(id, spec) => ArrivalEvolves(cfg, env, s, id, spec);
    case DoStart(id) => StartEvolves(cfg, env, s, id);
    case DoPause(id) => QuietEvolves(s, id, 0);
    case DoResume(id) => RequeueEvolves(cfg, env, s, op);
    case DoCancel(id) => CancelEvolves(env, s, id);
    case DoRetry(id) => RequeueEvolves(cfg, env, s, op);
    case DoRemove(id) => RemovalEvolves(cfg, env, s, id);
    case DoShutdown => QuietEvolves(s, 0, 0);
    case DoProgress(id, n, total) => ProgressEvolves(env, s, id, n, total);
    case DoTaskBegin(t) => TaskEvolves(cfg, env, s, op);
    case DoTaskEnd(t, r) => TaskEvolves(cfg, env, s, op);
    case DoTaskVanish(t) => QuietEvolves(s, 0, t);
  }

  ghost predicate KnownFrom(trace: seq<Sys>, i: nat, k: nat, id: Id)
    requires k < |trace|
  {
    forall j :: i <= j <= k ==> id in trace[j].downloads
  }

  lemma KnownEarlier(trace: seq<Sys>, i: nat, k: nat, id: Id)
    requires i < k < |trace| && KnownFrom(trace, i, k, id)
    ensures KnownFrom(trace, i, k - 1, id)
    ensures id in trace[i].downloads && id in trace[k - 1].downloads && id in trace[k].downloads
  {}

  ghost predicate EvolvedBetween(trace: seq<Sys>, i: nat, k: nat, id: Id) {
    && i < |trace| && k < |trace| && id in trace[i].downloads && id in trace[k].downloads
    && Evolved(trace[i].downloads[id].info, trace[k].downloads[id].info)
  }

  lemma EvolvesOneMore(cfg: Config, env: Env, trace: seq<Sys>, ops: seq<Op>, k: nat, id: Id)
    requires Steps(cfg, env, trace, ops) && k < |ops| && Safe(cfg, trace[k])
    requires id in trace[k].downloads && id in trace[k + 1].downloads
    ensures EvolvedBetween(trace, k, k + 1, id)
  {
    StepEvolves(cfg, env, trace[k], ops[k]);
  }

  lemma EvolvedOn(trace: seq<Sys>, i: nat, j: nat, k: nat, id: Id)
    requires EvolvedBetween(trace, i, j, id) && EvolvedBetween(trace, j, k, id)
    ensures EvolvedBetween(trace, i, k, id)
  {}

  lemma {:induction false} RunEvolves(cfg: Config, env: Env, trace: seq<Sys>, ops: seq<Op>, i: nat, k: nat, id: Id)
    requires Steps(cfg, env, trace, ops) && Safe(cfg, trace[0]) && i < k < |trace| && KnownFrom(trace, i, k, id)
    ensures EvolvedBetween(trace, i, k, id)
    decreases k
  {
    KnownEarlier(trace, i, k, id);
    StepsAreSafe(cfg, env, trace, ops, k - 1);
    EvolvesOneMore(cfg, env, trace, ops, k - 1, id);
    if i < k - 1 {
      RunEvolves(cfg, env, trace, ops, i, k - 1, id);
      EvolvedOn(trace, i, k - 1, k, id);
    }
  }

  /** In every run, on any disk, a download keeps its request and its first start time for as long as it is known. */
  lemma RequestsNeverChange(cfg: Config, env: Env, trace: seq<Sys>, ops: seq<Op>, i: nat, k: nat, id: Id)
    requires Steps(cfg, env, trace, ops) && Safe(cfg, trace[0]) && i <= k < |trace|
    requires forall j :: i <= j <= k ==> id in trace[j].downloads
    ensures Evolved(trace[i].downloads[id].info, trace[k].downloads[id].info)
  {
    if i < k {
      RunEvolves(cfg, env, trace, ops, i, k, id);
    }
  }

  // ---------------------------------------------------------------- what the log tells

  /** The announcement of how an attempt ended. */
  function Announcement(id: Id, r: BackendResult, paused: bool): Event {
    match r
    case Finished(_, _, _) => OnCompleted(id)
    case Stopped => if paused then OnPaused(id) else OnCancelled(id)
    case Broken(error) => OnFailed(id, error)
  }

  /** The end of an attempt of `id` as the log should tell it: the move, if there is one and it is saved, and the announcement. */
  function OutcomeEvents(env: Env, s: Sys, id: Id, r: BackendResult): seq<Event>
  {
    var end := Announcement(id, r, id in s.intents);
    if id in s.downloads && env.disk(s.dbCalls)
    then [StateChanged(id, s.downloads[id].info.state, Verdict(r, id in s.intents)), end]
    else [end]
  }

  lemma MoveAnnounces(env: Env, s: Sys, id: Id, next: DownloadState, error: Option<string>, e: Event)
    requires id in s.downloads && IsValidTransition(s.downloads[id].info.state, next)
    ensures Publish(TransitionState(env, s, id, next, error).0, e).log
         == s.log + (if env.disk(s.dbCalls) then [StateChanged(id, s.downloads[id].info.state, next), e] else [e])
  {
    var l := s.log + [StateChanged(id, s.downloads[id].info.state, next)];
    assert l + [e] == s.log + [StateChanged(id, s.downloads[id].info.state, next), e];
  }

  lemma SettleAnnounces(env: Env, s: Sys, id: Id, r: BackendResult)
    requires id in s.downloads ==> s.downloads[id].info.state.Active()
    ensures Settle(env, s, id, r).log == s.log + OutcomeEvents(env, s, id, r)
  {
    if id in s.downloads {
      MovedAnnounces(env, s, id, r);
    }
  }

  lemma MovedAnnounces(env: Env, s: Sys, id: Id, r: BackendResult)
    requires id in s.downloads && s.downloads[id].info.state.Active()
    ensures Settle(env, s, id, r).log == s.log + OutcomeEvents(env, s, id, r)
  {
    var s1 := s.(intents := s.intents - {id});
    match r
    case Finished(_, _, _) => MoveAnnounces(env, RecordOutcome(env, s, id, r), id, Completed, None, OnCompleted(id));
    case Stopped =>
      if id in s.intents {
        MoveAnnounces(env, s1, id, Paused, Some("paused by user"), OnPaused(id));
      } else {
        MoveAnnounces(env, s1, id, Cancelled, Some("cancelled by user"), OnCancelled(id));
      }
    case Broken(error) => MoveAnnounces(env, s1, id, Failed, Some(error), OnFailed(id, error));
  }

  /** What opening announces of one listed record: nothing if it was at rest, else its move and what became of it. */
  function OpeningEvents(policy: RecoveryPolicy, ds: seq<Download>): seq<Event> {
    if ds == [] then []
    else
      var d := ds[0];
      (if !d.state.Active() then []
       else [StateChanged(d.id, d.state, RecoveredState(policy, d.state)),
             if policy.FailInterrupted? then OnFailed(d.id, INTERRUPTED) else OnQueued(d.id)])
      + OpeningEvents(policy, ds[1..])
  }

  lemma RecoverOneAnnounces(cfg: Config, env: Env, s: Sys, d: Download)
    requires RecoverOne(cfg, env, s, d).1
    ensures RecoverOne(cfg, env, s, d).0.log == s.log + OpeningEvents(cfg.policy, [d])
  {
    assert OpeningEvents(cfg.policy, [d][1..]) == [];
    if d.state.Active() {
      RecoverInFlight(cfg, env, s, d);
      var moved := StateChanged(d.id, d.state, RecoveredState(cfg.policy, d.state));
      var end := if cfg.policy.FailInterrupted? then OnFailed(d.id, INTERRUPTED) else OnQueued(d.id);
      assert (s.log + [moved]) + [end] == s.log + [moved, end];
    } else {
      assert s.log + [] == s.log;
    }
  }

  lemma {:induction false} RecoverAllAnnounces(cfg: Config, env: Env, s: Sys, ds: seq<Download>)
    requires RecoverAll(cfg, env, s, ds).1
    ensures RecoverAll(cfg, env, s, ds).0.log == s.log + OpeningEvents(cfg.policy, ds)
    decreases |ds|
  {
    if ds == [] {
      assert s.log + [] == s.log;
    } else {
      RecoverOneAnnounces(cfg, env, s, ds[0]);
      RecoverAllAnnounces(cfg, env, RecoverOne(cfg, env, s, ds[0]).0, ds[1..]);
      OneThenRest(cfg.policy, s.log, ds);
    }
  }

  lemma OneThenRest(policy: RecoveryPolicy, log: seq<Event>, ds: seq<Download>)
    requires ds != []
    ensures (log + OpeningEvents(policy, [ds[0]])) + OpeningEvents(policy, ds[1..]) == log + OpeningEvents(policy, ds)
  {
    assert OpeningEvents(policy, [ds[0]][1..]) == [];
    assert OpeningEvents(policy, ds) == OpeningEvents(policy, [ds[0]]) + OpeningEvents(policy, ds[1..]);
  }

  /** A finished opening has announced exactly the downloads it found in flight, oldest first. */
  lemma OpenAnnounces(cfg: Config, env: Env, db: Table)
    requires Open(cfg, env, db).1
    ensures Open(cfg, env, db).0.log == OpeningEvents(cfg.policy, Listing(db))
  {
    RecoverAllAnnounces(cfg, env, Loading(db), Listing(db));
    assert [] + OpeningEvents(cfg.policy, Listing(db)) == OpeningEvents(cfg.policy, Listing(db));
  }
}
