/** What holds as well when every database call succeeds: memory, queue, database and event log tell one story. */
module Consistency {
  import opened Wrappers
  import opened Lifecycle
  import opened Queues
  import opened Scheduler
  import opened Records
  import opened ManagerModel
  import opened Safety

  ghost predicate Reliable(env: Env) {
    forall n :: env.disk(n)
  }

  // ---------------------------------------------------------------- memory against database

  /** The table says about `id` what memory says. */
  ghost predicate Agrees(downloads: Known, db: Table, id: Id) {
    && (id in downloads <==> id in db)
    && (id in downloads ==> db[id] == Encode(downloads[id].info) && downloads[id].info.id == id)
  }

  ghost predicate AgreeExcept(downloads: Known, db: Table, id: Id) {
    forall x :: x != id ==> Agrees(downloads, db, x)
  }

  /** Every row is one that a save wrote. */
  ghost predicate Canonical(db: Table) {
    forall x :: x in db ==> Encode(Decode(x, db[x])) == db[x]
  }

  /** The part of a row that the request fixed for good. */
  predicate SameRequest(a: Row, b: Row) {
    && a.url == b.url && a.destination == b.destination && a.backend == b.backend && a.overwrite == b.overwrite
    && a.createdAt == b.createdAt
  }

  /** If memory and table both know `id`, they know the same request, in the same state. */
  ghost predicate InStep(downloads: Known, db: Table, id: Id) {
    id in downloads && id in db ==>
      SameRequest(db[id], Encode(downloads[id].info)) && db[id].state == downloads[id].info.state
  }

  /** If memory and table both know `id`, they know the same request, and the table is at most one legal move behind. */
  ghost predicate AMoveBehind(downloads: Known, db: Table, id: Id) {
    id in downloads && id in db ==>
      && SameRequest(db[id], Encode(downloads[id].info))
      && (db[id].state == downloads[id].info.state || IsValidTransition(db[id].state, downloads[id].info.state))
  }

  /** A moment at which the table differs from memory in at most one record, and there by no more than that. */
  ghost predicate OneBehind(c: Snapshot) {
    (exists id :: AgreeExcept(c.downloads, c.db, id) && AMoveBehind(c.downloads, c.db, id)) && Canonical(c.db)
  }

  ghost predicate LagOk(snapshots: seq<Snapshot>) {
    forall i :: 0 <= i < |snapshots| ==> OneBehind(snapshots[i])
  }

  // ---------------------------------------------------------------- the event log

  /** Folds one event over the states it speaks of; None when the event does not fit them. */
  function ReplayEvent(m: map<Id, DownloadState>, e: Event): Option<map<Id, DownloadState>> {
    match e
    case OnQueued(id) => if id in m then None else Some(m[id := Queued])
    case StateChanged(id, from, to) =>
      if id in m && m[id] == from && IsValidTransition(from, to) then Some(m[id := to]) else None
    case _ => Some(m)
  }

  /** Folds the events published since position `n0` over the states known then. */
  function Replay(base: map<Id, DownloadState>, n0: nat, log: seq<Event>): Option<map<Id, DownloadState>> {
    if |log| <= n0 then Some(base)
    else
      match Replay(base, n0, log[..|log| - 1])
      case None => None
      case Some(m) => ReplayEvent(m, log[|log| - 1])
  }

  ghost predicate ReplayOk(base: map<Id, DownloadState>, n0: nat, log: seq<Event>, downloads: Known, seen: set<Id>) {
    && n0 <= |log|
    && var m := Replay(base, n0, log);
       && m.Some?
       && m.value.Keys <= seen
       && (forall id :: id in downloads ==> id in m.value && m.value[id] == downloads[id].info.state)
  }

  lemma QuietEvent(base: map<Id, DownloadState>, n0: nat, log: seq<Event>, e: Event, downloads: Known, seen: set<Id>)
    requires ReplayOk(base, n0, log, downloads, seen) && !e.OnQueued? && !e.StateChanged?
    ensures ReplayOk(base, n0, log + [e], downloads, seen)
  {}

  lemma SameStateSameReplay(base: map<Id, DownloadState>, n0: nat, log: seq<Event>, downloads: Known, seen: set<Id>,
                            id: Id, m: Managed)
    requires ReplayOk(base, n0, log, downloads, seen)
    requires id in downloads && downloads[id].info.state == m.info.state
    ensures ReplayOk(base, n0, log, downloads[id := m], seen)
  {}

  lemma MoveEvent(base: map<Id, DownloadState>, n0: nat, log: seq<Event>, downloads: Known, seen: set<Id>,
                  id: Id, m: Managed)
    requires ReplayOk(base, n0, log, downloads, seen)
    requires id in downloads && IsValidTransition(downloads[id].info.state, m.info.state)
    ensures ReplayOk(base, n0, log + [StateChanged(id, downloads[id].info.state, m.info.state)], downloads[id := m], seen)
  {}

  lemma ArrivalEvent(base: map<Id, DownloadState>, n0: nat, log: seq<Event>, downloads: Known, seen: set<Id>,
                     id: Id, m: Managed)
    requires ReplayOk(base, n0, log, downloads, seen) && id !in seen && m.info.state.Queued?
    ensures ReplayOk(base, n0, log + [OnQueued(id)], downloads[id := m], seen + {id})
  {}

  // ---------------------------------------------------------------- the invariant

  ghost predicate QueuedExcept(queue: seq<Id>, downloads: Known, id: Id) {
    forall x :: x in downloads && x != id && downloads[x].info.state.Queued? ==> x in queue
  }

  /** An active download has a task that will move it on, unless a shutdown took that task away. */
  ghost predicate OwnedExcept(downloads: Known, tasks: Tasks, aborted: set<TaskId>, id: Id) {
    forall x :: x in downloads && x != id && downloads[x].info.state.Active() ==>
      downloads[x].cancel.Some? && (downloads[x].cancel.value in tasks || downloads[x].cancel.value in aborted)
  }

  /** The story holds for every download but possibly `id`, which an operation is working on. */
  ghost predicate ConsistentBut(base: map<Id, DownloadState>, n0: nat, s: Sys, id: Id) {
    && QueuedExcept(s.queue, s.downloads, id)
    && OwnedExcept(s.downloads, s.tasks, s.aborted, id)
    && AgreeExcept(s.downloads, s.db, id) && Canonical(s.db)
    && LagOk(s.snapshots)
    && ReplayOk(base, n0, s.log, s.downloads, s.seen)
  }

  /** The story holds for `id`. */
  ghost predicate SettledAt(s: Sys, id: Id) {
    && Agrees(s.downloads, s.db, id)
    && (id in s.downloads && s.downloads[id].info.state.Queued? ==> id in s.queue)
    && (id in s.downloads && s.downloads[id].info.state.Active() ==>
          s.downloads[id].cancel.Some? && (s.downloads[id].cancel.value in s.tasks || s.downloads[id].cancel.value in s.aborted))
  }

  ghost predicate Consistent(base: map<Id, DownloadState>, n0: nat, s: Sys) {
    forall id :: ConsistentBut(base, n0, s, id) && SettledAt(s, id)
  }

  lemma ChangeLeavesOthers(queue: seq<Id>, downloads: Known, tasks: Tasks, aborted: set<TaskId>, id: Id, m: Managed)
    requires QueuedExcept(queue, downloads, id) && OwnedExcept(downloads, tasks, aborted, id)
    ensures QueuedExcept(queue, downloads[id := m], id) && OwnedExcept(downloads[id := m], tasks, aborted, id)
  {}

  lemma Settled(base: map<Id, DownloadState>, n0: nat, s: Sys, id: Id)
    requires ConsistentBut(base, n0, s, id) && SettledAt(s, id)
    ensures Consistent(base, n0, s)
  {}

  lemma Unsettled(base: map<Id, DownloadState>, n0: nat, s: Sys, id: Id)
    requires Consistent(base, n0, s)
    ensures ConsistentBut(base, n0, s, id) && SettledAt(s, id)
  {}

  // ---------------------------------------------------------------- primitives

  lemma ChangeKeepsAgreement(downloads: Known, db: Table, id: Id, m: Managed)
    requires AgreeExcept(downloads, db, id)
    ensures AgreeExcept(downloads[id := m], db, id)
  {
    var after := downloads[id := m];
    forall x | x != id
      ensures Agrees(after, db, x)
    {
      assert Agrees(downloads, db, x);
    }
  }

  lemma AgreeingIsInStep(downloads: Known, db: Table, id: Id)
    requires Agrees(downloads, db, id)
    ensures InStep(downloads, db, id)
  {}

  lemma SavedRowIsCanonical(db: Table, d: Download)
    requires Canonical(db)
    ensures Canonical(db[d.id := Encode(d)])
  {}

  lemma RememberKeepsLag(s: Sys, id: Id)
    requires LagOk(s.snapshots) && AgreeExcept(s.downloads, s.db, id) && Canonical(s.db)
    requires AMoveBehind(s.downloads, s.db, id)
    ensures LagOk(Remember(s).snapshots)
  {}

  /** Changing one record in memory leaves the table behind by that record; saving it catches up. */
  lemma ChangeKeepsLag(s: Sys, id: Id, info: Download)
    requires id in s.downloads && LagOk(s.snapshots) && AgreeExcept(s.downloads, s.db, id) && Canonical(s.db)
    requires AMoveBehind(s.downloads[id := s.downloads[id].(info := info)], s.db, id)
    ensures var r := SetInfo(s, id, info);
            LagOk(r.snapshots) && AgreeExcept(r.downloads, r.db, id)
  {
    ChangeKeepsAgreement(s.downloads, s.db, id, s.downloads[id].(info := info));
    RememberKeepsLag(s.(downloads := s.downloads[id := s.downloads[id].(info := info)]), id);
  }

  lemma SaveKeepsLag(env: Env, s: Sys, d: Download)
    requires LagOk(s.snapshots) && AgreeExcept(s.downloads, s.db, d.id) && Canonical(s.db) && env.disk(s.dbCalls)
    requires d.id in s.downloads ==> s.downloads[d.id].info == d
    ensures var r := Save(env, s, d).0;
            LagOk(r.snapshots) && AgreeExcept(r.downloads, r.db, d.id) && Canonical(r.db)
  {
    var r := s.(dbCalls := s.dbCalls + 1, db := if env.disk(s.dbCalls) then s.db[d.id := Encode(d)] else s.db);
    SavedRowIsCanonical(s.db, d);
    forall x | x != d.id
      ensures Agrees(r.downloads, r.db, x)
    {
      assert Agrees(s.downloads, s.db, x);
    }
    RememberKeepsLag(r, d.id);
  }

  // ---------------------------------------------------------------- the lifecycle step

  /** The record a legal move leaves. */
  function Moved(env: Env, s: Sys, id: Id, next: DownloadState, error: Option<string>): (info: Download)
    requires id in s.downloads
    ensures info.state == next && info.id == s.downloads[id].info.id
    ensures SameRequest(Encode(info), Encode(s.downloads[id].info))
  {
    Stamp(s.downloads[id].info, next, env.clock(s.ticks), error)
  }

  lemma TransitionKeepsLag(env: Env, s: Sys, id: Id, next: DownloadState, error: Option<string>)
    requires Reliable(env) && LagOk(s.snapshots) && AgreeExcept(s.downloads, s.db, id) && Canonical(s.db)
    requires id in s.downloads && s.downloads[id].info.id == id && InStep(s.downloads, s.db, id)
    requires IsValidTransition(s.downloads[id].info.state, next)
    ensures var (r, reply) := TransitionState(env, s, id, next, error);
            && reply.Accepted?
            && r == s.(ticks := r.ticks, dbCalls := r.dbCalls, db := r.db, snapshots := r.snapshots,
                       downloads := s.downloads[id := s.downloads[id].(info := Moved(env, s, id, next, error))],
                       log := s.log + [StateChanged(id, s.downloads[id].info.state, next)])
            && LagOk(r.snapshots) && AgreeExcept(r.downloads, r.db, id) && Canonical(r.db) && Agrees(r.downloads, r.db, id)
  {
    var info := Moved(env, s, id, next, error);
    var s0 := s.(ticks := s.ticks + 1);
    var s1 := SetInfo(s0, id, info);
    ChangeKeepsLag(s0, id, info);
    assert env.disk(s1.dbCalls);
    SaveKeepsLag(env, s1, info);
  }

  /** With a working database a legal move is accepted, saved and announced, and touches one download only. */
  lemma TransitionIsConsistent(base: map<Id, DownloadState>, n0: nat, env: Env, s: Sys, id: Id, next: DownloadState,
                               error: Option<string>)
    requires Reliable(env) && ConsistentBut(base, n0, s, id)
    requires id in s.downloads && s.downloads[id].info.id == id && InStep(s.downloads, s.db, id)
    requires IsValidTransition(s.downloads[id].info.state, next)
    ensures var (r, reply) := TransitionState(env, s, id, next, error);
            && reply.Accepted? && ConsistentBut(base, n0, r, id) && Agrees(r.downloads, r.db, id)
            && id in r.downloads && r.downloads[id].info.state == next && r.queue == s.queue
            && (!next.Active() && !next.Queued? ==> SettledAt(r, id))
  {
    TransitionKeepsLag(env, s, id, next, error);
    var m := s.downloads[id].(info := Moved(env, s, id, next, error));
    MoveEvent(base, n0, s.log, s.downloads, s.seen, id, m);
    ChangeLeavesOthers(s.queue, s.downloads, s.tasks, s.aborted, id, m);
  }

  /** Publishing an event the replay ignores. */
  lemma PublishIsConsistent(base: map<Id, DownloadState>, n0: nat, s: Sys, e: Event, id: Id)
    requires ConsistentBut(base, n0, s, id) && !e.OnQueued? && !e.StateChanged?
    ensures ConsistentBut(base, n0, Publish(s, e), id)
    ensures SettledAt(s, id) ==> Consistent(base, n0, Publish(s, e))
  {
    QuietEvent(base, n0, s.log, e, s.downloads, s.seen);
    if SettledAt(s, id) {
      Settled(base, n0, Publish(s, e), id);
    }
  }

  // ---------------------------------------------------------------- starting

  lemma SpawnIsConsistent(base: map<Id, DownloadState>, n0: nat, s: Sys, id: Id)
    requires ConsistentBut(base, n0, s, id) && Agrees(s.downloads, s.db, id)
    requires id in s.downloads && s.downloads[id].info.state.Starting?
    ensures Consistent(base, n0, Spawn(s, id))
  {
    var r := Spawn(s, id);
    ChangeLeavesOthers(s.queue, s.downloads, s.tasks, s.aborted, id, r.downloads[id]);
    ChangeKeepsAgreement(s.downloads, s.db, id, r.downloads[id]);
    SameStateSameReplay(base, n0, s.log, s.downloads, s.seen, id, r.downloads[id]);
    Settled(base, n0, r, id);
  }

  /** Taking a download off the queue unsettles that download only. */
  lemma DequeueIsConsistent(base: map<Id, DownloadState>, n0: nat, s: Sys, id: Id)
    requires Consistent(base, n0, s)
    ensures ConsistentBut(base, n0, s.(queue := Without(s.queue, id)), id) && Agrees(s.downloads, s.db, id)
  {
    Unsettled(base, n0, s, id);
  }

  lemma BeginIsConsistent(base: map<Id, DownloadState>, n0: nat, env: Env, s: Sys, id: Id)
    requires Reliable(env) && ConsistentBut(base, n0, s, id) && StateOf(s, id) == Some(Queued)
    requires s.downloads[id].info.id == id && InStep(s.downloads, s.db, id)
    ensures Consistent(base, n0, BeginDownload(env, s, id))
  {
    TransitionIsConsistent(base, n0, env, s, id, Starting, None);
    var s1 := TransitionState(env, s, id, Starting, None).0;
    PublishIsConsistent(base, n0, s1, OnStarted(id), id);
    SpawnIsConsistent(base, n0, Publish(s1, OnStarted(id)), id);
  }

  lemma StartOneIsConsistent(base: map<Id, DownloadState>, n0: nat, env: Env, s: Sys, id: Id)
    requires Reliable(env) && Consistent(base, n0, s) && StateOf(s, id) == Some(Queued)
    requires s.downloads[id].info.id == id
    ensures Consistent(base, n0, StartOne(env, s, id))
  {
    DequeueIsConsistent(base, n0, s, id);
    AgreeingIsInStep(s.downloads, s.db, id);
    BeginIsConsistent(base, n0, env, s.(queue := Without(s.queue, id)), id);
  }

  lemma {:induction false} ScheduleIsConsistent(base: map<Id, DownloadState>, n0: nat, cfg: Config, env: Env, s: Sys)
    requires Reliable(env) && Safe(cfg, s) && Consistent(base, n0, s)
    ensures Consistent(base, n0, Schedule(cfg, env, s))
    decreases |s.queue|
  {
    var ids := SelectForStart(s.queue, CountActive(s.downloads), cfg.limit);
    if ids != [] {
      assert ids[0] == s.queue[0] && s.queue[0] in s.queue;
      StartOneIsSafe(cfg, env, s, ids[0]);
      StartOneIsConsistent(base, n0, env, s, ids[0]);
      ScheduleIsConsistent(base, n0, cfg, env, StartOne(env, s, ids[0]));
    }
  }
}
