/** What holds in every reachable state, however many database calls fail. */
module Safety {
  import opened Wrappers
  import opened Lifecycle
  import opened Queues
  import opened Scheduler
  import opened Records
  import opened Bandwidth
  import opened ManagerModel

  type Tasks = map<TaskId, Task>

  // ---------------------------------------------------------------- the invariant, part by part

  ghost predicate QueueOk(limit: nat, queue: seq<Id>, downloads: Known) {
    && NoDup(queue)
    && (forall id :: id in queue ==> id in downloads && downloads[id].info.state.Queued?)
    && CountActive(downloads) <= limit
  }

  ghost predicate KeysOk(downloads: Known, seen: set<Id>) {
    forall id :: id in downloads ==> id in seen && downloads[id].info.id == id
  }

  /** A live task of a known download owns it: the download is active and holds this very task's signal. */
  ghost predicate TasksOk(tasks: Tasks, running: seq<TaskId>, downloads: Known, nextTask: TaskId, seen: set<Id>) {
    && (forall t :: t in tasks ==>
          && t < nextTask && tasks[t].id in seen
          && (tasks[t].id in downloads ==>
                downloads[tasks[t].id].info.state.Active() && downloads[tasks[t].id].cancel == Some(t)))
    && (forall id :: id in downloads && downloads[id].cancel.Some? ==>
          && downloads[id].cancel.value < nextTask
          && (downloads[id].cancel.value in tasks ==> tasks[downloads[id].cancel.value].id == id))
    && NoDup(running)
    && (forall t :: t in running <==> t in tasks && tasks[t].Running?)
  }

  /** A pause intent outlives its download's activity only when the download completed or was removed. */
  ghost predicate IntentsOk(backends: set<BackendKind>, intents: set<Id>, downloads: Known, seen: set<Id>) {
    forall id :: id in intents ==>
      && id in seen
      && (id in downloads && downloads[id].info.backend in backends ==>
            downloads[id].info.state.Active() || downloads[id].info.state.Completed?)
  }

  /** The intent of a download with a live task was given to that very attempt. */
  ghost predicate PausesOk(backends: set<BackendKind>, intents: set<Id>, pausedTries: set<TaskId>, tasks: Tasks,
                           downloads: Known, nextTask: TaskId) {
    && (forall t :: t in pausedTries ==> t < nextTask)
    && (forall t :: t in tasks && tasks[t].id in downloads && downloads[tasks[t].id].info.backend in backends ==>
          (t in pausedTries <==> tasks[t].id in intents))
  }

  /** A task of a known download that is inside its backend. */
  ghost predicate Held(t: TaskId, tasks: Tasks, known: set<Id>) {
    t in tasks && tasks[t].Running? && tasks[t].id in known
  }

  ghost function Rank(ts: seq<TaskId>, tasks: Tasks, known: set<Id>): nat {
    if ts == [] then 0
    else Rank(ts[..|ts| - 1], tasks, known) + if Held(ts[|ts| - 1], tasks, known) then 1 else 0
  }

  /** The k-th held task, in the order they entered their backends, saw at least k active downloads. */
  ghost predicate Ranked(ts: seq<TaskId>, tasks: Tasks, known: set<Id>) {
    ts == [] || (&& Ranked(ts[..|ts| - 1], tasks, known)
                 && (Held(ts[|ts| - 1], tasks, known) ==> tasks[ts[|ts| - 1]].seenActive >= Rank(ts, tasks, known)))
  }

  ghost predicate RatesOk(cfg: Config, tasks: Tasks) {
    forall t :: t in tasks && tasks[t].Running? ==>
      1 <= tasks[t].seenActive <= cfg.limit && tasks[t].rate == LimiterFor(cfg.cap, tasks[t].seenActive)
  }

  ghost predicate Safe(cfg: Config, s: Sys) {
    && QueueOk(cfg.limit, s.queue, s.downloads)
    && KeysOk(s.downloads, s.seen)
    && TasksOk(s.tasks, s.running, s.downloads, s.nextTask, s.seen)
    && IntentsOk(cfg.backends, s.intents, s.downloads, s.seen)
    && PausesOk(cfg.backends, s.intents, s.pausedTries, s.tasks, s.downloads, s.nextTask)
    && Ranked(s.running, s.tasks, s.downloads.Keys)
    && RatesOk(cfg, s.tasks)
  }

  // ---------------------------------------------------------------- counting

  lemma ActiveAfterUpdate(downloads: Known, id: Id, m: Managed)
    ensures ActiveIds(downloads[id := m])
         == (ActiveIds(downloads) - {id}) + (if m.info.state.Active() then {id} else {})
    ensures !m.info.state.Active() ==> CountActive(downloads[id := m]) <= CountActive(downloads)
    ensures id in ActiveIds(downloads) ==> CountActive(downloads[id := m]) <= CountActive(downloads)
    ensures CountActive(downloads[id := m]) <= CountActive(downloads) + 1
    ensures m.info.state.Active() && id !in ActiveIds(downloads) ==> CountActive(downloads[id := m]) == CountActive(downloads) + 1
    ensures m.info.state.Active() && id in ActiveIds(downloads) ==> CountActive(downloads[id := m]) == CountActive(downloads)
    ensures !m.info.state.Active() && id !in ActiveIds(downloads) ==> CountActive(downloads[id := m]) == CountActive(downloads)
  {
    var before, after := ActiveIds(downloads), ActiveIds(downloads[id := m]);
    assert after == (before - {id}) + (if m.info.state.Active() then {id} else {});
    if id in before {
      assert before == (before - {id}) + {id};
    } else {
      assert before - {id} == before;
    }
  }

  lemma ActiveAfterRemoval(downloads: Known, id: Id)
    ensures ActiveIds(downloads - {id}) == ActiveIds(downloads) - {id}
    ensures CountActive(downloads - {id}) <= CountActive(downloads)
  {}

  lemma {:induction false} RanksOnlyFall(ts: seq<TaskId>, tasks: Tasks, known: set<Id>, tasks': Tasks, known': set<Id>)
    requires Ranked(ts, tasks, known)
    requires forall t :: t in ts && Held(t, tasks', known') ==> Held(t, tasks, known) && tasks'[t] == tasks[t]
    ensures Ranked(ts, tasks', known') && Rank(ts, tasks', known') <= Rank(ts, tasks, known)
  {
    if ts != [] {
      RanksOnlyFall(ts[..|ts| - 1], tasks, known, tasks', known');
    }
  }

  lemma {:induction false} RankWithout(ts: seq<TaskId>, tasks: Tasks, known: set<Id>, t: TaskId)
    requires Ranked(ts, tasks, known)
    ensures Ranked(Without(ts, t), tasks, known) && Rank(Without(ts, t), tasks, known) <= Rank(ts, tasks, known)
  {
    if ts != [] {
      var front, last := ts[..|ts| - 1], ts[|ts| - 1];
      assert ts == front + [last];
      WithoutSnoc(front, last, t);
      RankWithout(front, tasks, known, t);
      if last != t {
        var r := Without(ts, t);
        assert r[..|r| - 1] == Without(front, t) && r[|r| - 1] == last;
      } else {
        assert Without(ts, t) == Without(front, t);
      }
    }
  }

  ghost function HeldIds(ts: seq<TaskId>, tasks: Tasks, known: set<Id>): set<Id> {
    set t | t in ts && Held(t, tasks, known) :: tasks[t].id
  }

  /** Held tasks belong to pairwise different downloads, so the rank counts downloads. */
  lemma {:induction false} RankCountsDownloads(ts: seq<TaskId>, tasks: Tasks, downloads: Known)
    requires NoDup(ts)
    requires forall t :: t in ts && Held(t, tasks, downloads.Keys) ==> downloads[tasks[t].id].cancel == Some(t)
    ensures Rank(ts, tasks, downloads.Keys) == |HeldIds(ts, tasks, downloads.Keys)|
  {
    var known := downloads.Keys;
    if ts != [] {
      var front, last := ts[..|ts| - 1], ts[|ts| - 1];
      assert ts == front + [last];
      assert last !in front;
      RankCountsDownloads(front, tasks, downloads);
      if Held(last, tasks, known) {
        assert HeldIds(ts, tasks, known) == HeldIds(front, tasks, known) + {tasks[last].id};
        assert tasks[last].id !in HeldIds(front, tasks, known);
      } else {
        assert HeldIds(ts, tasks, known) == HeldIds(front, tasks, known);
      }
    }
  }

  lemma SubsetSize<T>(a: set<T>, b: set<T>)
    requires a <= b
    ensures |a| <= |b|
  {
    assert b == a + (b - a);
  }

  // ---------------------------------------------------------------- one record changes

  ghost predicate NoTask(tasks: Tasks, id: Id) {
    forall t :: t in tasks ==> tasks[t].id != id
  }

  /** The two states agree on everything the invariant looks at, except the records. */
  ghost predicate SameFrame(s: Sys, r: Sys) {
    && r.queue == s.queue && r.intents == s.intents && r.tasks == s.tasks && r.running == s.running
    && r.nextTask == s.nextTask && r.seen == s.seen && r.pausedTries == s.pausedTries
  }

  /** What a change of one record must respect. */
  ghost predicate Permitted(cfg: Config, s: Sys, id: Id, info: Download) {
    && id in s.downloads && info.id == id && info.backend == s.downloads[id].info.backend
    && (info.state.Queued? || id !in s.queue)
    && (info.state.Active() ==> s.downloads[id].info.state.Active() || CountActive(s.downloads) < cfg.limit)
    && (!info.state.Active() ==> NoTask(s.tasks, id))
    && (id in s.intents && info.backend in cfg.backends ==> info.state.Active() || info.state.Completed?)
  }

  lemma InfoChangeKeepsQueue(cfg: Config, s: Sys, id: Id, info: Download)
    requires Permitted(cfg, s, id, info) && QueueOk(cfg.limit, s.queue, s.downloads)
    ensures QueueOk(cfg.limit, s.queue, s.downloads[id := s.downloads[id].(info := info)])
  {
    ActiveAfterUpdate(s.downloads, id, s.downloads[id].(info := info));
  }

  lemma InfoChangeKeepsTasks(cfg: Config, s: Sys, id: Id, info: Download)
    requires Permitted(cfg, s, id, info)
    requires TasksOk(s.tasks, s.running, s.downloads, s.nextTask, s.seen)
    ensures TasksOk(s.tasks, s.running, s.downloads[id := s.downloads[id].(info := info)], s.nextTask, s.seen)
  {}

  lemma InfoChangeKeepsIntents(cfg: Config, s: Sys, id: Id, info: Download)
    requires Permitted(cfg, s, id, info)
    requires IntentsOk(cfg.backends, s.intents, s.downloads, s.seen)
    requires PausesOk(cfg.backends, s.intents, s.pausedTries, s.tasks, s.downloads, s.nextTask)
    ensures IntentsOk(cfg.backends, s.intents, s.downloads[id := s.downloads[id].(info := info)], s.seen)
    ensures PausesOk(cfg.backends, s.intents, s.pausedTries, s.tasks,
                     s.downloads[id := s.downloads[id].(info := info)], s.nextTask)
  {}

  lemma InfoChangeIsSafe(cfg: Config, s: Sys, r: Sys, id: Id, info: Download)
    requires Safe(cfg, s) && SameFrame(s, r) && Permitted(cfg, s, id, info)
    requires r.downloads == s.downloads[id := s.downloads[id].(info := info)]
    ensures Safe(cfg, r)
  {
    InfoChangeKeepsQueue(cfg, s, id, info);
    InfoChangeKeepsTasks(cfg, s, id, info);
    InfoChangeKeepsIntents(cfg, s, id, info);
    assert r.downloads.Keys == s.downloads.Keys;
  }

  /** A lifecycle move keeps the invariant when it respects the limit, the queue, the tasks and the intents. */
  lemma TransitionIsSafe(cfg: Config, env: Env, s: Sys, id: Id, next: DownloadState, error: Option<string>)
    requires Safe(cfg, s) && !next.Downloading?
    requires next.Starting? ==> id !in s.queue && CountActive(s.downloads) < cfg.limit
    requires !next.Active() ==> NoTask(s.tasks, id) && (next.Queued? || id !in s.queue)
    requires id in s.intents && id in s.downloads && s.downloads[id].info.backend in cfg.backends ==>
               !IsValidTransition(s.downloads[id].info.state, next) || next.Active() || next.Completed?
    ensures Safe(cfg, TransitionState(env, s, id, next, error).0)
  {
    var r := TransitionState(env, s, id, next, error).0;
    if id in s.downloads && IsValidTransition(s.downloads[id].info.state, next) {
      var info := Stamp(s.downloads[id].info, next, env.clock(s.ticks), error);
      InfoChangeIsSafe(cfg, s, r, id, info);
    } else {
      assert SameFrame(s, r) && r.downloads == s.downloads;
    }
  }

  /** In a safe state a live task's download is active, so a download at rest has no task. */
  lemma RestingHasNoTask(cfg: Config, s: Sys, id: Id)
    requires Safe(cfg, s) && id in s.downloads && !s.downloads[id].info.state.Active()
    ensures NoTask(s.tasks, id)
    ensures s.downloads[id].info.backend in cfg.backends && !s.downloads[id].info.state.Completed? ==> id !in s.intents
  {}

  // ---------------------------------------------------------------- starting

  lemma DequeueIsSafe(cfg: Config, s: Sys, id: Id)
    requires Safe(cfg, s)
    ensures Safe(cfg, s.(queue := Without(s.queue, id)))
  {}

  lemma SpawnKeepsTasks(s: Sys, id: Id)
    requires TasksOk(s.tasks, s.running, s.downloads, s.nextTask, s.seen) && NoTask(s.tasks, id)
    requires id in s.downloads && id in s.seen && s.downloads[id].info.state.Starting?
    ensures TasksOk(s.tasks[s.nextTask := Spawned(id)], s.running,
                    s.downloads[id := s.downloads[id].(cancel := Some(s.nextTask), handle := Some(s.nextTask))],
                    s.nextTask + 1, s.seen)
  {}

  lemma SpawnKeepsPauses(cfg: Config, s: Sys, id: Id)
    requires PausesOk(cfg.backends, s.intents, s.pausedTries, s.tasks, s.downloads, s.nextTask)
    requires IntentsOk(cfg.backends, s.intents, s.downloads, s.seen)
    requires id in s.downloads && s.downloads[id].info.state.Starting?
    requires s.downloads[id].info.backend in cfg.backends ==> id !in s.intents
    ensures var m := s.downloads[id].(cancel := Some(s.nextTask), handle := Some(s.nextTask));
            && PausesOk(cfg.backends, s.intents, s.pausedTries, s.tasks[s.nextTask := Spawned(id)],
                        s.downloads[id := m], s.nextTask + 1)
            && IntentsOk(cfg.backends, s.intents, s.downloads[id := m], s.seen)
  {}

  /** Attaching a freshly spawned task to a download that just became Starting. */
  lemma SpawnIsSafe(cfg: Config, s: Sys, id: Id)
    requires Safe(cfg, s) && id in s.downloads && s.downloads[id].info.state.Starting? && NoTask(s.tasks, id)
    requires s.downloads[id].info.backend in cfg.backends ==> id !in s.intents
    ensures Safe(cfg, Spawn(s, id))
  {
    var r := Spawn(s, id);
    ActiveAfterUpdate(s.downloads, id, r.downloads[id]);
    assert r.downloads.Keys == s.downloads.Keys;
    RanksOnlyFall(s.running, s.tasks, s.downloads.Keys, r.tasks, r.downloads.Keys);
    SpawnKeepsTasks(s, id);
    SpawnKeepsPauses(cfg, s, id);
  }

  lemma BeginIsSafe(cfg: Config, env: Env, s: Sys, id: Id)
    requires Safe(cfg, s) && StateOf(s, id) == Some(Queued) && id !in s.queue && CountActive(s.downloads) < cfg.limit
    ensures Safe(cfg, BeginDownload(env, s, id))
  {
    RestingHasNoTask(cfg, s, id);
    TransitionIsSafe(cfg, env, s, id, Starting, None);
    var (s1, reply) := TransitionState(env, s, id, Starting, None);
    if reply.Accepted? {
      SpawnIsSafe(cfg, Publish(s1, OnStarted(id)), id);
    }
  }

  lemma StartOneIsSafe(cfg: Config, env: Env, s: Sys, id: Id)
    requires Safe(cfg, s) && StateOf(s, id) == Some(Queued) && CountActive(s.downloads) < cfg.limit
    ensures Safe(cfg, StartOne(env, s, id))
  {
    DequeueIsSafe(cfg, s, id);
    BeginIsSafe(cfg, env, s.(queue := Without(s.queue, id)), id);
  }

  lemma {:induction false} ScheduleIsSafe(cfg: Config, env: Env, s: Sys)
    requires Safe(cfg, s)
    ensures Safe(cfg, Schedule(cfg, env, s))
    decreases |s.queue|
  {
    var ids := SelectForStart(s.queue, CountActive(s.downloads), cfg.limit);
    if ids != [] {
      assert ids[0] == s.queue[0] && s.queue[0] in s.queue;
      StartOneIsSafe(cfg, env, s, ids[0]);
      ScheduleIsSafe(cfg, env, StartOne(env, s, ids[0]));
    }
  }
}
