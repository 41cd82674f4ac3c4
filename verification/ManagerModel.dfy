/**
 * The download manager as a function from state to state.
 *
 * A step is one public call, one progress callback, the part of a download task before it hands over
 * to its backend, or the part after the backend returned. The class in Manager.dfy takes these steps in
 * place; the invariants in the Safety and Consistency modules are about the functions here.
 */
module ManagerModel {
  import opened Wrappers
  import opened Lifecycle
  import opened Queues
  import opened Scheduler
  import opened Records
  import opened Bandwidth

  type TaskId = nat

  datatype RecoveryPolicy = FailInterrupted | RequeueInterrupted

  datatype Config = Config(limit: nat, cap: Option<u64>, policy: RecoveryPolicy, backends: set<BackendKind>)

  /** The outside world: does database call number n succeed, and what does clock reading number n say. */
  datatype Env = Env(disk: nat -> bool, clock: nat -> Time)

  datatype Event =
    | OnQueued(id: Id)
    | OnStarted(id: Id)
    | OnProgress(id: Id, downloaded: u64, total: Option<u64>)
    | OnPaused(id: Id)
    | OnResumed(id: Id)
    | OnCompleted(id: Id)
    | OnFailed(id: Id, error: string)
    | OnCancelled(id: Id)
    | StateChanged(id: Id, from: DownloadState, to: DownloadState)

  /** A record with its runtime handles, both named after their task. */
  datatype Managed = Managed(info: Download, cancel: Option<TaskId>, handle: Option<TaskId>)

  type Known = map<Id, Managed>

  /** A task is spawned first, and later hands over to its backend with the limiter it was given. */
  datatype Task =
    | Spawned(id: Id)
    | Running(id: Id, seenActive: nat, rate: Option<u64>)

  /** What a crash at this moment would leave (`db`) and lose (`downloads`). */
  datatype Snapshot = Snapshot(downloads: Known, db: Table)

  datatype Sys = Sys(
    queue: seq<Id>,
    downloads: Known,
    db: Table,
    intents: set<Id>,
    log: seq<Event>,
    // tasks the runtime still holds, and those of them inside their backend, in the order they got there
    tasks: map<TaskId, Task>,
    running: seq<TaskId>,
    // cancellation permits given, and tasks asked to abort
    signalled: set<TaskId>,
    aborted: set<TaskId>,
    nextTask: TaskId,
    // calls made to the outside world
    dbCalls: nat,
    ticks: nat,
    // history: ids ever used, attempts that were successfully paused, and every moment a crash could strike
    seen: set<Id>,
    pausedTries: set<TaskId>,
    snapshots: seq<Snapshot>)

  datatype Refusal = NoBackend | Unknown | WrongState | Database

  datatype Reply = Accepted | Rejected(why: Refusal)

  datatype Spec = Spec(url: string, destination: string, backend: BackendKind, overwrite: bool, meta: string)

  /** What `backend.run` returned: Ok, Err(Cancelled), or any other error. */
  datatype BackendResult =
    | Finished(downloaded: u64, total: Option<u64>, meta: string)
    | Stopped
    | Broken(error: string)

  // ---------------------------------------------------------------- primitives

  function Publish(s: Sys, e: Event): Sys {
    s.(log := s.log + [e])
  }

  function Remember(s: Sys): Sys {
    s.(snapshots := s.snapshots + [Snapshot(s.downloads, s.db)])
  }

  /** Overwrites one record in memory. */
  function SetInfo(s: Sys, id: Id, info: Download): Sys
    requires id in s.downloads
  {
    Remember(s.(downloads := s.downloads[id := s.downloads[id].(info := info)]))
  }

  function Save(env: Env, s: Sys, d: Download): (Sys, bool) {
    var ok := env.disk(s.dbCalls);
    (Remember(s.(dbCalls := s.dbCalls + 1, db := if ok then s.db[d.id := Encode(d)] else s.db)), ok)
  }

  function Delete(env: Env, s: Sys, id: Id): (Sys, bool) {
    var ok := env.disk(s.dbCalls);
    (Remember(s.(dbCalls := s.dbCalls + 1, db := if ok then s.db - {id} else s.db)), ok)
  }

  function ActiveIds(downloads: Known): set<Id> {
    set id | id in downloads && downloads[id].info.state.Active()
  }

  function CountActive(downloads: Known): nat {
    |ActiveIds(downloads)|
  }

  function StateOf(s: Sys, id: Id): Option<DownloadState> {
    if id in s.downloads then Some(s.downloads[id].info.state) else None
  }

  // ---------------------------------------------------------------- the lifecycle step

  /** The record after moving to `to`. */
  function Stamp(d: Download, to: DownloadState, now: Time, error: Option<string>): Download {
    var d := d.(state := to, updatedAt := now);
    match to
    case Downloading => if d.startedAt.None? then d.(startedAt := Some(now)) else d
    case Completed => d.(completedAt := Some(now), error := None)
    case Failed => d.(error := error)
    case Cancelled => d.(error := error)
    case _ => if error.Some? then d.(error := error) else d
  }

  /** Moves a record, then saves it, then announces the move; memory is changed even when the save fails. */
  function TransitionState(env: Env, s: Sys, id: Id, next: DownloadState, error: Option<string>): (Sys, Reply) {
    var now := env.clock(s.ticks);
    var s := s.(ticks := s.ticks + 1);
    if id !in s.downloads then (s, Rejected(Unknown))
    else if !IsValidTransition(s.downloads[id].info.state, next) then (s, Rejected(WrongState))
    else
      var from := s.downloads[id].info.state;
      var info := Stamp(s.downloads[id].info, next, now, error);
      var (s, saved) := Save(env, SetInfo(s, id, info), info);
      if saved then (Publish(s, StateChanged(id, from, next)), Accepted) else (s, Rejected(Database))
  }

  /** A task for `id`, with a fresh cancellation signal; the record keeps a handle on both. */
  function Spawn(s: Sys, id: Id): Sys
    requires id in s.downloads
  {
    var t := s.nextTask;
    s.(nextTask := t + 1,
       tasks := s.tasks[t := Spawned(id)],
       downloads := s.downloads[id := s.downloads[id].(cancel := Some(t), handle := Some(t))])
  }

  /** Starting, then a fresh cancellation signal and a spawned task. */
  function BeginDownload(env: Env, s: Sys, id: Id): (r: Sys)
    ensures r.queue == s.queue
  {
    var (s, reply) := TransitionState(env, s, id, Starting, None);
    if reply.Rejected? then s else Spawn(Publish(s, OnStarted(id)), id)
  }

  /** Takes `id` off the queue and begins it. */
  function StartOne(env: Env, s: Sys, id: Id): (r: Sys)
    ensures r.queue == Without(s.queue, id)
  {
    BeginDownload(env, s.(queue := Without(s.queue, id)), id)
  }

  /** Starts the first selected id, counts again, and so on until the selector has nothing to offer. */
  function Schedule(cfg: Config, env: Env, s: Sys): Sys
    decreases |s.queue|
  {
    var ids := SelectForStart(s.queue, CountActive(s.downloads), cfg.limit);
    if ids == [] then s else Schedule(cfg, env, StartOne(env, s, ids[0]))
  }

  // ---------------------------------------------------------------- public calls

  function NewDownload(id: Id, spec: Spec, now: Time): Download {
    Download(id, spec.url, spec.destination, spec.backend, Queued, spec.overwrite, None, 0, now, now, None, None, None, spec.meta)
  }

  /** The save of a new download's row; `id` is the fresh identifier the call draws. */
  function Record(env: Env, s: Sys, id: Id, spec: Spec): (Sys, bool) {
    Save(env, s.(ticks := s.ticks + 1, seen := s.seen + {id}), NewDownload(id, spec, env.clock(s.ticks)))
  }

  /** A new download once its row is saved: recorded, queued and announced. */
  function Admitted(env: Env, s: Sys, id: Id, spec: Spec): Sys {
    var d := NewDownload(id, spec, env.clock(s.ticks));
    var s := Record(env, s, id, spec).0;
    var s := Remember(s.(downloads := s.downloads[id := Managed(d, None, None)]));
    Publish(s.(queue := s.queue + [id]), OnQueued(id))
  }

  function Enqueue(cfg: Config, env: Env, s: Sys, id: Id, spec: Spec): (Sys, Reply) {
    if spec.backend !in cfg.backends then (s, Rejected(NoBackend))
    else if Record(env, s, id, spec).1 then (Schedule(cfg, env, Admitted(env, s, id, spec)), Accepted)
    else (Record(env, s, id, spec).0, Rejected(Database))
  }

  function Start(cfg: Config, env: Env, s: Sys, id: Id): (Sys, Reply) {
    if StateOf(s, id) != Some(Queued) then (s, Rejected(WrongState))
    else if CountActive(s.downloads) >= cfg.limit then (s, Accepted)
    else (StartOne(env, s, id), Accepted)
  }

  /** Gives one cancellation permit to whichever task holds the signal of the record. */
  function Signal(s: Sys, id: Id): Sys {
    if id in s.downloads && s.downloads[id].cancel.Some?
    then s.(signalled := s.signalled + {s.downloads[id].cancel.value})
    else s
  }

  function Pause(s: Sys, id: Id): (Sys, Reply) {
    if id !in s.downloads || !s.downloads[id].info.state.Active() then (s, Rejected(WrongState))
    else
      var c := s.downloads[id].cancel;
      var s := s.(intents := s.intents + {id},
                  pausedTries := if c.Some? then s.pausedTries + {c.value} else s.pausedTries);
      (Signal(s, id), Accepted)
  }

  /** A stopped download moved back to Queued and, when that was saved, put at the back of the queue. */
  function Requeue(env: Env, s: Sys, id: Id): (Sys, Reply) {
    var (s, reply) := TransitionState(env, s, id, Queued, None);
    (if reply.Accepted? then s.(queue := s.queue + [id]) else s, reply)
  }

  function Resume(cfg: Config, env: Env, s: Sys, id: Id): (Sys, Reply) {
    if StateOf(s, id) != Some(Paused) then (s, Rejected(WrongState))
    else
      var (s, reply) := Requeue(env, s, id);
      if reply.Rejected? then (s, reply) else (Schedule(cfg, env, Publish(s, OnResumed(id))), Accepted)
  }

  function Cancel(env: Env, s: Sys, id: Id): (Sys, Reply) {
    match StateOf(s, id)
    case None => (s, Rejected(Unknown))
    case Some(state) =>
      if state.Active() then (Signal(s, id), Accepted)
      else if state.Terminal() then (s, Rejected(WrongState))
      else
        var (s, reply) := TransitionState(env, s.(queue := Without(s.queue, id)), id, Cancelled, Some("cancelled by user"));
        if reply.Rejected? then (s, reply) else (Publish(s, OnCancelled(id)), Accepted)
  }

  function Retry(cfg: Config, env: Env, s: Sys, id: Id): (Sys, Reply) {
    if StateOf(s, id) != Some(Failed) then (s, Rejected(WrongState))
    else
      var (s, reply) := Requeue(env, s, id);
      if reply.Rejected? then (s, reply) else (Schedule(cfg, env, s), Accepted)
  }

  /** A download signalled, taken off the queue and forgotten; its row is deleted if the database lets it. */
  function Forget(env: Env, s: Sys, id: Id): (Sys, bool) {
    var s := Signal(s, id);
    Delete(env, Remember(s.(queue := Without(s.queue, id), downloads := s.downloads - {id})), id)
  }

  function RemoveDownload(cfg: Config, env: Env, s: Sys, id: Id): (Sys, Reply) {
    var (s, deleted) := Forget(env, s, id);
    if deleted then (Schedule(cfg, env, s), Accepted) else (s, Rejected(Database))
  }

  function Handles(downloads: Known): set<TaskId> {
    set id | id in downloads && downloads[id].handle.Some? :: downloads[id].handle.value
  }

  /** Takes every handle and asks its task to abort. */
  function Shutdown(s: Sys): Sys {
    s.(aborted := s.aborted + Handles(s.downloads),
       downloads := map id | id in s.downloads :: s.downloads[id].(handle := None))
  }

  // ---------------------------------------------------------------- callbacks and tasks

  /** The record after a progress report; the first report moves it from Starting to Downloading. */
  function Reported(d: Download, now: Time, downloaded: u64, total: Option<u64>): Download {
    var d := if d.state.Starting? then d.(state := Downloading, startedAt := Some(d.startedAt.UnwrapOr(now))) else d;
    d.(downloadedBytes := downloaded, totalBytes := if total.Some? then total else d.totalBytes, updatedAt := now)
  }

  function Progress(env: Env, s: Sys, id: Id, downloaded: u64, total: Option<u64>): Sys {
    var now := env.clock(s.ticks);
    var s := s.(ticks := s.ticks + 1);
    if id !in s.downloads then s
    else
      var first := s.downloads[id].info.state.Starting?;
      var d := Reported(s.downloads[id].info, now, downloaded, total);
      var s := Save(env, SetInfo(s, id, d), d).0;
      var s := if first then Publish(s, StateChanged(id, Starting, Downloading)) else s;
      Publish(s, OnProgress(id, downloaded, total))
  }

  /** A task is over: the runtime forgets it. */
  function DropTask(s: Sys, t: TaskId): Sys {
    s.(tasks := s.tasks - {t}, running := Without(s.running, t))
  }

  const NO_BACKEND: string := "no backend available for download"

  /** A task that finds its backend missing fails its download, up to and without the final scheduling. */
  function FailWithoutBackend(env: Env, s: Sys, t: TaskId): Sys
    requires t in s.tasks
  {
    TransitionState(env, DropTask(s, t), s.tasks[t].id, Failed, Some(NO_BACKEND)).0
  }

  /** A task up to the call of its backend. */
  function TaskBegin(cfg: Config, env: Env, s: Sys, t: TaskId): Sys
    requires t in s.tasks
  {
    var id := s.tasks[t].id;
    if id !in s.downloads || !s.downloads[id].info.state.Active() then DropTask(s, t)
    else
      var active := CountActive(s.downloads);
      if s.downloads[id].info.backend !in cfg.backends then
        Schedule(cfg, env, FailWithoutBackend(env, s, t))
      else
        s.(tasks := s.tasks[t := Running(id, active, LimiterFor(cfg.cap, active))], running := s.running + [t])
  }

  /** A finished transfer's own bookkeeping, not yet saved. */
  function RecordOutcome(env: Env, s: Sys, id: Id, r: BackendResult): Sys
    requires r.Finished?
  {
    if id !in s.downloads then s
    else
      var d := s.downloads[id].info;
      SetInfo(s.(ticks := s.ticks + 1), id,
              d.(downloadedBytes := r.downloaded, totalBytes := if r.total.Some? then r.total else d.totalBytes,
                 meta := r.meta, updatedAt := env.clock(s.ticks)))
  }

  /** What a backend's answer does to download `id`. */
  function Settle(env: Env, s: Sys, id: Id, r: BackendResult): Sys {
    match r
    case Finished(_, _, _) =>
      Publish(TransitionState(env, RecordOutcome(env, s, id, r), id, Completed, None).0, OnCompleted(id))
    case Stopped =>
      var paused := id in s.intents;
      var s := s.(intents := s.intents - {id});
      if paused then Publish(TransitionState(env, s, id, Paused, Some("paused by user")).0, OnPaused(id))
      else Publish(TransitionState(env, s, id, Cancelled, Some("cancelled by user")).0, OnCancelled(id))
    case Broken(error) =>
      var s := s.(intents := s.intents - {id});
      Publish(TransitionState(env, s, id, Failed, Some(error)).0, OnFailed(id, error))
  }

  /** A task after the return of its backend, up to and without the final scheduling. */
  function SettleTask(env: Env, s: Sys, t: TaskId, r: BackendResult): Sys
    requires t in s.tasks
  {
    Settle(env, DropTask(s, t), s.tasks[t].id, r)
  }

  function TaskEnd(cfg: Config, env: Env, s: Sys, t: TaskId, r: BackendResult): Sys
    requires t in s.tasks
  {
    Schedule(cfg, env, SettleTask(env, s, t, r))
  }

  // ---------------------------------------------------------------- steps and runs

  datatype Op =
    | DoEnqueue(id: Id, spec: Spec)
    | DoStart(id: Id)
    | DoPause(id: Id)
    | DoResume(id: Id)
    | DoCancel(id: Id)
    | DoRetry(id: Id)
    | DoRemove(id: Id)
    | DoShutdown
    | DoProgress(id: Id, downloaded: u64, total: Option<u64>)
    | DoTaskBegin(task: TaskId)
    | DoTaskEnd(task: TaskId, result: BackendResult)
    | DoTaskVanish(task: TaskId)

  /**
   * Which steps can happen. Public calls always can; a new download draws an id never used before. Only an
   * aborted task vanishes without finishing, but it may still finish when the abort comes too late.
   */
  predicate Enabled(s: Sys, op: Op) {
    match op
    case DoEnqueue(id, _) => id !in s.seen
    case DoTaskBegin(t) => t in s.tasks && s.tasks[t].Spawned?
    case DoTaskEnd(t, _) => t in s.tasks && s.tasks[t].Running?
    case DoTaskVanish(t) => t in s.tasks && t in s.aborted
    case _ => true
  }

  function Apply(cfg: Config, env: Env, s: Sys, op: Op): (Sys, Reply)
    requires Enabled(s, op)
  {
    match op
    case DoEnqueue(id, spec) => Enqueue(cfg, env, s, id, spec)
    case DoStart(id) => Start(cfg, env, s, id)
    case DoPause(id) => Pause(s, id)
    case DoResume(id) => Resume(cfg, env, s, id)
    case DoCancel(id) => Cancel(env, s, id)
    case DoRetry(id) => Retry(cfg, env, s, id)
    case DoRemove(id) => RemoveDownload(cfg, env, s, id)
    case DoShutdown => (Shutdown(s), Accepted)
    case DoProgress(id, n, total) => (Progress(env, s, id, n, total), Accepted)
    case DoTaskBegin(t) => (TaskBegin(cfg, env, s, t), Accepted)
    case DoTaskEnd(t, r) => (TaskEnd(cfg, env, s, t, r), Accepted)
    case DoTaskVanish(t) => (DropTask(s, t), Accepted)
  }

  // ---------------------------------------------------------------- opening

  const INTERRUPTED: string := "interrupted by manager restart"

  /** How one loaded record enters the new process; the flag says that it was changed and must be saved. */
  function Recovered(policy: RecoveryPolicy, d: Download, now: Time): (Download, bool) {
    if !d.state.Active() then (d, false)
    else if policy.FailInterrupted? then (d.(state := Failed, error := Some(INTERRUPTED), updatedAt := now), true)
    else (d.(state := Queued, startedAt := None, error := None, updatedAt := now), true)
  }

  function Admit(s: Sys, d: Download): Sys {
    var s := Remember(s.(downloads := s.downloads[d.id := Managed(d, None, None)]));
    if d.state.Queued? then s.(queue := s.queue + [d.id]) else s
  }

  /** Saves a record that recovery changed and announces the change. */
  function SaveRecovered(env: Env, s: Sys, from: DownloadState, d: Download): (Sys, bool) {
    var (s, saved) := Save(env, s, d);
    if !saved then (s, false)
    else
      var s := Publish(s, StateChanged(d.id, from, d.state));
      (Publish(s, if d.state.Failed? then OnFailed(d.id, d.error.UnwrapOr("")) else OnQueued(d.id)), true)
  }

  function RecoverOne(cfg: Config, env: Env, s: Sys, loaded: Download): (Sys, bool) {
    var (d, changed) := Recovered(cfg.policy, loaded, env.clock(s.ticks));
    if !changed then (Admit(s, loaded), true)
    else
      var (s, saved) := SaveRecovered(env, s.(ticks := s.ticks + 1), loaded.state, d);
      if saved then (Admit(s, d), true) else (s, false)
  }

  function RecoverAll(cfg: Config, env: Env, s: Sys, ds: seq<Download>): (Sys, bool)
    decreases |ds|
  {
    if ds == [] then (s, true)
    else
      var (s, ok) := RecoverOne(cfg, env, s, ds[0]);
      if ok then RecoverAll(cfg, env, s, ds[1..]) else (s, false)
  }

  /** The recovery of a listing from its `i`-th record on, one record at a time. */
  lemma RecoverNext(cfg: Config, env: Env, s: Sys, ds: seq<Download>, i: nat)
    requires i <= |ds|
    ensures RecoverAll(cfg, env, s, ds[i..]) ==
            if i == |ds| then (s, true)
            else
              var (s1, ok) := RecoverOne(cfg, env, s, ds[i]);
              if ok then RecoverAll(cfg, env, s1, ds[i + 1..]) else (s1, false)
  {
    if i < |ds| {
      assert ds[i..][0] == ds[i] && ds[i..][1..] == ds[i + 1..];
    }
  }

  /** Reads the table and settles what it finds; gives up when the listing fails, or a save does. */
  function Recover(cfg: Config, env: Env, s: Sys): (Sys, bool) {
    var listed := s.(dbCalls := s.dbCalls + 1);
    if env.disk(s.dbCalls) then RecoverAll(cfg, env, listed, Listing(s.db)) else (listed, false)
  }

  /** A process that has not touched the table it finds. */
  function Blank(db: Table): Sys {
    Sys([], map[], db, {}, [], map[], [], {}, {}, 0, 0, 0, db.Keys, {}, [])
  }

  /**
   * A new process on the table it finds; the flag is false when the database could not be opened or listed, or a
   * save failed. Crash points are recorded from here on: a crash while opening is a failed opening.
   */
  function Open(cfg: Config, env: Env, db: Table): (Sys, bool) {
    var connected := Blank(db).(dbCalls := 1);
    if !env.disk(0) then (connected, false)
    else
      var (s, ok) := Recover(cfg, env, connected);
      (s.(snapshots := []), ok)
  }
}
