/**
 * The download manager itself: an object whose methods change the queue, the records, the pause intents, the
 * table and the event log in place, in the order the program does. Every method is proved to be the step of
 * ManagerModel that it stands for, so everything proved about those steps is proved about this object.
 */
module Manager {
  import opened Wrappers
  import opened Lifecycle
  import opened Queues
  import opened Scheduler
  import opened Records
  import opened Bandwidth
  import M = ManagerModel
  import opened ManagerModel
  import Safety
  import SafeSteps

  class DownloadManager {
    const cfg: Config
    const clock: nat -> Time
    const queue: Queue
    const store: Store
    var downloads: Known
    var intents: set<Id>
    var log: seq<Event>
    var tasks: map<TaskId, Task>
    var running: seq<TaskId>
    var signalled: set<TaskId>
    var aborted: set<TaskId>
    var nextTask: TaskId
    var ticks: nat
    ghost var seen: set<Id>
    ghost var pausedTries: set<TaskId>
    ghost var snapshots: seq<Snapshot>

    ghost function View(): Sys
      reads this, queue, store
    {
      Sys(queue.order, downloads, store.rows, intents, log, tasks, running, signalled, aborted, nextTask,
          store.calls, ticks, seen, pausedTries, snapshots)
    }

    ghost function World(): Env {
      Env(store.disk, clock)
    }

    /** An empty manager over a store that has not been used yet. */
    constructor (cfg: Config, clock: nat -> Time, store: Store)
      requires store.calls == 0
      ensures this.cfg == cfg && this.clock == clock && this.store == store && fresh(queue)
      ensures View() == Blank(store.rows)
    {
      this.cfg := cfg;
      this.clock := clock;
      this.store := store;
      queue := new Queue();
      downloads, intents, log := map[], {}, [];
      tasks, running, signalled, aborted := map[], [], {}, {};
      nextTask, ticks := 0, 0;
      seen, pausedTries, snapshots := store.rows.Keys, {}, [];
    }

    method Now() returns (now: Time)
      modifies `ticks
      ensures now == clock(old(ticks)) && ticks == old(ticks) + 1
    {
      now := clock(ticks);
      ticks := ticks + 1;
    }

    method Publish(e: Event)
      modifies `log
      ensures log == old(log) + [e]
    {
      log := log + [e];
    }

    /** Records a moment at which a crash could strike. */
    ghost method Remember()
      modifies `snapshots
      ensures snapshots == old(snapshots) + [Snapshot(downloads, store.rows)]
    {
      snapshots := snapshots + [Snapshot(downloads, store.rows)];
    }

    method SetInfo(id: Id, info: Download)
      requires id in downloads
      modifies `downloads, `snapshots
      ensures View() == M.SetInfo(old(View()), id, info)
    {
      downloads := downloads[id := downloads[id].(info := info)];
      Remember();
    }

    method Save(d: Download) returns (ok: bool)
      modifies `snapshots, store
      ensures (View(), ok) == M.Save(World(), old(View()), d)
    {
      ok := store.Save(d);
      Remember();
    }

    /** The bookkeeping of a move: times, and the error text that goes with the new state. */
    method Stamped(d: Download, next: DownloadState, now: Time, error: Option<string>) returns (info: Download)
      ensures info == Stamp(d, next, now, error)
    {
      info := d.(state := next, updatedAt := now);
      if next == Downloading {
        if info.startedAt.None? {
          info := info.(startedAt := Some(now));
        }
      } else if next == Completed {
        info := info.(completedAt := Some(now), error := None);
      } else if next == Failed || next == Cancelled || error.Some? {
        info := info.(error := error);
      }
    }

    /** Moves a record in memory, then saves it, then announces the move. */
    method TransitionState(id: Id, next: DownloadState, error: Option<string>) returns (reply: Reply)
      modifies `downloads, `log, `ticks, `snapshots, store
      ensures (View(), reply) == M.TransitionState(World(), old(View()), id, next, error)
    {
      var now := Now();
      if id !in downloads {
        return Rejected(Unknown);
      }
      var info := downloads[id].info;
      var from := info.state;
      if !IsValidTransition(from, next) {
        return Rejected(WrongState);
      }
      info := Stamped(info, next, now, error);
      SetInfo(id, info);
      var saved := Save(info);
      if !saved {
        return Rejected(Database);
      }
      Publish(StateChanged(id, from, next));
      reply := Accepted;
    }

    /** Gives a download a fresh cancellation signal and spawns its task. */
    method Spawn(id: Id)
      requires id in downloads
      modifies `downloads, `tasks, `nextTask
      ensures View() == M.Spawn(old(View()), id)
    {
      var t := nextTask;
      nextTask := nextTask + 1;
      downloads := downloads[id := downloads[id].(cancel := Some(t))];
      tasks := tasks[t := Spawned(id)];
      downloads := downloads[id := downloads[id].(handle := Some(t))];
    }

    /** Moves a download to Starting and, once that is saved, spawns its task. */
    method BeginDownload(id: Id)
      modifies `downloads, `log, `ticks, `snapshots, `tasks, `nextTask, store
      ensures View() == M.BeginDownload(World(), old(View()), id)
    {
      var reply := TransitionState(id, Starting, None);
      if reply.Rejected? {
        return;
      }
      Publish(OnStarted(id));
      Spawn(id);
    }

    method StartOne(id: Id)
      modifies `downloads, `log, `ticks, `snapshots, `tasks, `nextTask, store, queue
      ensures View() == M.StartOne(World(), old(View()), id)
    {
      var _ := queue.Remove(id);
      BeginDownload(id);
    }

    /** Starts the first selected download, counts and selects anew, and so on until nothing is offered. */
    method Schedule()
      modifies `downloads, `log, `ticks, `snapshots, `tasks, `nextTask, store, queue
      ensures View() == M.Schedule(cfg, World(), old(View()))
    {
      var offered := SelectForStart(queue.order, CountActive(downloads), cfg.limit);
      while offered != []
        invariant offered == SelectForStart(queue.order, CountActive(downloads), cfg.limit)
        invariant M.Schedule(cfg, World(), View()) == M.Schedule(cfg, World(), old(View()))
        decreases |queue.order|
      {
        StartOne(offered[0]);
        offered := SelectForStart(queue.order, CountActive(downloads), cfg.limit);
      }
    }

    // -------------------------------------------------------------- public calls

    /** Saves the row of a new download. */
    method Record(id: Id, spec: Spec) returns (d: Download, saved: bool)
      modifies `ticks, `seen, `snapshots, store
      ensures (View(), saved) == M.Record(World(), old(View()), id, spec)
      ensures d == NewDownload(id, spec, clock(old(ticks)))
    {
      var now := Now();
      seen := seen + {id};
      d := NewDownload(id, spec, now);
      saved := Save(d);
    }

    /** `id` is the fresh identifier the call draws. */
    method Enqueue(id: Id, spec: Spec) returns (reply: Reply)
      modifies this, store, queue
      ensures (View(), reply) == M.Enqueue(cfg, World(), old(View()), id, spec)
    {
      if spec.backend !in cfg.backends {
        return Rejected(NoBackend);
      }
      var d, saved := Record(id, spec);
      if !saved {
        return Rejected(Database);
      }
      downloads := downloads[id := Managed(d, None, None)];
      Remember();
      queue.Enqueue(id);
      Publish(OnQueued(id));
      assert View() == Admitted(World(), old(View()), id, spec);
      Schedule();
      reply := Accepted;
    }

    /** Starts a queued download now, past the queue, if the limit allows. */
    method Start(id: Id) returns (reply: Reply)
      modifies this, store, queue
      ensures (View(), reply) == M.Start(cfg, World(), old(View()), id)
    {
      if id !in downloads || downloads[id].info.state != Queued {
        return Rejected(WrongState);
      }
      if CountActive(downloads) >= cfg.limit {
        return Accepted;
      }
      StartOne(id);
      reply := Accepted;
    }

    method Signal(id: Id)
      modifies `signalled
      ensures View() == M.Signal(old(View()), id)
    {
      if id in downloads && downloads[id].cancel.Some? {
        signalled := signalled + {downloads[id].cancel.value};
      }
    }

    method Pause(id: Id) returns (reply: Reply)
      modifies `intents, `signalled, `pausedTries
      ensures (View(), reply) == M.Pause(old(View()), id)
    {
      if id !in downloads || !downloads[id].info.state.Active() {
        return Rejected(WrongState);
      }
      intents := intents + {id};
      if downloads[id].cancel.Some? {
        pausedTries := pausedTries + {downloads[id].cancel.value};
      }
      Signal(id);
      reply := Accepted;
    }

    /** Moves a stopped download back to Queued and, once that is saved, to the back of the queue. */
    method Requeue(id: Id) returns (reply: Reply)
      modifies this, store, queue
      ensures (View(), reply) == M.Requeue(World(), old(View()), id)
    {
      reply := TransitionState(id, Queued, None);
      if reply.Accepted? {
        queue.Enqueue(id);
      }
    }

    method Resume(id: Id) returns (reply: Reply)
      modifies this, store, queue
      ensures (View(), reply) == M.Resume(cfg, World(), old(View()), id)
    {
      if id !in downloads || downloads[id].info.state != Paused {
        return Rejected(WrongState);
      }
      reply := Requeue(id);
      if reply.Rejected? {
        return;
      }
      Publish(OnResumed(id));
      Schedule();
    }

    method Cancel(id: Id) returns (reply: Reply)
      modifies this, store, queue
      ensures (View(), reply) == M.Cancel(World(), old(View()), id)
    {
      if id !in downloads {
        return Rejected(Unknown);
      }
      var state := downloads[id].info.state;
      if state == Starting || state == Downloading {
        Signal(id);
        return Accepted;
      }
      if state == Completed || state == Cancelled {
        return Rejected(WrongState);
      }
      var _ := queue.Remove(id);
      reply := TransitionState(id, Cancelled, Some("cancelled by user"));
      if reply.Rejected? {
        return;
      }
      Publish(OnCancelled(id));
    }

    method Retry(id: Id) returns (reply: Reply)
      modifies this, store, queue
      ensures (View(), reply) == M.Retry(cfg, World(), old(View()), id)
    {
      if id !in downloads || downloads[id].info.state != Failed {
        return Rejected(WrongState);
      }
      reply := Requeue(id);
      if reply.Rejected? {
        return;
      }
      Schedule();
    }

    method Remove(id: Id) returns (reply: Reply)
      modifies this, store, queue
      ensures (View(), reply) == M.RemoveDownload(cfg, World(), old(View()), id)
    {
      Signal(id);
      var _ := queue.Remove(id);
      downloads := downloads - {id};
      Remember();
      var deleted := store.Remove(id);
      Remember();
      assert (View(), deleted) == M.Forget(World(), old(View()), id);
      if !deleted {
        return Rejected(Database);
      }
      Schedule();
      reply := Accepted;
    }

    /** Takes every handle and asks its task to abort; does not wait for any of them. */
    method Shutdown()
      modifies `downloads, `aborted
      ensures View() == M.Shutdown(old(View()))
    {
      var handles := Handles(downloads);
      downloads := map id | id in downloads :: downloads[id].(handle := None);
      aborted := aborted + handles;
    }

    // -------------------------------------------------------------- callbacks and tasks

    /** The bookkeeping of a progress report. */
    method Reported(d: Download, now: Time, downloaded: u64, total: Option<u64>) returns (info: Download)
      ensures info == M.Reported(d, now, downloaded, total)
    {
      info := d;
      if info.state == Starting {
        info := info.(state := Downloading);
        if info.startedAt.None? {
          info := info.(startedAt := Some(now));
        }
      }
      info := info.(downloadedBytes := downloaded);
      if total.Some? {
        info := info.(totalBytes := total);
      }
      info := info.(updatedAt := now);
    }

    method OnProgress(id: Id, downloaded: u64, total: Option<u64>)
      modifies this, store
      ensures View() == M.Progress(World(), old(View()), id, downloaded, total)
    {
      var now := Now();
      if id !in downloads {
        return;
      }
      var first := downloads[id].info.state == Starting;
      var info := Reported(downloads[id].info, now, downloaded, total);
      SetInfo(id, info);
      var _ := Save(info);
      if first {
        Publish(StateChanged(id, Starting, Downloading));
      }
      Publish(M.OnProgress(id, downloaded, total));
    }

    method DropTask(t: TaskId)
      modifies `tasks, `running
      ensures View() == M.DropTask(old(View()), t)
    {
      tasks := tasks - {t};
      running := Without(running, t);
    }

    /** A task up to the call of its backend. */
    method BeginTask(t: TaskId)
      requires t in tasks
      modifies this, store, queue
      ensures View() == M.TaskBegin(cfg, World(), old(View()), t)
    {
      var id := tasks[t].id;
      if id !in downloads || !downloads[id].info.state.Active() {
        DropTask(t);
        return;
      }
      var backend := downloads[id].info.backend;
      var active := CountActive(downloads);
      var rate := LimiterFor(cfg.cap, active);
      if backend !in cfg.backends {
        DropTask(t);
        var _ := TransitionState(id, Failed, Some(NO_BACKEND));
        assert View() == FailWithoutBackend(World(), old(View()), t);
        Schedule();
        return;
      }
      tasks := tasks[t := Running(id, active, rate)];
      running := running + [t];
    }

    /** A task after its backend returned `r`. */
    method EndTask(t: TaskId, r: BackendResult)
      requires t in tasks
      modifies this, store, queue
      ensures View() == M.TaskEnd(cfg, World(), old(View()), t, r)
    {
      var id := tasks[t].id;
      DropTask(t);
      Settle(id, r);
      Schedule();
    }

    method Settle(id: Id, r: BackendResult)
      modifies this, store
      ensures View() == M.Settle(World(), old(View()), id, r)
    {
      match r
      case Finished(downloaded, total, meta) =>
        if id in downloads {
          var now := Now();
          var info := downloads[id].info.(downloadedBytes := downloaded, meta := meta, updatedAt := now);
          if total.Some? {
            info := info.(totalBytes := total);
          }
          SetInfo(id, info);
        }
        assert View() == RecordOutcome(World(), old(View()), id, r);
        var _ := TransitionState(id, Completed, None);
        Publish(OnCompleted(id));
      case Stopped =>
        var paused := id in intents;
        intents := intents - {id};
        if paused {
          var _ := TransitionState(id, Paused, Some("paused by user"));
          Publish(OnPaused(id));
        } else {
          var _ := TransitionState(id, Cancelled, Some("cancelled by user"));
          Publish(OnCancelled(id));
        }
      case Broken(error) =>
        intents := intents - {id};
        var _ := TransitionState(id, Failed, Some(error));
        Publish(OnFailed(id, error));
    }

    /** Any step, by name: the object takes it exactly as the model does, and so keeps the invariant. */
    method Step(op: Op) returns (reply: Reply)
      requires Enabled(View(), op)
      modifies this, store, queue
      ensures (View(), reply) == Apply(cfg, World(), old(View()), op)
      ensures old(Safety.Safe(cfg, View())) ==> Safety.Safe(cfg, View())
    {
      if Safety.Safe(cfg, View()) {
        SafeSteps.StepIsSafe(cfg, World(), View(), op);
      }
      reply := Accepted;
      match op
      case DoEnqueue(id, spec) => reply := Enqueue(id, spec);
      case DoStart(id) => reply := Start(id);
      case DoPause(id) => reply := Pause(id);
      case DoResume(id) => reply := Resume(id);
      case DoCancel(id) => reply := Cancel(id);
      case DoRetry(id) => reply := Retry(id);
      case DoRemove(id) => reply := Remove(id);
      case DoShutdown => Shutdown();
      case DoProgress(id, n, total) => OnProgress(id, n, total);
      case DoTaskBegin(t) => BeginTask(t);
      case DoTaskEnd(t, r) => EndTask(t, r);
      case DoTaskVanish(t) => DropTask(t);
    }

    // -------------------------------------------------------------- opening

    method Admit(d: Download)
      modifies `downloads, `snapshots, queue
      ensures View() == M.Admit(old(View()), d)
    {
      downloads := downloads[d.id := Managed(d, None, None)];
      Remember();
      if d.state == Queued {
        queue.Enqueue(d.id);
      }
    }

    method SaveRecovered(from: DownloadState, d: Download) returns (ok: bool)
      modifies this, store
      ensures (View(), ok) == M.SaveRecovered(World(), old(View()), from, d)
    {
      ok := Save(d);
      if !ok {
        return;
      }
      Publish(StateChanged(d.id, from, d.state));
      if d.state == Failed {
        Publish(OnFailed(d.id, d.error.UnwrapOr("")));
      } else {
        Publish(OnQueued(d.id));
      }
    }

    method RecoverOne(loaded: Download) returns (ok: bool)
      modifies this, store, queue
      ensures (View(), ok) == M.RecoverOne(cfg, World(), old(View()), loaded)
    {
      if loaded.state != Starting && loaded.state != Downloading {
        Admit(loaded);
        return true;
      }
      var d := loaded;
      if cfg.policy == FailInterrupted {
        d := d.(state := Failed, error := Some(INTERRUPTED));
      } else {
        d := d.(state := Queued, startedAt := None, error := None);
      }
      var now := Now();
      d := d.(updatedAt := now);
      ok := SaveRecovered(loaded.state, d);
      if ok {
        Admit(d);
      }
    }

    /** Loads every row, oldest first, settling those that were in flight. */
    method Recover() returns (ok: bool)
      modifies this, store, queue
      ensures (View(), ok) == M.Recover(cfg, World(), old(View()))
    {
      var ds;
      ds, ok := store.List();
      if !ok {
        return;
      }
      ghost var listed := View();
      var i := 0;
      assert ds[0..] == ds;
      while i < |ds|
        invariant i <= |ds| && ok
        invariant M.RecoverAll(cfg, World(), View(), ds[i..]) == M.RecoverAll(cfg, World(), listed, ds)
      {
        M.RecoverNext(cfg, World(), View(), ds, i);
        ok := RecoverOne(ds[i]);
        if !ok {
          return;
        }
        i := i + 1;
      }
      M.RecoverNext(cfg, World(), View(), ds, i);
    }

    /** Opens a manager on the table in `store`; `ok` is false when the database or a save failed. */
    static method Open(cfg: Config, clock: nat -> Time, store: Store) returns (m: DownloadManager, ok: bool)
      requires store.calls == 0
      modifies store
      ensures fresh(m) && m.cfg == cfg && m.clock == clock && m.store == store
      ensures (m.View(), ok) == M.Open(cfg, m.World(), old(store.rows))
    {
      m := new DownloadManager(cfg, clock, store);
      ok := store.Connect();
      if !ok {
        return;
      }
      ok := m.Recover();
      m.snapshots := [];
    }
  }
}
