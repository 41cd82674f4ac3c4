/** Every run of the manager is one of the interleavings: each step is a sequence of critical sections. */
module Refinement {
  import opened Wrappers
  import opened Lifecycle
  import opened Queues
  import opened Records
  import opened ManagerModel
  import opened Safety
  import opened Scheduling
  import opened Recovery
  import opened Runs
  import opened Fairness
  import opened Agendas
  import opened Attempts
  import I = Interleaving

  /** The sections `cs` lead from `w` to `v`. */
  ghost predicate Leads(w: I.Shared, cs: seq<I.Section>, v: I.Shared)
    decreases |cs|
  {
    if cs == [] then v == w
    else I.Possible(w, cs[0]) && w.records.Keys <= w.history.Keys && Leads(I.Next(w, cs[0]), cs[1..], v)
  }

  lemma {:induction false} LeadsOn(w: I.Shared, cs: seq<I.Section>, v: I.Shared, ds: seq<I.Section>, u: I.Shared)
    requires Leads(w, cs, v) && Leads(v, ds, u)
    ensures Leads(w, cs + ds, u)
    decreases |cs|
  {
    if cs == [] {
      assert cs + ds == ds;
    } else {
      assert (cs + ds)[0] == cs[0] && (cs + ds)[1..] == cs[1..] + ds;
      LeadsOn(I.Next(w, cs[0]), cs[1..], v, ds, u);
    }
  }

  lemma OneSection(w: I.Shared, c: I.Section)
    requires I.Possible(w, c) && w.records.Keys <= w.history.Keys
    ensures Leads(w, [c], I.Next(w, c))
  {
    assert [c][1..] == [];
  }

  lemma TwoSections(w: I.Shared, c: I.Section, v: I.Shared, d: I.Section)
    requires I.Possible(w, c) && w.records.Keys <= w.history.Keys && v == I.Next(w, c)
    requires I.Possible(v, d) && v.records.Keys <= v.history.Keys
    ensures Leads(w, [c, d], I.Next(v, d))
  {
    OneSection(w, c);
    OneSection(v, d);
    LeadsOn(w, [c], v, [d], I.Next(v, d));
    assert [c] + [d] == [c, d];
  }

  // ---------------------------------------------------------------- what represents what

  /** Which attempt each task is. */
  type Places = map<TaskId, nat>

  function PhaseOf(task: Task): I.Phase {
    if task.Spawned? then I.Spawned else I.InRun
  }

  /** The shared records are the states in memory. */
  ghost predicate SameStates(s: Sys, w: I.Shared) {
    && w.records.Keys == s.downloads.Keys
    && (forall id :: id in s.downloads ==> w.records[id] == s.downloads[id].info.state)
    && w.records.Keys <= w.history.Keys <= s.seen
  }

  /** Each task is an attempt of its own, and nothing else is alive. */
  ghost predicate SameTasks(s: Sys, w: I.Shared, at: Places) {
    && at.Keys == s.tasks.Keys
    && (forall t :: t in s.tasks ==> at[t] < |w.attempts| && w.attempts[at[t]] == I.Attempt(s.tasks[t].id, PhaseOf(s.tasks[t])))
    && (forall t, u :: t in at && u in at && t != u ==> at[t] != at[u])
    && (forall a :: I.Live(w, a) ==> a in at.Values)
  }

  ghost predicate Represents(s: Sys, w: I.Shared, at: Places) {
    SameStates(s, w) && SameTasks(s, w, at)
  }

  lemma SameTasksAgain(s: Sys, r: Sys, w: I.Shared, v: I.Shared, at: Places)
    requires SameTasks(s, w, at) && r.tasks == s.tasks && v.attempts == w.attempts
    ensures SameTasks(r, v, at)
  {
    assert forall a :: I.Live(v, a) ==> I.Live(w, a);
  }

  lemma SameStatesAgain(s: Sys, r: Sys, w: I.Shared)
    requires SameStates(s, w) && r.downloads.Keys == s.downloads.Keys && s.seen <= r.seen
    requires forall id :: id in s.downloads ==> r.downloads[id].info.state == s.downloads[id].info.state
    ensures SameStates(r, w)
  {}

  lemma MovedStates(env: Env, s: Sys, id: Id, next: DownloadState, error: Option<string>)
    ensures var r := TransitionState(env, s, id, next, error).0;
            && r.downloads.Keys == s.downloads.Keys
            && (forall x :: x in s.downloads ==>
                  r.downloads[x].info.state ==
                  if x == id && IsValidTransition(s.downloads[x].info.state, next) then next
                  else s.downloads[x].info.state)
  {}

  lemma MoveFrame(env: Env, s: Sys, id: Id, next: DownloadState, error: Option<string>)
    ensures var r := TransitionState(env, s, id, next, error).0;
            r.tasks == s.tasks && r.seen == s.seen && r.nextTask == s.nextTask
  {}

  /** A move in memory is a write under the lock. */
  lemma MoveIsWrite(env: Env, s: Sys, id: Id, next: DownloadState, error: Option<string>, w: I.Shared)
    requires SameStates(s, w)
    ensures SameStates(TransitionState(env, s, id, next, error).0, I.Write(w, id, next))
    ensures I.Write(w, id, next).attempts == w.attempts
  {
    MovedStates(env, s, id, next, error);
    MoveFrame(env, s, id, next, error);
  }

  lemma MoveRepresents(env: Env, s: Sys, id: Id, next: DownloadState, error: Option<string>, w: I.Shared, at: Places)
    requires Represents(s, w, at)
    ensures Represents(TransitionState(env, s, id, next, error).0, I.Write(w, id, next), at)
  {
    MoveIsWrite(env, s, id, next, error, w);
    MoveFrame(env, s, id, next, error);
    SameTasksAgain(s, TransitionState(env, s, id, next, error).0, w, I.Write(w, id, next), at);
  }

  // ---------------------------------------------------------------- starting

  /** A new attempt for a new task. */
  lemma TaskJoins(s: Sys, r: Sys, w: I.Shared, v: I.Shared, at: Places, id: Id)
    requires SameTasks(s, w, at) && s.nextTask !in s.tasks
    requires r.tasks == s.tasks[s.nextTask := Spawned(id)] && v.attempts == w.attempts + [I.Attempt(id, I.Spawned)]
    ensures SameTasks(r, v, at[s.nextTask := |w.attempts|])
  {
    var at' := at[s.nextTask := |w.attempts|];
    forall a | I.Live(v, a)
      ensures a in at'.Values
    {
      if a < |w.attempts| {
        assert I.Live(w, a);
        var t :| t in at && at[t] == a;
        assert at'[t] == a;
      } else {
        assert at'[s.nextTask] == a;
      }
    }
  }

  /** An attempt that is over at once leaves the tasks as they are. */
  lemma NobodyJoins(s: Sys, r: Sys, w: I.Shared, v: I.Shared, at: Places, id: Id)
    requires SameTasks(s, w, at) && r.tasks == s.tasks && v.attempts == w.attempts + [I.Attempt(id, I.Over)]
    ensures SameTasks(r, v, at)
  {
    assert forall a :: I.Live(v, a) ==> I.Live(w, a);
  }

  /** What a claim followed by its outcome makes of the shared state. */
  lemma ClaimThen(w: I.Shared, id: Id, c: I.Section, phase: I.Phase)
    requires id in w.records && w.records[id].Queued? && w.records.Keys <= w.history.Keys
    requires (c == I.SpawnTask(|w.attempts|) && phase == I.Spawned) || (c == I.SaveFails(|w.attempts|) && phase == I.Over)
    ensures var v := I.Write(w, id, Starting).(attempts := w.attempts + [I.Attempt(id, phase)]);
            Leads(w, [I.Claim(id), c], v)
  {
    var v := I.Next(w, I.Claim(id));
    assert v.attempts == w.attempts + [I.Attempt(id, I.Claimed)];
    TwoSections(w, I.Claim(id), v, c);
    assert I.Next(v, c).attempts == w.attempts + [I.Attempt(id, phase)];
  }

  lemma BegunStates(env: Env, s: Sys, id: Id, w: I.Shared)
    requires SameStates(s, w) && StateOf(s, id) == Some(Queued)
    ensures SameStates(StartOne(env, s, id), I.Write(w, id, Starting))
  {
    var s0 := s.(queue := Without(s.queue, id));
    MoveIsWrite(env, s0, id, Starting, None, w);
    BegunLikeMoved(env, s, id);
    SameStatesAgain(TransitionState(env, s0, id, Starting, None).0, StartOne(env, s, id), I.Write(w, id, Starting));
  }

  lemma BegunLikeMoved(env: Env, s: Sys, id: Id)
    requires StateOf(s, id) == Some(Queued)
    ensures var (m, r) := (TransitionState(env, s.(queue := Without(s.queue, id)), id, Starting, None).0, StartOne(env, s, id));
            && r.downloads.Keys == m.downloads.Keys && r.seen == m.seen
            && forall x :: x in m.downloads ==> r.downloads[x].info.state == m.downloads[x].info.state
  {}

  lemma BegunTasks(env: Env, s: Sys, id: Id)
    requires StateOf(s, id) == Some(Queued)
    ensures StartOne(env, s, id).tasks == if env.disk(s.dbCalls) then s.tasks[s.nextTask := Spawned(id)] else s.tasks
  {
    MoveFrame(env, s.(queue := Without(s.queue, id)), id, Starting, None);
  }

  /** Starting a download is a claim, and then a spawned task, or an end to it when the save fails. */
  lemma StartRepresents(env: Env, s: Sys, id: Id, w: I.Shared, at: Places)
    returns (cs: seq<I.Section>, v: I.Shared, at': Places)
    requires StateOf(s, id) == Some(Queued) && s.nextTask !in s.tasks && Represents(s, w, at)
    ensures Leads(w, cs, v) && Represents(StartOne(env, s, id), v, at')
  {
    var r, a := StartOne(env, s, id), |w.attempts|;
    BegunStates(env, s, id, w);
    BegunTasks(env, s, id);
    if env.disk(s.dbCalls) {
      cs, at' := [I.Claim(id), I.SpawnTask(a)], at[s.nextTask := a];
      v := I.Write(w, id, Starting).(attempts := w.attempts + [I.Attempt(id, I.Spawned)]);
      ClaimThen(w, id, I.SpawnTask(a), I.Spawned);
      TaskJoins(s, r, w, v, at, id);
    } else {
      cs, at' := [I.Claim(id), I.SaveFails(a)], at;
      v := I.Write(w, id, Starting).(attempts := w.attempts + [I.Attempt(id, I.Over)]);
      ClaimThen(w, id, I.SaveFails(a), I.Over);
      NobodyJoins(s, r, w, v, at, id);
    }
  }

  lemma {:induction false} ScheduleRepresents(cfg: Config, env: Env, s: Sys, w: I.Shared, at: Places)
    returns (cs: seq<I.Section>, v: I.Shared, at': Places)
    requires Safe(cfg, s) && Represents(s, w, at)
    ensures Leads(w, cs, v) && Represents(Schedule(cfg, env, s), v, at')
    decreases |s.queue|
  {
    var ids := Selected(cfg, s);
    if ids == [] {
      cs, v, at' := [], w, at;
    } else {
      FirstSelected(cfg, env, s);
      NextIsFresh(cfg, s);
      var cs1, v1, at1 := StartRepresents(env, s, ids[0], w, at);
      var cs2;
      cs2, v, at' := ScheduleRepresents(cfg, env, StartOne(env, s, ids[0]), v1, at1);
      LeadsOn(w, cs1, v1, cs2, v);
      cs := cs1 + cs2;
    }
  }

  lemma NextIsFresh(cfg: Config, s: Sys)
    requires Safe(cfg, s)
    ensures s.nextTask !in s.tasks
  {}

  // ---------------------------------------------------------------- tasks

  /** A task whose attempt is over is gone. */
  lemma TaskLeaves(s: Sys, r: Sys, w: I.Shared, v: I.Shared, at: Places, t: TaskId)
    requires SameTasks(s, w, at) && t in s.tasks && r.tasks == s.tasks - {t}
    requires v.attempts == w.attempts[at[t] := w.attempts[at[t]].(phase := I.Over)]
    ensures SameTasks(r, v, at - {t})
  {
    var at' := at - {t};
    forall a | I.Live(v, a)
      ensures a in at'.Values
    {
      assert I.Live(w, a);
      var u :| u in at && at[u] == a;
      assert u != t && at'[u] == a;
    }
  }

  /** A task that enters its backend. */
  lemma TaskEnters(s: Sys, r: Sys, w: I.Shared, v: I.Shared, at: Places, t: TaskId, task: Task)
    requires SameTasks(s, w, at) && t in s.tasks && task.Running? && task.id == s.tasks[t].id
    requires r.tasks == s.tasks[t := task]
    requires v.attempts == w.attempts[at[t] := w.attempts[at[t]].(phase := I.InRun)]
    ensures SameTasks(r, v, at)
  {
    forall a | I.Live(v, a)
      ensures a in at.Values
    {
      if a == at[t] {
        assert at[t] in at.Values;
      } else {
        assert I.Live(w, a);
      }
    }
  }

  /** The end of an attempt is a write of its verdict. */
  lemma EndIsWrite(env: Env, s: Sys, id: Id, r: BackendResult, w: I.Shared)
    requires SameStates(s, w)
    ensures var m := Settle(env, s, id, r);
            SameStates(m, I.Write(w, id, Verdict(r, id in s.intents))) && m.tasks == s.tasks
  {
    var s1 := s.(intents := s.intents - {id});
    match r
    case Finished(_, _, _) =>
      var m := RecordOutcome(env, s, id, r);
      SameStatesAgain(s, m, w);
      EndMove(env, m, id, Completed, None, w);
    case Stopped =>
      EndMove(env, s1, id, Paused, Some("paused by user"), w);
      EndMove(env, s1, id, Cancelled, Some("cancelled by user"), w);
    case Broken(error) => EndMove(env, s1, id, Failed, Some(error), w);
  }

  lemma EndMove(env: Env, s: Sys, id: Id, next: DownloadState, error: Option<string>, w: I.Shared)
    requires SameStates(s, w)
    ensures var r := TransitionState(env, s, id, next, error).0;
            SameStates(r, I.Write(w, id, next)) && r.tasks == s.tasks
  {
    MoveIsWrite(env, s, id, next, error, w);
    MoveFrame(env, s, id, next, error);
  }

  /** The final write of an attempt, and the section before it. */
  lemma FinalWriteAfter(w: I.Shared, a: nat, c: I.Section, to: I.Verdict)
    requires a < |w.attempts| && w.records.Keys <= w.history.Keys && I.Possible(w, c)
    requires || (c == I.Leave(a, to))
             || (c == I.Look(a, false) && to.Failed? && w.attempts[a].id in w.records && w.records[w.attempts[a].id].Active())
    ensures var v := I.Write(w, w.attempts[a].id, to).(attempts := w.attempts[a := w.attempts[a].(phase := I.Over)]);
            Leads(w, [c, I.FinalWrite(a)], v)
  {
    var u := I.Next(w, c);
    TwoSections(w, c, u, I.FinalWrite(a));
    assert u == w.(attempts := u.attempts) && |u.attempts| == |w.attempts|;
    assert I.Next(u, I.FinalWrite(a)).attempts == w.attempts[a := w.attempts[a].(phase := I.Over)];
  }

  lemma SettleRepresents(env: Env, s: Sys, t: TaskId, r: BackendResult, w: I.Shared, at: Places)
    returns (cs: seq<I.Section>, v: I.Shared, at': Places)
    requires t in s.tasks && s.tasks[t].Running? && Represents(s, w, at)
    ensures Leads(w, cs, v) && Represents(SettleTask(env, s, t, r), v, at')
  {
    var id, a, to := s.tasks[t].id, at[t], Verdict(r, s.tasks[t].id in s.intents);
    SameStatesAgain(s, DropTask(s, t), w);
    EndIsWrite(env, DropTask(s, t), id, r, w);
    cs, at' := [I.Leave(a, to), I.FinalWrite(a)], at - {t};
    v := I.Write(w, id, to).(attempts := w.attempts[a := w.attempts[a].(phase := I.Over)]);
    FinalWriteAfter(w, a, I.Leave(a, to), to);
    TaskLeaves(s, SettleTask(env, s, t, r), w, v, at, t);
  }

  lemma FailureRepresents(env: Env, s: Sys, t: TaskId, w: I.Shared, at: Places)
    returns (cs: seq<I.Section>, v: I.Shared, at': Places)
    requires t in s.tasks && s.tasks[t].Spawned? && Represents(s, w, at)
    requires s.tasks[t].id in s.downloads && s.downloads[s.tasks[t].id].info.state.Active()
    ensures Leads(w, cs, v) && Represents(FailWithoutBackend(env, s, t), v, at')
  {
    var id, a := s.tasks[t].id, at[t];
    SameStatesAgain(s, DropTask(s, t), w);
    EndMove(env, DropTask(s, t), id, Failed, Some(NO_BACKEND), w);
    cs, at' := [I.Look(a, false), I.FinalWrite(a)], at - {t};
    v := I.Write(w, id, Failed).(attempts := w.attempts[a := w.attempts[a].(phase := I.Over)]);
    FinalWriteAfter(w, a, I.Look(a, false), Failed);
    TaskLeaves(s, FailWithoutBackend(env, s, t), w, v, at, t);
  }

  /** A task whose download is not active, or that was aborted, is over without a write. */
  lemma DropRepresents(s: Sys, t: TaskId, w: I.Shared, at: Places)
    returns (cs: seq<I.Section>, v: I.Shared, at': Places)
    requires t in s.tasks && Represents(s, w, at)
    ensures Leads(w, cs, v) && Represents(DropTask(s, t), v, at')
  {
    var a := at[t];
    cs, v, at' := [I.Abort(a)], I.Next(w, I.Abort(a)), at - {t};
    OneSection(w, I.Abort(a));
    SameStatesAgain(s, DropTask(s, t), w);
    TaskLeaves(s, DropTask(s, t), w, v, at, t);
  }

  /** A task that has nothing to run looks at its record, and is over. */
  lemma IdleRepresents(cfg: Config, env: Env, s: Sys, t: TaskId, w: I.Shared, at: Places)
    returns (cs: seq<I.Section>, v: I.Shared, at': Places)
    requires t in s.tasks && s.tasks[t].Spawned? && Represents(s, w, at)
    requires s.tasks[t].id !in s.downloads || !s.downloads[s.tasks[t].id].info.state.Active()
    ensures Leads(w, cs, v) && Represents(TaskBegin(cfg, env, s, t), v, at')
  {
    var a := at[t];
    cs, v, at' := [I.Look(a, true)], I.Next(w, I.Look(a, true)), at - {t};
    OneSection(w, I.Look(a, true));
    SameStatesAgain(s, DropTask(s, t), w);
    TaskLeaves(s, DropTask(s, t), w, v, at, t);
  }

  lemma HandOverRepresents(cfg: Config, env: Env, s: Sys, t: TaskId, w: I.Shared, at: Places)
    returns (cs: seq<I.Section>, v: I.Shared, at': Places)
    requires t in s.tasks && s.tasks[t].Spawned? && Represents(s, w, at)
    requires s.tasks[t].id in s.downloads && s.downloads[s.tasks[t].id].info.state.Active()
    requires s.downloads[s.tasks[t].id].info.backend in cfg.backends
    ensures Leads(w, cs, v) && Represents(TaskBegin(cfg, env, s, t), v, at')
  {
    var a, r := at[t], TaskBegin(cfg, env, s, t);
    var u := I.Next(w, I.Look(a, true));
    cs, at' := [I.Look(a, true), I.Enter(a)], at;
    v := I.Next(u, I.Enter(a));
    TwoSections(w, I.Look(a, true), u, I.Enter(a));
    SameStatesAgain(s, r, w);
    assert v.attempts == w.attempts[a := w.attempts[a].(phase := I.InRun)];
    TaskEnters(s, r, w, v, at, t, r.tasks[t]);
  }

  // ---------------------------------------------------------------- the steps

  lemma ArrivalRepresents(cfg: Config, env: Env, s: Sys, id: Id, spec: Spec, w: I.Shared, at: Places)
    requires Safe(cfg, s) && id !in s.seen && Represents(s, w, at)
    ensures I.Possible(w, I.Insert(id)) && Represents(Admitted(env, s, id, spec), I.Next(w, I.Insert(id)), at)
    ensures Represents(Record(env, s, id, spec).0, w, at)
  {
    SameTasksAgain(s, Admitted(env, s, id, spec), w, I.Next(w, I.Insert(id)), at);
    SameStatesAgain(s, Record(env, s, id, spec).0, w);
    SameTasksAgain(s, Record(env, s, id, spec).0, w, w, at);
  }

  lemma ForgettingRepresents(env: Env, s: Sys, id: Id, w: I.Shared, at: Places)
    requires Represents(s, w, at)
    ensures Represents(Forget(env, s, id).0, I.Next(w, I.Drop(id)), at)
  {
    SameTasksAgain(s, Forget(env, s, id).0, w, I.Next(w, I.Drop(id)), at);
  }

  lemma RequeueRepresents(env: Env, s: Sys, id: Id, w: I.Shared, at: Places)
    requires Represents(s, w, at)
    ensures Represents(Requeue(env, s, id).0, I.Next(w, I.Requeue(id)), at)
    ensures Represents(Publish(Requeue(env, s, id).0, OnResumed(id)), I.Next(w, I.Requeue(id)), at)
  {
    var m := TransitionState(env, s, id, Queued, None).0;
    MoveRepresents(env, s, id, Queued, None, w, at);
    SameStatesAgain(m, Requeue(env, s, id).0, I.Next(w, I.Requeue(id)));
    SameTasksAgain(m, Requeue(env, s, id).0, I.Next(w, I.Requeue(id)), I.Next(w, I.Requeue(id)), at);
  }

  lemma CancelRepresents(env: Env, s: Sys, id: Id, w: I.Shared, at: Places)
    returns (cs: seq<I.Section>, v: I.Shared)
    requires Represents(s, w, at)
    ensures Leads(w, cs, v) && Represents(Cancel(env, s, id).0, v, at)
  {
    if id in s.downloads && !s.downloads[id].info.state.Active() && !s.downloads[id].info.state.Terminal() {
      CancelNowRepresents(env, s, id, w, at);
      cs, v := [I.CancelNow(id)], I.Next(w, I.CancelNow(id));
      OneSection(w, I.CancelNow(id));
    } else {
      cs, v := [], w;
      LateCancelRepresents(env, s, id, w, at);
    }
  }

  lemma CancelNowRepresents(env: Env, s: Sys, id: Id, w: I.Shared, at: Places)
    requires id in s.downloads && !s.downloads[id].info.state.Active() && !s.downloads[id].info.state.Terminal()
    requires Represents(s, w, at)
    ensures Represents(Cancel(env, s, id).0, I.Next(w, I.CancelNow(id)), at)
  {
    var s0 := s.(queue := Without(s.queue, id));
    var m, v := TransitionState(env, s0, id, Cancelled, Some("cancelled by user")).0, I.Next(w, I.CancelNow(id));
    MoveRepresents(env, s0, id, Cancelled, Some("cancelled by user"), w, at);
    SameStatesAgain(m, Cancel(env, s, id).0, v);
    SameTasksAgain(m, Cancel(env, s, id).0, v, v, at);
  }

  lemma LateCancelRepresents(env: Env, s: Sys, id: Id, w: I.Shared, at: Places)
    requires id !in s.downloads || s.downloads[id].info.state.Active() || s.downloads[id].info.state.Terminal()
    requires Represents(s, w, at)
    ensures Represents(Cancel(env, s, id).0, w, at)
  {
    SameStatesAgain(s, Cancel(env, s, id).0, w);
    SameTasksAgain(s, Cancel(env, s, id).0, w, w, at);
  }

  lemma ReportedStates(env: Env, s: Sys, id: Id, downloaded: u64, total: Option<u64>)
    ensures var r := Progress(env, s, id, downloaded, total);
            && r.downloads.Keys == s.downloads.Keys && r.seen == s.seen && r.tasks == s.tasks
            && (forall x :: x in s.downloads ==>
                  r.downloads[x].info.state ==
                  if x == id && s.downloads[x].info.state.Starting? then Downloading else s.downloads[x].info.state)
  {}

  lemma ReportIsWrite(s: Sys, r: Sys, id: Id, w: I.Shared)
    requires SameStates(s, w) && r.downloads.Keys == s.downloads.Keys && r.seen == s.seen
    requires forall x :: x in s.downloads ==>
               r.downloads[x].info.state ==
               if x == id && s.downloads[x].info.state.Starting? then Downloading else s.downloads[x].info.state
    ensures SameStates(r, I.Next(w, I.Report(id))) && I.Next(w, I.Report(id)).attempts == w.attempts
  {}

  lemma ReportRepresents(env: Env, s: Sys, id: Id, downloaded: u64, total: Option<u64>, w: I.Shared, at: Places)
    requires Represents(s, w, at)
    ensures Represents(Progress(env, s, id, downloaded, total), I.Next(w, I.Report(id)), at)
  {
    var r := Progress(env, s, id, downloaded, total);
    ReportedStates(env, s, id, downloaded, total);
    ReportIsWrite(s, r, id, w);
    SameTasksAgain(s, r, w, I.Next(w, I.Report(id)), at);
  }

  lemma HandedRepresents(cfg: Config, env: Env, s: Sys, op: Op, w: I.Shared, at: Places)
    returns (cs: seq<I.Section>, v: I.Shared, at': Places)
    requires Safe(cfg, s) && Enabled(s, op) && EndsInSchedule(cfg, env, s, op) && Represents(s, w, at)
    ensures Leads(w, cs, v) && Represents(Handed(cfg, env, s, op), v, at')
  {
    at' := at;
    match op
    case DoEnqueue(id, spec) =>
      ArrivalRepresents(cfg, env, s, id, spec, w, at);
      cs, v := [I.Insert(id)], I.Next(w, I.Insert(id));
      OneSection(w, I.Insert(id));
    case DoResume(id) =>
      RequeueRepresents(env, s, id, w, at);
      cs, v := [I.Requeue(id)], I.Next(w, I.Requeue(id));
      OneSection(w, I.Requeue(id));
    case DoRetry(id) =>
      RequeueRepresents(env, s, id, w, at);
      cs, v := [I.Requeue(id)], I.Next(w, I.Requeue(id));
      OneSection(w, I.Requeue(id));
    case DoRemove(id) =>
      ForgettingRepresents(env, s, id, w, at);
      cs, v := [I.Drop(id)], I.Next(w, I.Drop(id));
      OneSection(w, I.Drop(id));
    case DoTaskBegin(t) => cs, v, at' := FailureRepresents(env, s, t, w, at);
    case DoTaskEnd(t, r) => cs, v, at' := SettleRepresents(env, s, t, r, w, at);
  }

  lemma TaskBeginRepresents(cfg: Config, env: Env, s: Sys, t: TaskId, w: I.Shared, at: Places)
    returns (cs: seq<I.Section>, v: I.Shared, at': Places)
    requires Enabled(s, DoTaskBegin(t)) && !EndsInSchedule(cfg, env, s, DoTaskBegin(t)) && Represents(s, w, at)
    ensures Leads(w, cs, v) && Represents(TaskBegin(cfg, env, s, t), v, at')
  {
    var id := s.tasks[t].id;
    if id in s.downloads && s.downloads[id].info.state.Active() {
      cs, v, at' := HandOverRepresents(cfg, env, s, t, w, at);
    } else {
      cs, v, at' := IdleRepresents(cfg, env, s, t, w, at);
    }
  }

  lemma RefusalRepresents(cfg: Config, env: Env, s: Sys, op: Op, w: I.Shared, at: Places)
    returns (cs: seq<I.Section>, v: I.Shared)
    requires Enabled(s, op) && (op.DoResume? || op.DoRetry?) && !EndsInSchedule(cfg, env, s, op) && Represents(s, w, at)
    ensures Leads(w, cs, v) && Represents(Apply(cfg, env, s, op).0, v, at)
  {
    if StateOf(s, op.id) == Some(if op.DoResume? then Paused else Failed) {
      RequeueRepresents(env, s, op.id, w, at);
      cs, v := [I.Requeue(op.id)], I.Next(w, I.Requeue(op.id));
      OneSection(w, I.Requeue(op.id));
    } else {
      cs, v := [], w;
    }
  }

  lemma FailedRemovalRepresents(env: Env, s: Sys, id: Id, w: I.Shared, at: Places)
    returns (cs: seq<I.Section>, v: I.Shared)
    requires Represents(s, w, at)
    ensures Leads(w, cs, v) && Represents(Forget(env, s, id).0, v, at)
  {
    ForgettingRepresents(env, s, id, w, at);
    cs, v := [I.Drop(id)], I.Next(w, I.Drop(id));
    OneSection(w, I.Drop(id));
  }

  /** Pausing and shutting down go on outside the lock around the records, as far as states are concerned. */
  lemma MarksRepresent(s: Sys, id: Id, w: I.Shared, at: Places)
    requires Represents(s, w, at)
    ensures Represents(Pause(s, id).0, w, at) && Represents(Shutdown(s), w, at)
  {
    SameStatesAgain(s, Pause(s, id).0, w);
    SameTasksAgain(s, Pause(s, id).0, w, w, at);
    SameStatesAgain(s, Shutdown(s), w);
    SameTasksAgain(s, Shutdown(s), w, w, at);
  }

  lemma QuietCallRepresents(cfg: Config, env: Env, s: Sys, op: Op, w: I.Shared, at: Places)
    returns (cs: seq<I.Section>, v: I.Shared)
    requires Safe(cfg, s) && Enabled(s, op) && !EndsInSchedule(cfg, env, s, op) && Represents(s, w, at)
    requires op.DoEnqueue? || op.DoResume? || op.DoRetry? || op.DoRemove? || op.DoCancel? || op.DoPause? || op.DoShutdown?
    ensures Leads(w, cs, v) && Represents(Apply(cfg, env, s, op).0, v, at)
  {
    cs, v := [], w;
    match op
    case DoEnqueue(id, spec) => ArrivalRepresents(cfg, env, s, id, spec, w, at);
    case DoResume(_) => cs, v := RefusalRepresents(cfg, env, s, op, w, at);
    case DoRetry(_) => cs, v := RefusalRepresents(cfg, env, s, op, w, at);
    case DoRemove(id) => cs, v := FailedRemovalRepresents(env, s, id, w, at);
    case DoCancel(id) => cs, v := CancelRepresents(env, s, id, w, at);
    case DoPause(id) => MarksRepresent(s, id, w, at);
    case DoShutdown => MarksRepresent(s, 0, w, at);
  }

  lemma ExplicitStartRepresents(cfg: Config, env: Env, s: Sys, id: Id, w: I.Shared, at: Places)
    returns (cs: seq<I.Section>, v: I.Shared, at': Places)
    requires Safe(cfg, s) && Represents(s, w, at)
    ensures Leads(w, cs, v) && Represents(Start(cfg, env, s, id).0, v, at')
  {
    cs, v, at' := [], w, at;
    if StateOf(s, id) == Some(Queued) && CountActive(s.downloads) < cfg.limit {
      NextIsFresh(cfg, s);
      cs, v, at' := StartRepresents(env, s, id, w, at);
    }
  }

  lemma ProgressRepresents(env: Env, s: Sys, id: Id, downloaded: u64, total: Option<u64>, w: I.Shared, at: Places)
    returns (cs: seq<I.Section>, v: I.Shared)
    requires Represents(s, w, at)
    ensures Leads(w, cs, v) && Represents(Progress(env, s, id, downloaded, total), v, at)
  {
    ReportRepresents(env, s, id, downloaded, total, w, at);
    cs, v := [I.Report(id)], I.Next(w, I.Report(id));
    OneSection(w, I.Report(id));
  }

  lemma QuietRepresents(cfg: Config, env: Env, s: Sys, op: Op, w: I.Shared, at: Places)
    returns (cs: seq<I.Section>, v: I.Shared, at': Places)
    requires Safe(cfg, s) && Enabled(s, op) && !EndsInSchedule(cfg, env, s, op) && Represents(s, w, at)
    ensures Leads(w, cs, v) && Represents(Apply(cfg, env, s, op).0, v, at')
  {
    cs, v, at' := [], w, at;
    match op
    case DoStart(id) => cs, v, at' := ExplicitStartRepresents(cfg, env, s, id, w, at);
    case DoProgress(id, n, total) => cs, v := ProgressRepresents(env, s, id, n, total, w, at);
    case DoTaskBegin(t) => cs, v, at' := TaskBeginRepresents(cfg, env, s, t, w, at);
    case DoTaskVanish(t) => cs, v, at' := DropRepresents(s, t, w, at);
    case _ => cs, v := QuietCallRepresents(cfg, env, s, op, w, at);
  }

  /** Every step of the manager, on any disk, is a sequence of critical sections and moves of its tasks. */
  lemma StepIsInterleaved(cfg: Config, env: Env, s: Sys, op: Op, w: I.Shared, at: Places)
    returns (cs: seq<I.Section>, v: I.Shared, at': Places)
    requires Safe(cfg, s) && Enabled(s, op) && Represents(s, w, at)
    ensures Leads(w, cs, v) && Represents(Apply(cfg, env, s, op).0, v, at')
  {
    if EndsInSchedule(cfg, env, s, op) {
      SchedulesExactlyWithAgenda(cfg, env, s, op);
      SelectsWhatBegins(cfg, env, s, op);
      var cs1, v1, at1 := HandedRepresents(cfg, env, s, op, w, at);
      var cs2;
      cs2, v, at' := ScheduleRepresents(cfg, env, Handed(cfg, env, s, op), v1, at1);
      LeadsOn(w, cs1, v1, cs2, v);
      cs := cs1 + cs2;
    } else {
      cs, v, at' := QuietRepresents(cfg, env, s, op, w, at);
    }
  }

  // ---------------------------------------------------------------- whole runs

  lemma {:induction false} LeadsInTrace(w: I.Shared, cs: seq<I.Section>, v: I.Shared, shared: seq<I.Shared>, sections: seq<I.Section>)
    returns (longer: seq<I.Shared>)
    requires I.Interleaved(shared, sections) && shared[|sections|] == w && Leads(w, cs, v)
    ensures I.Interleaved(longer, sections + cs) && longer[|sections + cs|] == v
    decreases |cs|
  {
    if cs == [] {
      longer := shared;
      assert sections + cs == sections;
    } else {
      var next := shared + [I.Next(w, cs[0])];
      OneMoreSection(shared, sections, cs[0]);
      longer := LeadsInTrace(I.Next(w, cs[0]), cs[1..], v, next, sections + [cs[0]]);
      assert sections + [cs[0]] + cs[1..] == sections + cs;
    }
  }

  lemma OneMoreSection(shared: seq<I.Shared>, sections: seq<I.Section>, c: I.Section)
    requires I.Interleaved(shared, sections)
    requires var w := shared[|sections|]; I.Possible(w, c) && w.records.Keys <= w.history.Keys
    ensures I.Interleaved(shared + [I.Next(shared[|sections|], c)], sections + [c])
  {}

  /** What an interleaving starts from, for a manager just opened. */
  function Opened(s: Sys): I.Shared {
    I.Shared(States(s.downloads), map id | id in s.downloads :: [s.downloads[id].info.state], [])
  }

  lemma AtRestRepresents(s: Sys)
    requires s.tasks == map[] && s.downloads.Keys <= s.seen
    requires forall id :: id in s.downloads ==> !s.downloads[id].info.state.Active()
    ensures Represents(s, Opened(s), map[]) && I.JustOpened(Opened(s))
  {}

  lemma NobodyIsActive(policy: RecoveryPolicy, db: Table, s: Sys)
    requires Reopened(policy, db, s)
    ensures s.tasks == map[] && s.downloads.Keys <= s.seen
    ensures forall id :: id in s.downloads ==> !s.downloads[id].info.state.Active()
  {
    forall id | id in s.downloads
      ensures !s.downloads[id].info.state.Active()
    {
      ReopenedRecord(policy, db, s, id);
    }
  }

  lemma OpenedRepresents(cfg: Config, env: Env, db: Table)
    requires Open(cfg, env, db).1
    ensures var s := Open(cfg, env, db).0; Represents(s, Opened(s), map[]) && I.JustOpened(Opened(s))
  {
    OpenRecovers(cfg, env, db);
    NobodyIsActive(cfg.policy, db, Open(cfg, env, db).0);
    AtRestRepresents(Open(cfg, env, db).0);
  }

  lemma OpenedInterleaving(cfg: Config, env: Env, db: Table)
    returns (shared: seq<I.Shared>, sections: seq<I.Section>, at: Places)
    requires Open(cfg, env, db).1
    ensures I.Interleaved(shared, sections) && Represents(Open(cfg, env, db).0, shared[|sections|], at)
  {
    OpenedRepresents(cfg, env, db);
    shared, sections, at := [Opened(Open(cfg, env, db).0)], [], map[];
  }

  lemma InterleavedOneMore(cfg: Config, env: Env, trace: seq<Sys>, ops: seq<Op>, k: nat, w: I.Shared, at: Places)
    returns (cs: seq<I.Section>, v: I.Shared, at': Places)
    requires Steps(cfg, env, trace, ops) && k < |ops| && Safe(cfg, trace[k]) && Represents(trace[k], w, at)
    ensures Leads(w, cs, v) && Represents(trace[k + 1], v, at')
  {
    cs, v, at' := StepIsInterleaved(cfg, env, trace[k], ops[k], w, at);
  }

  lemma LongerInterleaving(cfg: Config, env: Env, trace: seq<Sys>, ops: seq<Op>, k: nat, shared: seq<I.Shared>,
                           sections: seq<I.Section>, at: Places)
    returns (shared': seq<I.Shared>, sections': seq<I.Section>, at': Places)
    requires Steps(cfg, env, trace, ops) && k < |ops| && Safe(cfg, trace[k])
    requires I.Interleaved(shared, sections) && Represents(trace[k], shared[|sections|], at)
    ensures I.Interleaved(shared', sections') && Represents(trace[k + 1], shared'[|sections'|], at')
  {
    var cs, v;
    cs, v, at' := InterleavedOneMore(cfg, env, trace, ops, k, shared[|sections|], at);
    shared' := LeadsInTrace(shared[|sections|], cs, v, shared, sections);
    sections' := sections + cs;
  }

  /** The interleaving ends in what represents `s`. */
  ghost predicate EndsIn(shared: seq<I.Shared>, sections: seq<I.Section>, s: Sys, at: Places) {
    I.Interleaved(shared, sections) && Represents(s, shared[|sections|], at)
  }

  lemma {:induction false} StepsAreInterleaved(cfg: Config, env: Env, trace: seq<Sys>, ops: seq<Op>, k: nat,
                                               shared: seq<I.Shared>, sections: seq<I.Section>, at: Places)
    returns (shared': seq<I.Shared>, sections': seq<I.Section>, at': Places)
    requires Steps(cfg, env, trace, ops) && Safe(cfg, trace[0]) && k < |trace| && EndsIn(shared, sections, trace[0], at)
    ensures EndsIn(shared', sections', trace[k], at')
    decreases k
  {
    if k == 0 {
      shared', sections', at' := shared, sections, at;
    } else {
      var before, earlier, at1 := StepsAreInterleaved(cfg, env, trace, ops, k - 1, shared, sections, at);
      StepsAreSafe(cfg, env, trace, ops, k - 1);
      shared', sections', at' := LongerInterleaving(cfg, env, trace, ops, k - 1, before, earlier, at1);
    }
  }

  /**
   * Every run of a manager, on any disk, is an interleaving of critical sections that ends in the same states, with one
   * attempt for each task; so what holds under every interleaving holds of it.
   */
  lemma RunIsInterleaved(cfg: Config, env: Env, db: Table, trace: seq<Sys>, ops: seq<Op>, k: nat)
    returns (shared: seq<I.Shared>, sections: seq<I.Section>, at: Places)
    requires Life(cfg, env, db, trace, ops) && k < |trace|
    ensures I.Interleaved(shared, sections) && Represents(trace[k], shared[|sections|], at)
  {
    LifeIsSafe(cfg, env, db, trace, ops, 0);
    shared, sections, at := OpenedInterleaving(cfg, env, db);
    shared, sections, at := StepsAreInterleaved(cfg, env, trace, ops, k, shared, sections, at);
  }
}
