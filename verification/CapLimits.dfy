/** When the running attempts together stay within the global cap, and a run in which they do not. */
module CapLimits {
  import opened Wrappers
  import opened Lifecycle
  import opened Queues
  import opened Records
  import opened Bandwidth
  import opened ManagerModel
  import opened Safety
  import opened SafeSteps
  import opened Scheduling
  import opened Consistency
  import opened Recovery
  import opened Runs
  import opened SharedBandwidth
  import opened Effects

  /** The sum of the rates of the limiters held for known downloads. */
  ghost function RateOf(s: Sys): nat {
    TotalRate(s.running, s.tasks, s.downloads.Keys)
  }

  // ---------------------------------------------------------------- within the cap

  lemma {:induction false} RatesAtMostEach(ts: seq<TaskId>, tasks: Tasks, known: set<Id>, each: nat)
    requires forall t :: t in ts && Limited(t, tasks, known) ==> tasks[t].rate.value <= each
    ensures TotalRate(ts, tasks, known) <= LimitedCount(ts, tasks, known) * each
  {
    if ts != [] {
      RatesAtMostEach(ts[..|ts| - 1], tasks, known, each);
      assert ts[|ts| - 1] in ts;
    }
  }

  lemma WholeShares(cap: nat, n: nat, m: nat)
    requires n <= m && 0 < m
    ensures n * (cap / m) <= cap
  {
    ProductGrows(n, m, cap / m);
  }

  /** The cap is kept whenever every attempt, when it started, saw at least as many active downloads as now hold limiters. */
  lemma WithinCapWhenAllSawAll(cfg: Config, s: Sys, cap: u64)
    requires Safe(cfg, s) && cfg.cap == Some(cap)
    requires forall t :: t in s.running && Limited(t, s.tasks, s.downloads.Keys) ==>
               s.tasks[t].seenActive >= LimitedCount(s.running, s.tasks, s.downloads.Keys) > 0
    ensures RateOf(s) <= cap
  {
    var n := LimitedCount(s.running, s.tasks, s.downloads.Keys);
    if n > 0 {
      forall t | t in s.running && Limited(t, s.tasks, s.downloads.Keys)
        ensures s.tasks[t].rate.value <= cap / n
      {
        QuotientShrinks(cap, n, s.tasks[t].seenActive);
      }
      RatesAtMostEach(s.running, s.tasks, s.downloads.Keys, cap / n);
      WholeShares(cap, n, n);
    } else {
      NoLimitersNoRate(s.running, s.tasks, s.downloads.Keys);
    }
  }

  lemma {:induction false} NoLimitersNoRate(ts: seq<TaskId>, tasks: Tasks, known: set<Id>)
    requires LimitedCount(ts, tasks, known) == 0
    ensures TotalRate(ts, tasks, known) == 0
  {
    if ts != [] {
      NoLimitersNoRate(ts[..|ts| - 1], tasks, known);
    }
  }

  // ---------------------------------------------------------------- a run that reaches the bound

  /** `n` attempts are running, one after the other started, and nothing waits. */
  ghost predicate Full(s: Sys, cap: u64, n: nat) {
    && s.queue == [] && CountActive(s.downloads) == n
    && (forall t :: t in s.running ==> t in s.tasks && s.tasks[t].Running? && s.tasks[t].id in s.downloads)
    && RateOf(s) == SharesUpTo(cap, n)
  }

  lemma {:induction false} FreshId(used: set<Id>) returns (id: Id)
    ensures id !in used && forall x :: x in used ==> x < id
    decreases |used|
  {
    id := 0;
    if used != {} {
      var x :| x in used;
      var y := FreshId(used - {x});
      assert forall z :: z in used ==> z == x || z in used - {x};
      id := if x < y then y else x + 1;
    }
  }

  lemma {:induction false} SameTasksSameRate(ts: seq<TaskId>, tasks: Tasks, known: set<Id>, tasks': Tasks, known': set<Id>)
    requires forall t :: t in ts ==> t in tasks && t in tasks' && tasks'[t] == tasks[t]
                                     && tasks[t].id in known && tasks[t].id in known'
    ensures TotalRate(ts, tasks', known') == TotalRate(ts, tasks, known)
  {
    if ts != [] {
      SameTasksSameRate(ts[..|ts| - 1], tasks, known, tasks', known');
      assert ts[|ts| - 1] in ts;
    }
  }

  /** Enqueueing into a manager with room and an empty queue spawns the newcomer's task at once. */
  lemma EnqueueSpawns(cfg: Config, env: Env, s: Sys, id: Id, spec: Spec)
    requires Reliable(env) && Safe(cfg, s) && id !in s.seen && Http in cfg.backends
    requires s.queue == [] && CountActive(s.downloads) < cfg.limit && spec.backend.Http?
    ensures var r := Schedule(cfg, env, Admitted(env, s, id, spec));
            && r.queue == [] && r.running == s.running && r.tasks == s.tasks[s.nextTask := Spawned(id)]
            && id in r.downloads && r.downloads[id].info.state.Starting? && r.downloads[id].info.backend.Http?
            && r.downloads.Keys == s.downloads.Keys + {id}
            && CountActive(r.downloads) == CountActive(s.downloads) + 1
  {
    var a := Admitted(env, s, id, spec);
    AdmissionIsSafe(cfg, env, s, id, spec);
    NewcomerFrame(env, s, id, spec);
    AdmissionOutcome(cfg, env, s, id, spec);
    assert [] + [id] == [id];
    ScheduleBeginsOnly(cfg, env, a, id);
  }

  lemma EnqueueSchedules(cfg: Config, env: Env, s: Sys, id: Id, spec: Spec)
    requires Reliable(env) && spec.backend in cfg.backends
    ensures Enqueue(cfg, env, s, id, spec).0 == Schedule(cfg, env, Admitted(env, s, id, spec))
  {
    assert env.disk(s.dbCalls);
  }

  lemma NewcomerFrame(env: Env, s: Sys, id: Id, spec: Spec)
    ensures var a := Admitted(env, s, id, spec);
            && a.running == s.running && a.tasks == s.tasks && a.nextTask == s.nextTask
            && a.downloads.Keys == s.downloads.Keys + {id}
  {}

  lemma ScheduleBeginsOnly(cfg: Config, env: Env, a: Sys, id: Id)
    requires Reliable(env) && Safe(cfg, a) && a.queue == [id] && StateOf(a, id) == Some(Queued)
    requires CountActive(a.downloads) < cfg.limit
    ensures var r := Schedule(cfg, env, a);
            && r.queue == [] && r.running == a.running && r.tasks == a.tasks[a.nextTask := Spawned(id)]
            && r.downloads.Keys == a.downloads.Keys && Begun(a.downloads[id].info, r.downloads[id].info)
            && CountActive(r.downloads) == CountActive(a.downloads) + 1
  {
    assert Selected(cfg, a) == [id] && env.disk(a.dbCalls);
    assert id in [id];
    ScheduleEffect(cfg, env, a);
    ScheduleRefinesSelector(cfg, env, a);
    SingleBegin(env, a, id);
  }

  lemma SingleBegin(env: Env, a: Sys, id: Id)
    requires StateOf(a, id) == Some(Queued) && env.disk(a.dbCalls) && a.queue == [id]
    ensures var r := BeginAll(env, a.(queue := a.queue[|[id]|..]), [id]);
            r.queue == [] && r.running == a.running && r.tasks == a.tasks[a.nextTask := Spawned(id)]
  {
    var b := BeginDownload(env, a.(queue := []), id);
    assert a.queue[1..] == [];
    assert BeginAll(env, a.(queue := []), [id]) == BeginAll(env, b, [id][1..]);
    assert [id][1..] == [];
  }

  /** That task, on entering its backend, gets the share of one more active download. */
  lemma ThenItRuns(cfg: Config, env: Env, s: Sys, m: Sys, id: Id, cap: u64, n: nat)
    requires Safe(cfg, s) && Full(s, cap, n) && cfg.cap == Some(cap) && Http in cfg.backends
    requires m.queue == [] && m.running == s.running && m.tasks == s.tasks[s.nextTask := Spawned(id)]
    requires id in m.downloads && m.downloads[id].info.state.Starting? && m.downloads[id].info.backend.Http?
    requires m.downloads.Keys == s.downloads.Keys + {id} && CountActive(m.downloads) == n + 1
    ensures Full(TaskBegin(cfg, env, m, s.nextTask), cap, n + 1)
  {
    var t := s.nextTask;
    var r := TaskBegin(cfg, env, m, t);
    assert r.running == s.running + [t] && r.tasks == m.tasks[t := Running(id, n + 1, LimiterFor(cfg.cap, n + 1))];
    SameTasksSameRate(s.running, s.tasks, s.downloads.Keys, r.tasks, r.downloads.Keys);
    assert r.running[..|r.running| - 1] == s.running;
  }

  lemma OneMoreStep(cfg: Config, env: Env, db: Table, trace: seq<Sys>, ops: seq<Op>, op: Op)
    requires Life(cfg, env, db, trace, ops) && Enabled(trace[|ops|], op)
    ensures Life(cfg, env, db, trace + [Apply(cfg, env, trace[|ops|], op).0], ops + [op])
  {
    var r := Apply(cfg, env, trace[|ops|], op).0;
    forall i | 0 <= i < |ops + [op]|
      ensures Enabled((trace + [r])[i], (ops + [op])[i])
      ensures (trace + [r])[i + 1] == Apply(cfg, env, (trace + [r])[i], (ops + [op])[i]).0
    {
      if i < |ops| {
        assert (ops + [op])[i] == ops[i];
      }
    }
  }

  lemma SomeMember(q: seq<Id>)
    ensures q == [] || exists x :: x in q
  {
    assert q == [] || q[0] in q;
  }

  lemma EmptyOpening(cfg: Config, env: Env, cap: u64)
    requires Reliable(env)
    ensures var (s, ok) := Open(cfg, env, map[]); ok && Full(s, cap, 0)
  {
    OpenRecovers(cfg, env, map[]);
    var s := Open(cfg, env, map[]).0;
    SomeMember(s.queue);
  }

  /** The bound is reached: starting one download after another makes the rates add up to cap/1 + ... + cap/n. */
  lemma {:induction false} BoundIsReached(cfg: Config, env: Env, cap: u64, n: nat, spec: Spec)
    returns (trace: seq<Sys>, ops: seq<Op>)
    requires spec.backend.Http? && Reliable(env) && cfg.cap == Some(cap) && Http in cfg.backends && n <= cfg.limit
    ensures Life(cfg, env, map[], trace, ops) && Full(trace[|ops|], cap, n)
    decreases n
  {
    if n == 0 {
      EmptyOpening(cfg, env, cap);
      trace, ops := [Open(cfg, env, map[]).0], [];
    } else {
      trace, ops := BoundIsReached(cfg, env, cap, n - 1, spec);
      trace, ops := OneMoreRunning(cfg, env, cap, n - 1, spec, trace, ops);
    }
  }

  lemma OneMoreRunning(cfg: Config, env: Env, cap: u64, n: nat, spec: Spec, trace: seq<Sys>, ops: seq<Op>)
    returns (trace': seq<Sys>, ops': seq<Op>)
    requires Reliable(env) && cfg.cap == Some(cap) && Http in cfg.backends && n < cfg.limit && spec.backend.Http?
    requires Life(cfg, env, map[], trace, ops) && Full(trace[|ops|], cap, n)
    ensures Life(cfg, env, map[], trace', ops') && Full(trace'[|ops'|], cap, n + 1)
  {
    var s := trace[|ops|];
    LifeIsSafe(cfg, env, map[], trace, ops, |ops|);
    var id := FreshId(s.seen);
    var enqueue, begin := DoEnqueue(id, spec), DoTaskBegin(s.nextTask);
    var m := Apply(cfg, env, s, enqueue).0;
    EnqueueSchedules(cfg, env, s, id, spec);
    EnqueueSpawns(cfg, env, s, id, spec);
    OneMoreStep(cfg, env, map[], trace, ops, enqueue);
    var trace1, ops1 := trace + [m], ops + [enqueue];
    assert trace1[|ops1|] == m;
    OneMoreStep(cfg, env, map[], trace1, ops1, begin);
    ThenItRuns(cfg, env, s, m, id, cap, n);
    trace', ops' := trace1 + [Apply(cfg, env, m, begin).0], ops1 + [begin];
  }

  // ---------------------------------------------------------------- the cap as a promise

  /** No run, on any disk and table, ever hands out more than the cap at one moment. */
  ghost predicate CapIsAlwaysKept(cfg: Config, cap: u64) {
    forall env: Env, db: Table, trace: seq<Sys>, ops: seq<Op>, k: nat ::
      Life(cfg, env, db, trace, ops) && k < |trace| ==> RateOf(trace[k]) <= cap
  }

  lemma SmallSums(cap: nat, n: nat)
    requires n <= 1 || cap <= 1
    ensures SharesUpTo(cap, n) <= cap
  {
    if n > 1 {
      SmallSums(cap, n - 1);
      assert cap / n == 0;
    }
  }

  lemma TwoShares(cap: nat)
    requires cap > 1
    ensures SharesUpTo(cap, 2) > cap
  {
    assert SharesUpTo(cap, 1) == SharesUpTo(cap, 0) + cap / 1;
    assert cap / 1 == cap && cap / 2 >= 1;
  }

  /**
   * One global cap shared by all active downloads is kept exactly when at most one download may run at a time, or the
   * cap is a single byte or none: an attempt keeps the rate it was given when fewer were active.
   */
  lemma CapIsKeptExactlyWhen(cfg: Config, cap: u64)
    requires cfg.cap == Some(cap) && Http in cfg.backends
    ensures CapIsAlwaysKept(cfg, cap) <==> cfg.limit <= 1 || cap <= 1
  {
    if cfg.limit <= 1 || cap <= 1 {
      forall env: Env, db: Table, trace: seq<Sys>, ops: seq<Op>, k: nat | Life(cfg, env, db, trace, ops) && k < |trace|
        ensures RateOf(trace[k]) <= cap
      {
        AggregateBandwidth(cfg, env, db, trace, ops, k, cap);
        SmallSums(cap, LimitedCount(trace[k].running, trace[k].tasks, trace[k].downloads.Keys));
      }
    } else {
      var env := Env(n => true, n => 0);
      var trace, ops := BoundIsReached(cfg, env, cap, 2, Spec("", "", Http, false, ""));
      TwoShares(cap);
      assert RateOf(trace[|ops|]) > cap;
      assert Life(cfg, env, map[], trace, ops) && |ops| < |trace|;
    }
  }
}
