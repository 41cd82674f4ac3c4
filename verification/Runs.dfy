/** Whole lives of a process: opened on some table, then any steps in any order, then perhaps a crash. */
module Runs {
  import opened Wrappers
  import opened Lifecycle
  import opened Queues
  import opened Records
  import opened ManagerModel
  import opened Safety
  import opened SafeSteps
  import opened Consistency
  import opened ConsistentSteps
  import opened Recovery
  import opened Scheduling

  /** The process went through `trace`, one step of `ops` at a time. */
  ghost predicate Steps(cfg: Config, env: Env, trace: seq<Sys>, ops: seq<Op>) {
    && |trace| == |ops| + 1
    && (forall i {:trigger ops[i]} :: 0 <= i < |ops| ==>
          Enabled(trace[i], ops[i]) && trace[i + 1] == Apply(cfg, env, trace[i], ops[i]).0)
  }

  /** The process opened successfully on some table, and went on from there. */
  ghost predicate Life(cfg: Config, env: Env, db: Table, trace: seq<Sys>, ops: seq<Op>) {
    Steps(cfg, env, trace, ops) && Open(cfg, env, db) == (trace[0], true)
  }

  lemma {:induction false} StepsAreSafe(cfg: Config, env: Env, trace: seq<Sys>, ops: seq<Op>, k: nat)
    requires Steps(cfg, env, trace, ops) && Safe(cfg, trace[0]) && k < |trace|
    ensures Safe(cfg, trace[k])
    decreases k
  {
    if k > 0 {
      StepsAreSafe(cfg, env, trace, ops, k - 1);
      StepIsSafe(cfg, env, trace[k - 1], ops[k - 1]);
    }
  }

  lemma ConsistentOneMore(base: Base, n0: nat, cfg: Config, env: Env, trace: seq<Sys>, ops: seq<Op>, k: nat)
    requires Steps(cfg, env, trace, ops) && Reliable(env) && k < |ops|
    requires Safe(cfg, trace[k]) && Consistent(base, n0, trace[k])
    ensures Consistent(base, n0, trace[k + 1])
  {
    StepIsConsistent(base, n0, cfg, env, trace[k], ops[k]);
  }

  lemma {:induction false} StepsAreConsistent(base: Base, n0: nat, cfg: Config, env: Env, trace: seq<Sys>, ops: seq<Op>,
                                              k: nat)
    requires Steps(cfg, env, trace, ops) && Reliable(env) && k < |trace|
    requires Safe(cfg, trace[0]) && Consistent(base, n0, trace[0])
    ensures Consistent(base, n0, trace[k])
    decreases k
  {
    if k > 0 {
      StepsAreSafe(cfg, env, trace, ops, k - 1);
      StepsAreConsistent(base, n0, cfg, env, trace, ops, k - 1);
      ConsistentOneMore(base, n0, cfg, env, trace, ops, k - 1);
    }
  }

  lemma LifeIsSafe(cfg: Config, env: Env, db: Table, trace: seq<Sys>, ops: seq<Op>, k: nat)
    requires Life(cfg, env, db, trace, ops) && k < |trace|
    ensures Safe(cfg, trace[k])
  {
    OpenRecovers(cfg, env, db);
    OpenIsSafe(cfg, db, trace[0]);
    StepsAreSafe(cfg, env, trace, ops, k);
  }

  lemma LifeIsConsistent(cfg: Config, env: Env, db: Table, trace: seq<Sys>, ops: seq<Op>, k: nat)
    requires Life(cfg, env, db, trace, ops) && Canonical(db) && Reliable(env) && k < |trace|
    ensures Consistent(States(trace[0].downloads), |trace[0].log|, trace[k])
  {
    OpenRecovers(cfg, env, db);
    OpenKeepsCanonical(cfg.policy, db, trace[0].db);
    OpenIsSafe(cfg, db, trace[0]);
    OpenIsConsistent(cfg, db, trace[0]);
    StepsAreConsistent(States(trace[0].downloads), |trace[0].log|, cfg, env, trace, ops, k);
  }

  lemma ConsistentMirrors(base: Base, n0: nat, s: Sys)
    requires Consistent(base, n0, s)
    ensures s.db.Keys == s.downloads.Keys && Canonical(s.db) && LagOk(s.snapshots)
    ensures forall id :: Agrees(s.downloads, s.db, id)
  {
    Unsettled(base, n0, s, 0);
    forall id
      ensures Agrees(s.downloads, s.db, id) && (id in s.db <==> id in s.downloads)
    {
      Unsettled(base, n0, s, id);
    }
  }

  // ---------------------------------------------------------------- queue and limit

  /** However many database calls fail: no id is queued twice, only Queued ids are queued, and the limit holds. */
  lemma LimitAndQueueSurviveFaults(cfg: Config, env: Env, db: Table, trace: seq<Sys>, ops: seq<Op>, k: nat)
    requires Life(cfg, env, db, trace, ops) && k < |trace|
    ensures var s := trace[k];
            && NoDup(s.queue)
            && (forall id :: id in s.queue ==> StateOf(s, id) == Some(Queued))
            && CountActive(s.downloads) <= cfg.limit
  {
    LifeIsSafe(cfg, env, db, trace, ops, k);
  }

  /** With a working database the queue holds the Queued downloads, all of them, each once; and no active one is stuck. */
  lemma QueueHoldsExactlyTheQueued(cfg: Config, env: Env, db: Table, trace: seq<Sys>, ops: seq<Op>, k: nat)
    requires Life(cfg, env, db, trace, ops) && Canonical(db) && Reliable(env) && k < |trace|
    ensures var s := trace[k];
            && NoDup(s.queue)
            && (forall id :: id in s.queue <==> StateOf(s, id) == Some(Queued))
            && CountActive(s.downloads) <= cfg.limit
            && (forall id :: id in s.downloads && s.downloads[id].info.state.Active() ==>
                  && s.downloads[id].cancel.Some?
                  && var t := s.downloads[id].cancel.value;
                     (t in s.tasks && s.tasks[t].id == id) || t in s.aborted)
  {
    LifeIsSafe(cfg, env, db, trace, ops, k);
    LifeIsConsistent(cfg, env, db, trace, ops, k);
    var s := trace[k];
    forall id
      ensures StateOf(s, id) == Some(Queued) ==> id in s.queue
      ensures id in s.downloads && s.downloads[id].info.state.Active() ==>
                s.downloads[id].cancel.Some? && (s.downloads[id].cancel.value in s.tasks || s.downloads[id].cancel.value in s.aborted)
    {
      Unsettled(States(trace[0].downloads), |trace[0].log|, s, id);
    }
  }

  /**
   * What a failed save costs: `resume` and `retry` report failure exactly when the save of the move back to
   * Queued fails, and then the download is Queued but on no queue.
   */
  lemma FailedSaveLosesTheQueueEntry(cfg: Config, env: Env, s: Sys, id: Id)
    requires Safe(cfg, s)
    ensures StateOf(s, id) == Some(Paused) ==>
              var (r, reply) := Resume(cfg, env, s, id);
              && (reply.Accepted? <==> env.disk(s.dbCalls))
              && (reply.Rejected? <==> StateOf(r, id) == Some(Queued) && id !in r.queue && r.queue == s.queue)
    ensures StateOf(s, id) == Some(Failed) ==>
              var (r, reply) := Retry(cfg, env, s, id);
              && (reply.Accepted? <==> env.disk(s.dbCalls))
              && (reply.Rejected? <==> StateOf(r, id) == Some(Queued) && id !in r.queue && r.queue == s.queue)
  {
    if StateOf(s, id) == Some(Paused) {
      ResumeOutcome(cfg, env, s, id);
    } else if StateOf(s, id) == Some(Failed) {
      RetryOutcome(cfg, env, s, id);
    }
  }

  lemma ResumeOutcome(cfg: Config, env: Env, s: Sys, id: Id)
    requires Safe(cfg, s) && StateOf(s, id) == Some(Paused)
    ensures var (r, reply) := Resume(cfg, env, s, id);
            && (reply.Accepted? <==> env.disk(s.dbCalls))
            && (if reply.Accepted? then id in r.queue || StateOf(r, id) == Some(Starting)
                else StateOf(r, id) == Some(Queued) && r.queue == s.queue && id !in s.queue)
  {
    RequeueIsSafe(cfg, env, s, id);
    RequeueOutcome(env, s, id);
    if env.disk(s.dbCalls) {
      ScheduleNeverLosesQueued(cfg, env, Publish(Requeue(env, s, id).0, OnResumed(id)), id);
    }
  }

  lemma RetryOutcome(cfg: Config, env: Env, s: Sys, id: Id)
    requires Safe(cfg, s) && StateOf(s, id) == Some(Failed)
    ensures var (r, reply) := Retry(cfg, env, s, id);
            && (reply.Accepted? <==> env.disk(s.dbCalls))
            && (if reply.Accepted? then id in r.queue || StateOf(r, id) == Some(Starting)
                else StateOf(r, id) == Some(Queued) && r.queue == s.queue && id !in s.queue)
  {
    RequeueIsSafe(cfg, env, s, id);
    RequeueOutcome(env, s, id);
    if env.disk(s.dbCalls) {
      ScheduleNeverLosesQueued(cfg, env, Requeue(env, s, id).0, id);
    }
  }

  /** A stopped download becomes Queued on any disk; it is back on the queue exactly when that was saved. */
  lemma RequeueOutcome(env: Env, s: Sys, id: Id)
    requires StateOf(s, id) == Some(Paused) || StateOf(s, id) == Some(Failed)
    ensures var (r, reply) := Requeue(env, s, id);
            && StateOf(r, id) == Some(Queued)
            && (reply.Accepted? <==> env.disk(s.dbCalls))
            && r.queue == if reply.Accepted? then s.queue + [id] else s.queue
  {}

  lemma ScheduleNeverLosesQueued(cfg: Config, env: Env, s: Sys, id: Id)
    requires Safe(cfg, s) && id in s.queue
    ensures var r := Schedule(cfg, env, s); id in r.queue || StateOf(r, id) == Some(Starting)
  {
    var ids := Selected(cfg, s);
    ScheduleEffect(cfg, env, s);
    FrontOrBack(s.queue, |ids|, id);
  }

  // ---------------------------------------------------------------- crash and reopening

  /** After every step memory and database tell the same. */
  lemma DatabaseMirrorsMemory(cfg: Config, env: Env, db: Table, trace: seq<Sys>, ops: seq<Op>, k: nat)
    requires Life(cfg, env, db, trace, ops) && Canonical(db) && Reliable(env) && k < |trace|
    ensures var s := trace[k];
            s.db.Keys == s.downloads.Keys && (forall id :: id in s.downloads ==> s.db[id] == Encode(s.downloads[id].info))
  {
    LifeIsConsistent(cfg, env, db, trace, ops, k);
    var s := trace[k];
    ConsistentMirrors(States(trace[0].downloads), |trace[0].log|, s);
    forall id | id in s.downloads
      ensures s.db[id] == Encode(s.downloads[id].info)
    {
      assert Agrees(s.downloads, s.db, id);
    }
  }

  /** What the process knew of `id` is what the next one knows, up to recovery. */
  ghost predicate Survives(policy: RecoveryPolicy, known: Known, s: Sys, id: Id) {
    && (id in s.downloads <==> id in known)
    && (id in known ==> id in s.downloads && RecoveredAs(policy, Normalise(known[id].info), s.downloads[id].info))
  }

  ghost predicate AllSurviveBut(policy: RecoveryPolicy, known: Known, s: Sys, busy: Id) {
    forall id :: id != busy ==> Survives(policy, known, s, id)
  }

  /** If both processes know `id`, it is the same request, recovered from the last state memory had or the one before. */
  ghost predicate SurvivesAMoveBehind(policy: RecoveryPolicy, known: Known, s: Sys, id: Id) {
    id in known && id in s.downloads ==>
      && SameRequest(Encode(s.downloads[id].info), Encode(known[id].info))
      && exists was: DownloadState ::
           && (was == known[id].info.state || IsValidTransition(was, known[id].info.state))
           && s.downloads[id].info.state == RecoveredState(policy, was)
  }

  lemma RowSurvives(policy: RecoveryPolicy, known: Known, db: Table, s: Sys, id: Id)
    requires Reopened(policy, db, s) && Canonical(db) && AMoveBehind(known, db, id)
    ensures SurvivesAMoveBehind(policy, known, s, id)
  {
    if id in known && id in s.downloads {
      assert id in db;
      ReopenedRecord(policy, db, s, id);
      RowIsKept(policy, db, s, id);
      assert s.downloads[id].info.state == RecoveredState(policy, db[id].state);
    }
  }

  lemma RowIsKept(policy: RecoveryPolicy, db: Table, s: Sys, id: Id)
    requires Canonical(db) && id in db && Entered(policy, Decode(id, db[id]), s)
    ensures SameRequest(Encode(s.downloads[id].info), db[id])
  {
    assert Encode(Decode(id, db[id])) == db[id];
  }

  lemma AgreementSurvives(policy: RecoveryPolicy, known: Known, db: Table, s: Sys, id: Id)
    requires Reopened(policy, db, s) && Agrees(known, db, id)
    ensures Survives(policy, known, s, id)
  {}

  /**
   * Crash refinement. A crash may strike between any two changes, in the middle of any operation. Reopening then
   * succeeds, leaves nothing active, rebuilds the queue, and every download but at most one, the one being worked
   * on, is as the lost process knew it: as persisted if it was at rest, recovered by policy if it was in flight.
   * That one, if both processes know it, is the same request, at most one legal move behind.
   */
  lemma CrashThenOpen(cfg: Config, env: Env, db: Table, trace: seq<Sys>, ops: seq<Op>, k: nat, i: nat,
                      cfg2: Config, env2: Env)
    requires Life(cfg, env, db, trace, ops) && Canonical(db) && Reliable(env) && k < |trace| && i < |trace[k].snapshots|
    requires Reliable(env2)
    ensures var c := trace[k].snapshots[i];
            var (s, ok) := Open(cfg2, env2, c.db);
            && ok && Reopened(cfg2.policy, c.db, s)
            && exists busy :: AllSurviveBut(cfg2.policy, c.downloads, s, busy)
                              && SurvivesAMoveBehind(cfg2.policy, c.downloads, s, busy)
  {
    LifeIsConsistent(cfg, env, db, trace, ops, k);
    ConsistentMirrors(States(trace[0].downloads), |trace[0].log|, trace[k]);
    CrashAt(cfg2, env2, trace[k].snapshots[i]);
  }

  lemma CrashAt(cfg: Config, env: Env, c: Snapshot)
    requires OneBehind(c) && Reliable(env)
    ensures var (s, ok) := Open(cfg, env, c.db);
            && ok && Reopened(cfg.policy, c.db, s)
            && exists busy :: AllSurviveBut(cfg.policy, c.downloads, s, busy)
                              && SurvivesAMoveBehind(cfg.policy, c.downloads, s, busy)
  {
    OpenRecovers(cfg, env, c.db);
    var s := Open(cfg, env, c.db).0;
    var busy :| AgreeExcept(c.downloads, c.db, busy) && AMoveBehind(c.downloads, c.db, busy);
    forall id | id != busy
      ensures Survives(cfg.policy, c.downloads, s, id)
    {
      AgreementSurvives(cfg.policy, c.downloads, c.db, s, id);
    }
    RowSurvives(cfg.policy, c.downloads, c.db, s, busy);
    assert AllSurviveBut(cfg.policy, c.downloads, s, busy);
  }

  /** A crash after a completed step loses nothing at all. */
  lemma CrashBetweenSteps(cfg: Config, env: Env, db: Table, trace: seq<Sys>, ops: seq<Op>, k: nat, cfg2: Config, env2: Env)
    requires Life(cfg, env, db, trace, ops) && Canonical(db) && Reliable(env) && k < |trace| && Reliable(env2)
    ensures var (s, ok) := Open(cfg2, env2, trace[k].db);
            && ok && Reopened(cfg2.policy, trace[k].db, s)
            && (forall id :: Survives(cfg2.policy, trace[k].downloads, s, id))
  {
    LifeIsConsistent(cfg, env, db, trace, ops, k);
    ConsistentMirrors(States(trace[0].downloads), |trace[0].log|, trace[k]);
    OpenRecovers(cfg2, env2, trace[k].db);
    forall id
      ensures Survives(cfg2.policy, trace[k].downloads, Open(cfg2, env2, trace[k].db).0, id)
    {
      AgreementSurvives(cfg2.policy, trace[k].downloads, trace[k].db, Open(cfg2, env2, trace[k].db).0, id);
    }
  }

  /** A table after an interrupted recovery still asks for the same queue. */
  lemma SameQueueAsked(policy: RecoveryPolicy, db: Table, db1: Table, queue: seq<Id>)
    requires QueueFor(policy, db1, queue) && db1.Keys == db.Keys && Canonical(db)
    requires forall id :: id in db ==> RowKept(policy, db, db1, id)
    ensures QueueFor(policy, db, queue)
  {
    forall id | id in db
      ensures db1[id].createdAt == db[id].createdAt
      ensures RecoveredState(policy, db1[id].state) == RecoveredState(policy, db[id].state)
    {
      KeptRow(policy, db, db1, id);
    }
    forall i, j | 0 <= i < j < |queue|
      ensures Before(db, queue[i], queue[j])
    {
      assert Before(db1, queue[i], queue[j]);
    }
  }

  lemma SameQueue(policy: RecoveryPolicy, db: Table, db1: Table, q: seq<Id>, q1: seq<Id>)
    requires QueueFor(policy, db, q) && QueueFor(policy, db1, q1) && db1.Keys == db.Keys && Canonical(db)
    requires forall id :: id in db ==> RowKept(policy, db, db1, id)
    ensures q1 == q
  {
    SameQueueAsked(policy, db, db1, q1);
    OrderIsUnique(db, q1, q);
  }

  /** The same record, but for the time of its last update. */
  predicate SameButUpdate(d: Download, e: Download) {
    e == d.(updatedAt := e.updatedAt)
  }

  /** A row settled by an interrupted opening gives the record that settling the old row gives. */
  lemma SettledOnce(policy: RecoveryPolicy, id: Id, row: Row, row1: Row, e: Download, e1: Download)
    requires Encode(Decode(id, row)) == row
    requires row1 == row || (row.state.Active() && row1 == SettledRow(policy, id, row, row1.updatedAt))
    requires RecoveredAs(policy, Decode(id, row), e) && RecoveredAs(policy, Decode(id, row1), e1)
    ensures SameButUpdate(e, e1)
  {
    DecodedIsRepresentable(id, row);
    if row1 != row {
      SaveLoadIsIdentity(Recovered(policy, Decode(id, row), 0).0);
    }
  }

  /**
   * A crash, or a failing disk, while opening is harmless: opening once more gives every download the record, but for
   * the time of its last update, and the queue the order, that an undisturbed opening gives.
   */
  lemma InterruptedOpenIsHarmless(cfg: Config, env: Env, db: Table, env2: Env, env3: Env)
    requires Canonical(db) && Reliable(env2) && Reliable(env3)
    ensures var again := Open(cfg, env2, Open(cfg, env, db).0.db).0;
            var undisturbed := Open(cfg, env3, db).0;
            && again.downloads.Keys == undisturbed.downloads.Keys
            && (forall id :: id in again.downloads ==>
                  SameButUpdate(undisturbed.downloads[id].info, again.downloads[id].info))
            && again.queue == undisturbed.queue
  {
    var db1 := Open(cfg, env, db).0.db;
    OpenRecovers(cfg, env, db);
    OpenRecovers(cfg, env2, db1);
    OpenRecovers(cfg, env3, db);
    var again, undisturbed := Open(cfg, env2, db1).0, Open(cfg, env3, db).0;
    forall id | id in again.downloads
      ensures SameButUpdate(undisturbed.downloads[id].info, again.downloads[id].info)
    {
      SameRecord(cfg.policy, db, db1, undisturbed, again, id);
    }
    SameQueue(cfg.policy, db, db1, undisturbed.queue, again.queue);
  }

  lemma SameRecord(policy: RecoveryPolicy, db: Table, db1: Table, s: Sys, s1: Sys, id: Id)
    requires id in db && RowKept(policy, db, db1, id) && Encode(Decode(id, db[id])) == db[id]
    requires Entered(policy, Decode(id, db[id]), s) && Entered(policy, Decode(id, db1[id]), s1)
    ensures SameButUpdate(s.downloads[id].info, s1.downloads[id].info)
  {
    SettledOnce(policy, id, db[id], db1[id], s.downloads[id].info, s1.downloads[id].info);
  }

  // ---------------------------------------------------------------- event log

  /**
   * Folding the Queued and StateChanged events published since the opening over the opening states never meets an
   * event that does not fit, and gives the present state of every known download.
   */
  lemma EventLogReplays(cfg: Config, env: Env, db: Table, trace: seq<Sys>, ops: seq<Op>, k: nat)
    requires Life(cfg, env, db, trace, ops) && Canonical(db) && Reliable(env) && k < |trace|
    ensures var m := Replay(States(trace[0].downloads), |trace[0].log|, trace[k].log);
            && m.Some?
            && (forall id :: id in trace[k].downloads ==> id in m.value && m.value[id] == trace[k].downloads[id].info.state)
  {
    LifeIsConsistent(cfg, env, db, trace, ops, k);
    Unsettled(States(trace[0].downloads), |trace[0].log|, trace[k], 0);
  }
}
