/** What records keep to over whole runs: counts, times and error texts that fit their states. */
module Lives {
  import opened Wrappers
  import opened Lifecycle
  import opened Queues
  import opened Records
  import opened ManagerModel
  import opened Safety
  import opened Recovery
  import opened Runs
  import opened Agendas
  import opened Outcomes

  // ---------------------------------------------------------------- reports

  /** A report on a known download is recorded and, if the save works, written; it changes no other record or row. */
  lemma ReportIsRecorded(env: Env, s: Sys, id: Id, downloaded: u64, total: Option<u64>)
    requires id in s.downloads && s.downloads[id].info.id == id
    ensures var r := Progress(env, s, id, downloaded, total);
            && id in r.downloads && r.downloads == s.downloads[id := r.downloads[id]]
            && r.downloads[id].cancel == s.downloads[id].cancel && r.downloads[id].handle == s.downloads[id].handle
            && ReportedTo(s.downloads[id].info, r.downloads[id].info, env.clock(s.ticks), downloaded, total)
            && r.db == (if env.disk(s.dbCalls) then s.db[id := Encode(r.downloads[id].info)] else s.db)
            && r.queue == s.queue && r.tasks == s.tasks && r.signalled == s.signalled
  {}

  /** Whom a step begins: one that is Queued, or that the step itself has just put back on the queue. */
  lemma BegunFromQueue(cfg: Config, env: Env, s: Sys, op: Op, x: Id)
    requires Safe(cfg, s) && Enabled(s, op) && x in s.downloads && x in Begins(cfg, env, s, op)
    ensures || StateOf(s, x) == Some(Queued)
            || (op == DoResume(x) && StateOf(s, x) == Some(Paused)) || (op == DoRetry(x) && StateOf(s, x) == Some(Failed))
  {}

  lemma TaskOfActive(cfg: Config, s: Sys, op: Op)
    requires Safe(cfg, s) && Enabled(s, op) && (op.DoTaskBegin? || op.DoTaskEnd?) && s.tasks[op.task].id in s.downloads
    ensures s.downloads[s.tasks[op.task].id].info.state.Active()
  {}

  ghost predicate CountsKept(d: Download, e: Download) {
    e.downloadedBytes == d.downloadedBytes && e.totalBytes == d.totalBytes && e.meta == d.meta
  }

  predicate ReportsOn(op: Op, x: Id) {
    op.DoProgress? && op.id == x
  }

  lemma OwnChangeKeepsCounts(cfg: Config, env: Env, s: Sys, op: Op, x: Id, d: Download, own: Download)
    requires Enabled(s, op) && OwnChange(cfg, env, s, op, x, d, own) && !ReportsOn(op, x)
    ensures CountsKept(d, own) || (own.state.Completed? && op.DoTaskEnd? && s.tasks[op.task].id == x)
  {}

  lemma CompletedIsLeftAlone(cfg: Config, env: Env, s: Sys, op: Op, x: Id, own: Download)
    requires Safe(cfg, s) && Enabled(s, op) && x in s.downloads && s.downloads[x].info.state.Completed?
    requires OwnChange(cfg, env, s, op, x, s.downloads[x].info, own) && !ReportsOn(op, x)
    ensures own == s.downloads[x].info && x !in Begins(cfg, env, s, op)
  {
    if (op.DoTaskBegin? || op.DoTaskEnd?) && s.tasks[op.task].id == x {
      TaskOfActive(cfg, s, op);
    }
    if x in Begins(cfg, env, s, op) {
      BegunFromQueue(cfg, env, s, op, x);
    }
  }

  /** The counts of a download change only by a report on it, or as it completes; a Completed one is left alone. */
  lemma CountsAfterStep(cfg: Config, env: Env, s: Sys, op: Op, x: Id)
    requires Safe(cfg, s) && Enabled(s, op) && !ReportsOn(op, x)
    requires x in s.downloads && x in Apply(cfg, env, s, op).0.downloads
    ensures var (d, e) := (s.downloads[x].info, Apply(cfg, env, s, op).0.downloads[x].info);
            if d.state.Completed? then e == d else CountsKept(d, e) || e.state.Completed?
  {
    RecordAfterStep(cfg, env, s, op, x);
    var d, e := s.downloads[x].info, Apply(cfg, env, s, op).0.downloads[x].info;
    CountsOfBecame(cfg, env, s, op, x, d, e);
  }

  lemma CountsOfBecame(cfg: Config, env: Env, s: Sys, op: Op, x: Id, d: Download, e: Download)
    requires Safe(cfg, s) && Enabled(s, op) && !ReportsOn(op, x) && x in s.downloads && d == s.downloads[x].info
    requires Became(cfg, env, s, op, x, d, e)
    ensures if d.state.Completed? then e == d else CountsKept(d, e) || e.state.Completed?
  {
    var ticks := if AgendaOf(cfg, env, s, op).Some? then AgendaOf(cfg, env, s, op).value.ticks else 0;
    var own: Download :|
      OwnChange(cfg, env, s, op, x, d, own) && StartedIn(env, ticks, Begins(cfg, env, s, op), x, own, e);
    OwnChangeKeepsCounts(cfg, env, s, op, x, d, own);
    if d.state.Completed? {
      CompletedIsLeftAlone(cfg, env, s, op, x, own);
    } else if x in Begins(cfg, env, s, op) {
      BegunFromQueue(cfg, env, s, op, x);
      if op.DoTaskEnd? && s.tasks[op.task].id == x {
        TaskOfActive(cfg, s, op);
      }
    }
  }

  /** Between moments `i` and `k` the counts of `x` stayed as they are, unless it completed. */
  ghost predicate Counted(trace: seq<Sys>, i: nat, k: nat, x: Id) {
    && i < |trace| && k < |trace| && x in trace[i].downloads && x in trace[k].downloads
    && (trace[k].downloads[x].info.state.Completed? || CountsKept(trace[i].downloads[x].info, trace[k].downloads[x].info))
  }

  ghost predicate CountedOnce(trace: seq<Sys>, k: nat, x: Id) {
    && k + 1 < |trace| && x in trace[k].downloads && x in trace[k + 1].downloads
    && var (d, e) := (trace[k].downloads[x].info, trace[k + 1].downloads[x].info);
       if d.state.Completed? then e == d else CountsKept(d, e) || e.state.Completed?
  }

  lemma CountedThen(trace: seq<Sys>, i: nat, k: nat, x: Id)
    requires Counted(trace, i, k, x) && CountedOnce(trace, k, x)
    ensures Counted(trace, i, k + 1, x)
  {}

  lemma CountsOneMore(cfg: Config, env: Env, trace: seq<Sys>, ops: seq<Op>, k: nat, x: Id)
    requires Steps(cfg, env, trace, ops) && k < |ops| && Safe(cfg, trace[k]) && !ReportsOn(ops[k], x)
    requires x in trace[k].downloads && x in trace[k + 1].downloads
    ensures CountedOnce(trace, k, x)
  {
    CountsAfterStep(cfg, env, trace[k], ops[k], x);
  }

  ghost predicate NoReport(ops: seq<Op>, i: nat, k: nat, x: Id)
    requires k <= |ops|
  {
    forall j :: i <= j < k ==> !ReportsOn(ops[j], x)
  }

  ghost predicate KnownBetween(trace: seq<Sys>, i: nat, k: nat, x: Id)
    requires k < |trace|
  {
    forall j :: i <= j <= k ==> x in trace[j].downloads
  }

  lemma KnownBefore(trace: seq<Sys>, ops: seq<Op>, i: nat, k: nat, x: Id)
    requires i < k < |trace| && KnownBetween(trace, i, k, x) && k <= |ops| && NoReport(ops, i, k, x)
    ensures KnownBetween(trace, i, k - 1, x) && NoReport(ops, i, k - 1, x) && !ReportsOn(ops[k - 1], x)
    ensures x in trace[i].downloads && x in trace[k - 1].downloads && x in trace[k].downloads
  {}

  /** Without a report the counts of a download stay what they are, until it completes. */
  lemma {:induction false} CountsStay(cfg: Config, env: Env, trace: seq<Sys>, ops: seq<Op>, i: nat, k: nat, x: Id)
    requires Steps(cfg, env, trace, ops) && Safe(cfg, trace[0]) && i <= k < |trace|
    requires KnownBetween(trace, i, k, x) && NoReport(ops, i, k, x)
    ensures Counted(trace, i, k, x)
    decreases k
  {
    if i == k {
      KnownAt(trace, i, k, x);
    } else {
      KnownBefore(trace, ops, i, k, x);
      CountsStay(cfg, env, trace, ops, i, k - 1, x);
      StepsAreSafe(cfg, env, trace, ops, k - 1);
      CountsOneMore(cfg, env, trace, ops, k - 1, x);
      CountedThen(trace, i, k - 1, x);
    }
  }

  lemma KnownAt(trace: seq<Sys>, i: nat, k: nat, x: Id)
    requires i <= k < |trace| && KnownBetween(trace, i, k, x)
    ensures x in trace[i].downloads
  {}

  lemma RecordedOneMore(cfg: Config, env: Env, trace: seq<Sys>, ops: seq<Op>, j: nat, x: Id, n: u64, total: Option<u64>)
    requires Steps(cfg, env, trace, ops) && j < |ops| && Safe(cfg, trace[j]) && ops[j] == DoProgress(x, n, total)
    requires x in trace[j].downloads
    ensures x in trace[j + 1].downloads
    ensures ReportedTo(trace[j].downloads[x].info, trace[j + 1].downloads[x].info, env.clock(trace[j].ticks), n, total)
  {
    ReportIsRecorded(env, trace[j], x, n, total);
  }

  /**
   * In every run, on any disk, the byte count of a download that is not Completed is that of its last report, whatever
   * it went through since; and its total is the last one reported, or the one known before.
   */
  lemma CountIsThatOfLastReport(cfg: Config, env: Env, trace: seq<Sys>, ops: seq<Op>, j: nat, k: nat, x: Id, n: u64,
                                total: Option<u64>)
    requires Steps(cfg, env, trace, ops) && Safe(cfg, trace[0]) && j < k < |trace| && ops[j] == DoProgress(x, n, total)
    requires x in trace[j].downloads && KnownBetween(trace, j + 1, k, x) && NoReport(ops, j + 1, k, x)
    ensures x in trace[k].downloads
    ensures var e := trace[k].downloads[x].info;
            e.state.Completed? ||
            (e.downloadedBytes == n && e.totalBytes == if total.Some? then total else trace[j].downloads[x].info.totalBytes)
  {
    StepsAreSafe(cfg, env, trace, ops, j);
    RecordedOneMore(cfg, env, trace, ops, j, x, n, total);
    CountsStay(cfg, env, trace, ops, j + 1, k, x);
  }

  // ---------------------------------------------------------------- fields that fit the state

  /**
   * A completion time exactly when Completed, and no error text then; an error text when Failed or Cancelled; a start
   * time while Downloading.
   */
  predicate Fits(d: Download) {
    && (d.completedAt.Some? <==> d.state.Completed?)
    && (d.state.Completed? ==> d.error.None?)
    && (d.state.Failed? || d.state.Cancelled? ==> d.error.Some?)
    && (d.state.Downloading? ==> d.startedAt.Some?)
  }

  ghost predicate AllFit(s: Sys) {
    forall x :: x in s.downloads ==> Fits(s.downloads[x].info)
  }

  lemma OwnChangeFits(cfg: Config, env: Env, s: Sys, op: Op, x: Id, own: Download)
    requires Safe(cfg, s) && Enabled(s, op) && x in s.downloads && Fits(s.downloads[x].info)
    requires OwnChange(cfg, env, s, op, x, s.downloads[x].info, own)
    ensures Fits(own)
  {
    if (op.DoTaskBegin? || op.DoTaskEnd?) && s.tasks[op.task].id == x {
      TaskOfActive(cfg, s, op);
    }
  }

  lemma BegunIsNotCompleted(cfg: Config, env: Env, s: Sys, op: Op, x: Id, own: Download)
    requires Safe(cfg, s) && Enabled(s, op) && x in s.downloads && !s.downloads[x].info.state.Active()
    requires OwnChange(cfg, env, s, op, x, s.downloads[x].info, own) && !s.downloads[x].info.state.Completed?
    ensures !own.state.Completed?
  {
    if (op.DoTaskBegin? || op.DoTaskEnd?) && s.tasks[op.task].id == x {
      TaskOfActive(cfg, s, op);
    }
  }

  lemma BecameFits(cfg: Config, env: Env, s: Sys, op: Op, x: Id, e: Download)
    requires Safe(cfg, s) && Enabled(s, op) && x in s.downloads && Fits(s.downloads[x].info)
    requires Became(cfg, env, s, op, x, s.downloads[x].info, e)
    ensures Fits(e)
  {
    var d := s.downloads[x].info;
    var ticks := if AgendaOf(cfg, env, s, op).Some? then AgendaOf(cfg, env, s, op).value.ticks else 0;
    var own: Download :|
      OwnChange(cfg, env, s, op, x, d, own) && StartedIn(env, ticks, Begins(cfg, env, s, op), x, own, e);
    OwnChangeFits(cfg, env, s, op, x, own);
    if x in Begins(cfg, env, s, op) {
      BegunFromQueue(cfg, env, s, op, x);
      BegunIsNotCompleted(cfg, env, s, op, x, own);
    }
  }

  lemma ArrivedFits(cfg: Config, env: Env, s: Sys, id: Id, spec: Spec, e: Download)
    requires id !in s.seen && Arrived(cfg, env, s, id, spec, e)
    ensures Fits(e)
  {}

  /** Every step, on any disk, keeps completion times, start times and error texts fitting the states. */
  lemma StepKeepsFit(cfg: Config, env: Env, s: Sys, op: Op)
    requires Safe(cfg, s) && Enabled(s, op) && AllFit(s)
    ensures AllFit(Apply(cfg, env, s, op).0)
  {
    var r := Apply(cfg, env, s, op).0;
    KnownAfterStep(cfg, env, s, op);
    forall x | x in r.downloads
      ensures Fits(r.downloads[x].info)
    {
      FitsAfterStep(cfg, env, s, op, x);
    }
  }

  lemma FitsAfterStep(cfg: Config, env: Env, s: Sys, op: Op, x: Id)
    requires Safe(cfg, s) && Enabled(s, op) && AllFit(s) && x in Apply(cfg, env, s, op).0.downloads
    ensures Fits(Apply(cfg, env, s, op).0.downloads[x].info)
  {
    KnownAfterStep(cfg, env, s, op);
    if x in s.downloads {
      RecordAfterStep(cfg, env, s, op, x);
      BecameFits(cfg, env, s, op, x, Apply(cfg, env, s, op).0.downloads[x].info);
    } else {
      NewcomerAfterStep(cfg, env, s, x, op.spec);
      ArrivedFits(cfg, env, s, x, op.spec, Apply(cfg, env, s, op).0.downloads[x].info);
    }
  }

  lemma FitOneMore(cfg: Config, env: Env, trace: seq<Sys>, ops: seq<Op>, k: nat)
    requires Steps(cfg, env, trace, ops) && k < |ops| && Safe(cfg, trace[k]) && AllFit(trace[k])
    ensures AllFit(trace[k + 1])
  {
    StepKeepsFit(cfg, env, trace[k], ops[k]);
  }

  lemma {:induction false} StaysFit(cfg: Config, env: Env, trace: seq<Sys>, ops: seq<Op>, k: nat)
    requires Steps(cfg, env, trace, ops) && Safe(cfg, trace[0]) && AllFit(trace[0]) && k < |trace|
    ensures AllFit(trace[k])
    decreases k
  {
    if k > 0 {
      StaysFit(cfg, env, trace, ops, k - 1);
      StepsAreSafe(cfg, env, trace, ops, k - 1);
      FitOneMore(cfg, env, trace, ops, k - 1);
    }
  }

  lemma RecoveredFits(policy: RecoveryPolicy, d: Download, e: Download)
    requires Fits(d) && RecoveredAs(policy, d, e)
    ensures Fits(e)
  {}

  /**
   * In every run, on any disk, on a table whose rows fit: a download has a completion time exactly when it is Completed,
   * an error text whenever it is Failed or Cancelled and none when Completed, and a start time while Downloading.
   */
  lemma RecordsFitTheirStates(cfg: Config, env: Env, db: Table, trace: seq<Sys>, ops: seq<Op>, k: nat)
    requires Life(cfg, env, db, trace, ops) && k < |trace|
    requires forall x :: x in db ==> Fits(Decode(x, db[x]))
    ensures AllFit(trace[k])
  {
    LifeIsSafe(cfg, env, db, trace, ops, 0);
    OpenRecovers(cfg, env, db);
    forall x | x in trace[0].downloads
      ensures Fits(trace[0].downloads[x].info)
    {
      assert x in db && Entered(cfg.policy, Decode(x, db[x]), trace[0]);
      RecoveredFits(cfg.policy, Decode(x, db[x]), trace[0].downloads[x].info);
    }
    StaysFit(cfg, env, trace, ops, k);
  }

  // ---------------------------------------------------------------- what opening stamps

  /** The record of `x` carries one of the clock readings from `from` to `s`. */
  ghost predicate StampedSince(env: Env, from: nat, s: Sys, x: Id) {
    x in s.downloads && exists n: nat :: from <= n < s.ticks && s.downloads[x].info.updatedAt == env.clock(n)
  }

  lemma RecoverOneStamps(cfg: Config, env: Env, s: Sys, d: Download)
    requires RecoverOne(cfg, env, s, d).1
    ensures var r := RecoverOne(cfg, env, s, d).0;
            && s.ticks <= r.ticks
            && (d.state.Active() ==> StampedSince(env, s.ticks, r, d.id))
            && (forall x :: x != d.id && x in s.downloads ==> x in r.downloads && r.downloads[x] == s.downloads[x])
  {
    if d.state.Active() {
      RecoverInFlight(cfg, env, s, d);
    }
  }

  lemma StampStays(env: Env, from: nat, s: Sys, r: Sys, x: Id)
    requires StampedSince(env, from, s, x) && s.ticks <= r.ticks && x in r.downloads && r.downloads[x] == s.downloads[x]
    ensures StampedSince(env, from, r, x)
  {}

  lemma {:induction false} UnmentionedStays(cfg: Config, env: Env, s: Sys, ds: seq<Download>, x: Id)
    requires RecoverAll(cfg, env, s, ds).1 && x in s.downloads && !Mentions(ds, x)
    ensures var r := RecoverAll(cfg, env, s, ds).0;
            s.ticks <= r.ticks && x in r.downloads && r.downloads[x] == s.downloads[x]
    decreases |ds|
  {
    if ds != [] {
      MentionsTail(ds, x);
      RecoverOneStamps(cfg, env, s, ds[0]);
      UnmentionedStays(cfg, env, RecoverOne(cfg, env, s, ds[0]).0, ds[1..], x);
    }
  }

  lemma {:induction false} RecoverAllStamps(cfg: Config, env: Env, s: Sys, ds: seq<Download>, i: nat)
    requires RecoverAll(cfg, env, s, ds).1 && DistinctIds(ds) && i < |ds| && ds[i].state.Active()
    ensures StampedSince(env, s.ticks, RecoverAll(cfg, env, s, ds).0, ds[i].id)
    decreases |ds|
  {
    var s1, r := RecoverOne(cfg, env, s, ds[0]).0, RecoverAll(cfg, env, s, ds).0;
    RecoverOneStamps(cfg, env, s, ds[0]);
    if i == 0 {
      HeadNotInTail(ds);
      UnmentionedStays(cfg, env, s1, ds[1..], ds[0].id);
      StampStays(env, s.ticks, s1, r, ds[0].id);
    } else {
      assert ds[i] == ds[1..][i - 1];
      HeadNotInTail(ds);
      RecoverAllStamps(cfg, env, s1, ds[1..], i - 1);
    }
  }

  lemma OpeningIsLoading(cfg: Config, env: Env, db: Table)
    requires Open(cfg, env, db).1
    ensures RecoverAll(cfg, env, Loading(db), Listing(db)).1
    ensures Open(cfg, env, db).0 == RecoverAll(cfg, env, Loading(db), Listing(db)).0.(snapshots := [])
  {}

  lemma ListedAt(db: Table, x: Id) returns (i: nat)
    requires x in db
    ensures i < |Listing(db)| && Listing(db)[i] == Decode(x, db[x]) && DistinctIds(Listing(db))
  {
    ListingLists(db);
    ListedAreMentioned(db, OrderedIds(db, db.Keys), Listing(db));
    assert Mentions(Listing(db), x);
    i :| 0 <= i < |Listing(db)| && Listing(db)[i].id == x;
  }

  /** A finished opening has stamped every download it found in flight with a clock reading of its own. */
  lemma OpeningStamps(cfg: Config, env: Env, db: Table, x: Id)
    requires Open(cfg, env, db).1 && x in db && db[x].state.Active()
    ensures StampedSince(env, 0, Open(cfg, env, db).0, x)
  {
    var i := ListedAt(db, x);
    OpeningIsLoading(cfg, env, db);
    RecoverAllStamps(cfg, env, Loading(db), Listing(db), i);
  }
}
