/** Opening the manager on the table a previous process left, however that process ended. */
module Recovery {
  import opened Wrappers
  import opened Lifecycle
  import opened Queues
  import opened Records
  import opened ManagerModel
  import opened Safety
  import opened Consistency

  /** The state a download has after opening, from the state its row has. */
  function RecoveredState(policy: RecoveryPolicy, s: DownloadState): (r: DownloadState)
    ensures !r.Active()
  {
    if !s.Active() then s else if policy.FailInterrupted? then Failed else Queued
  }

  /** `e` is what opening makes of `d`: `d` itself unless it was in flight. */
  ghost predicate RecoveredAs(policy: RecoveryPolicy, d: Download, e: Download) {
    if !d.state.Active() then e == d
    else
      && e == d.(state := e.state, error := e.error, startedAt := e.startedAt, updatedAt := e.updatedAt)
      && (policy.FailInterrupted? ==> e.state == Failed && e.error == Some(INTERRUPTED) && e.startedAt == d.startedAt)
      && (policy.RequeueInterrupted? ==> e.state == Queued && e.error == None && e.startedAt == None)
  }

  /** The ids among `ds` that opening queues, in order. */
  function QueuedIds(policy: RecoveryPolicy, ds: seq<Download>): seq<Id> {
    if ds == [] then []
    else (if RecoveredState(policy, ds[0].state).Queued? then [ds[0].id] else []) + QueuedIds(policy, ds[1..])
  }

  ghost predicate DistinctIds(ds: seq<Download>) {
    forall i, j :: 0 <= i < j < |ds| ==> ds[i].id != ds[j].id
  }

  /** The row of `id` reads as the record in memory, to the precision of a row. */
  ghost predicate ReadsBack(downloads: Known, db: Table, id: Id) {
    && id in downloads && id in db && downloads[id].info.id == id
    && Decode(id, db[id]) == Normalise(downloads[id].info)
  }

  /** Record `d` has entered the process as it should, and its row says so. */
  ghost predicate Entered(policy: RecoveryPolicy, d: Download, s: Sys) {
    && d.id in s.downloads
    && s.downloads[d.id].cancel.None? && s.downloads[d.id].handle.None?
    && RecoveredAs(policy, d, s.downloads[d.id].info)
    && ReadsBack(s.downloads, s.db, d.id)
  }

  /** Opening touches nothing but the records, the queue, the table and the log. */
  ghost predicate OpeningFrame(s: Sys, r: Sys) {
    SameButTable(s, r) && r.db.Keys == s.db.Keys
  }

  ghost predicate SameButTable(s: Sys, r: Sys) {
    && r.tasks == s.tasks && r.running == s.running && r.intents == s.intents && r.seen == s.seen
    && r.nextTask == s.nextTask && r.pausedTries == s.pausedTries && r.aborted == s.aborted
    && r.signalled == s.signalled
  }

  /** The row that recovery writes for the row of a download in flight, but for the time of writing. */
  function SettledRow(policy: RecoveryPolicy, id: Id, row: Row, ms: i64): Row {
    Encode(Recovered(policy, Decode(id, row), 0).0).(updatedAt := ms)
  }

  /** The row of `id` changed at most as far as recovery changes a row. */
  ghost predicate RowKept(policy: RecoveryPolicy, db: Table, db': Table, id: Id) {
    && id in db && id in db'
    && (db'[id] == db[id]
        || (&& db[id].state.Active() && 0 <= db'[id].updatedAt
            && db'[id] == SettledRow(policy, id, db[id], db'[id].updatedAt)))
  }

  /** A listed record that is still to enter the process. */
  ghost predicate Pending(s: Sys, d: Download) {
    d.id !in s.downloads && d.id in s.db && Decode(d.id, s.db[d.id]) == d
  }

  ghost predicate AllPending(s: Sys, ds: seq<Download>) {
    DistinctIds(ds) && forall i :: 0 <= i < |ds| ==> Pending(s, ds[i])
  }

  ghost predicate Mentions(ds: seq<Download>, x: Id) {
    exists i :: 0 <= i < |ds| && ds[i].id == x
  }

  lemma MentionsTail(ds: seq<Download>, x: Id)
    requires ds != []
    ensures Mentions(ds, x) <==> ds[0].id == x || Mentions(ds[1..], x)
  {}

  lemma HeadNotInTail(ds: seq<Download>)
    requires ds != [] && DistinctIds(ds)
    ensures !Mentions(ds[1..], ds[0].id) && DistinctIds(ds[1..])
  {}

  /** The row recovery writes for a record that was in flight. */
  lemma RecoveredRow(policy: RecoveryPolicy, id: Id, row: Row, now: Time)
    requires row.state.Active()
    ensures var written := Encode(Recovered(policy, Decode(id, row), now).0);
            0 <= written.updatedAt && written == SettledRow(policy, id, row, written.updatedAt)
  {}

  lemma SaveRecoveredEffect(env: Env, s: Sys, from: DownloadState, d: Download)
    ensures var (r, ok) := SaveRecovered(env, s, from, d);
            && r.queue == s.queue && r.downloads == s.downloads && SameButTable(s, r)
            && ok == env.disk(s.dbCalls) && r.db == if ok then s.db[d.id := Encode(d)] else s.db
  {}

  lemma RecoverOneFrame(cfg: Config, env: Env, s: Sys, d: Download)
    requires Pending(s, d)
    ensures var (r, ok) := RecoverOne(cfg, env, s, d);
            && OpeningFrame(s, r) && (Reliable(env) ==> ok)
            && (d.state.Active() && ok ==> r.db == s.db[d.id := Encode(Recovered(cfg.policy, d, env.clock(s.ticks)).0)])
            && (!d.state.Active() || !ok ==> r.db == s.db)
  {
    if d.state.Active() {
      SaveRecoveredEffect(env, s.(ticks := s.ticks + 1), d.state, Recovered(cfg.policy, d, env.clock(s.ticks)).0);
      RecoverInFlight(cfg, env, s, d);
    }
  }

  lemma RecoverInFlight(cfg: Config, env: Env, s: Sys, d: Download)
    requires d.state.Active()
    ensures var e := Recovered(cfg.policy, d, env.clock(s.ticks)).0;
            var (r, ok) := SaveRecovered(env, s.(ticks := s.ticks + 1), d.state, e);
            RecoverOne(cfg, env, s, d) == (if ok then Admit(r, e) else r, ok)
  {}

  lemma RecoverOneTable(cfg: Config, env: Env, s: Sys, d: Download)
    requires Pending(s, d)
    ensures var (r, ok) := RecoverOne(cfg, env, s, d);
            && OpeningFrame(s, r) && (Reliable(env) ==> ok)
            && (forall x :: x in s.db && x != d.id ==> r.db[x] == s.db[x])
            && RowKept(cfg.policy, s.db, r.db, d.id)
  {
    RecoverOneFrame(cfg, env, s, d);
    if d.state.Active() {
      RecoveredRow(cfg.policy, d.id, s.db[d.id], env.clock(s.ticks));
    }
  }

  /** Between `s` and `r` exactly the records `ds` entered, and the queue grew in their order. */
  ghost predicate Loaded(policy: RecoveryPolicy, s: Sys, ds: seq<Download>, r: Sys) {
    && (forall x :: x in r.downloads <==> x in s.downloads || Mentions(ds, x))
    && (forall x :: x in s.downloads && x in r.downloads ==> r.downloads[x] == s.downloads[x])
    && r.queue == s.queue + QueuedIds(policy, ds)
    && (forall i :: 0 <= i < |ds| ==> Entered(policy, ds[i], r))
  }

  lemma RecoverOneEnters(cfg: Config, env: Env, s: Sys, d: Download)
    requires Pending(s, d) && RecoverOne(cfg, env, s, d).1
    ensures var r := RecoverOne(cfg, env, s, d).0;
            && r.downloads == s.downloads[d.id := Managed(r.downloads[d.id].info, None, None)]
            && r.queue == s.queue + (if RecoveredState(cfg.policy, d.state).Queued? then [d.id] else [])
            && Entered(cfg.policy, d, r)
  {
    DecodedIsRepresentable(d.id, s.db[d.id]);
    assert s.queue + [] == s.queue;
  }

  lemma RecoverOneMemory(cfg: Config, env: Env, s: Sys, d: Download)
    requires Pending(s, d) && RecoverOne(cfg, env, s, d).1
    ensures Loaded(cfg.policy, s, [d], RecoverOne(cfg, env, s, d).0)
  {
    var r := RecoverOne(cfg, env, s, d).0;
    RecoverOneEnters(cfg, env, s, d);
    SingleLoaded(cfg.policy, s, d, r);
  }

  lemma SingleLoaded(policy: RecoveryPolicy, s: Sys, d: Download, r: Sys)
    requires d.id !in s.downloads && Entered(policy, d, r)
    requires r.downloads == s.downloads[d.id := Managed(r.downloads[d.id].info, None, None)]
    requires r.queue == s.queue + (if RecoveredState(policy, d.state).Queued? then [d.id] else [])
    ensures Loaded(policy, s, [d], r)
  {
    assert [d][0] == d && [d][1..] == [];
    assert QueuedIds(policy, [d][1..]) == [];
    forall x
      ensures Mentions([d], x) <==> x == d.id
    {
      MentionsTail([d], x);
    }
  }

  lemma OthersStillPending(cfg: Config, env: Env, s: Sys, ds: seq<Download>)
    requires ds != [] && AllPending(s, ds) && RecoverOne(cfg, env, s, ds[0]).1
    ensures AllPending(RecoverOne(cfg, env, s, ds[0]).0, ds[1..])
  {
    var r, rest := RecoverOne(cfg, env, s, ds[0]).0, ds[1..];
    RecoverOneTable(cfg, env, s, ds[0]);
    RecoverOneMemory(cfg, env, s, ds[0]);
    forall i | 0 <= i < |rest|
      ensures Pending(r, rest[i])
    {
      assert rest[i] == ds[i + 1] && Pending(s, ds[i + 1]) && ds[0].id != ds[i + 1].id;
    }
  }

  /** What opening does to the table, even when it gives up half way. */
  lemma {:induction false} RecoverAllTable(cfg: Config, env: Env, s: Sys, ds: seq<Download>)
    requires AllPending(s, ds)
    ensures var (r, ok) := RecoverAll(cfg, env, s, ds);
            && OpeningFrame(s, r) && (Reliable(env) ==> ok)
            && (forall x :: x in s.db ==> RowKept(cfg.policy, s.db, r.db, x))
            && (forall x :: x in s.db && !Mentions(ds, x) ==> r.db[x] == s.db[x])
    decreases |ds|
  {
    if ds != [] {
      var (s1, ok) := RecoverOne(cfg, env, s, ds[0]);
      var r := RecoverAll(cfg, env, s, ds).0;
      RecoverOneTable(cfg, env, s, ds[0]);
      if ok {
        OthersStillPending(cfg, env, s, ds);
        RecoverAllTable(cfg, env, s1, ds[1..]);
      }
      forall x | x in s.db
        ensures RowKept(cfg.policy, s.db, r.db, x) && (!Mentions(ds, x) ==> r.db[x] == s.db[x])
      {
        MentionsTail(ds, x);
        if ok && x == ds[0].id {
          HeadNotInTail(ds);
        } else if ok {
          assert RowKept(cfg.policy, s1.db, r.db, x);
        }
      }
    }
  }

  lemma LoadedQueue(policy: RecoveryPolicy, q: seq<Id>, q1: seq<Id>, q2: seq<Id>, ds: seq<Download>)
    requires ds != [] && q1 == q + QueuedIds(policy, [ds[0]]) && q2 == q1 + QueuedIds(policy, ds[1..])
    ensures q2 == q + QueuedIds(policy, ds)
  {
    assert QueuedIds(policy, [ds[0]][1..]) == [];
    assert QueuedIds(policy, ds) == QueuedIds(policy, [ds[0]]) + QueuedIds(policy, ds[1..]);
  }

  lemma LoadedOneMore(policy: RecoveryPolicy, s: Sys, s1: Sys, r: Sys, ds: seq<Download>)
    requires ds != [] && DistinctIds(ds)
    requires Loaded(policy, s, [ds[0]], s1) && Loaded(policy, s1, ds[1..], r)
    requires ds[0].id in s1.db && ds[0].id in r.db && r.db[ds[0].id] == s1.db[ds[0].id]
    ensures Loaded(policy, s, ds, r)
  {
    LoadedQueue(policy, s.queue, s1.queue, r.queue, ds);
    LoadedDomain(policy, s, s1, r, ds);
    LoadedEntries(policy, s, s1, r, ds);
  }

  lemma LoadedDomain(policy: RecoveryPolicy, s: Sys, s1: Sys, r: Sys, ds: seq<Download>)
    requires ds != [] && Loaded(policy, s, [ds[0]], s1) && Loaded(policy, s1, ds[1..], r)
    ensures forall x :: x in r.downloads <==> x in s.downloads || Mentions(ds, x)
    ensures forall x :: x in s.downloads && x in r.downloads ==> r.downloads[x] == s.downloads[x]
  {
    forall x
      ensures x in r.downloads <==> x in s.downloads || Mentions(ds, x)
    {
      MentionsTail(ds, x);
      MentionsTail([ds[0]], x);
    }
  }

  lemma LoadedEntries(policy: RecoveryPolicy, s: Sys, s1: Sys, r: Sys, ds: seq<Download>)
    requires ds != [] && Loaded(policy, s, [ds[0]], s1) && Loaded(policy, s1, ds[1..], r)
    requires ds[0].id in s1.db && ds[0].id in r.db && r.db[ds[0].id] == s1.db[ds[0].id]
    ensures forall i :: 0 <= i < |ds| ==> Entered(policy, ds[i], r)
  {}

  /** Opening, record by record: every record enters, none already there changes, and the queue grows in order. */
  lemma {:induction false} RecoverAllMemory(cfg: Config, env: Env, s: Sys, ds: seq<Download>)
    requires AllPending(s, ds) && RecoverAll(cfg, env, s, ds).1
    ensures Loaded(cfg.policy, s, ds, RecoverAll(cfg, env, s, ds).0)
    decreases |ds|
  {
    if ds == [] {
      assert s.queue + [] == s.queue;
    } else {
      var s1 := RecoverOne(cfg, env, s, ds[0]).0;
      RecoverOneMemory(cfg, env, s, ds[0]);
      RecoverOneTable(cfg, env, s, ds[0]);
      OthersStillPending(cfg, env, s, ds);
      RecoverAllMemory(cfg, env, s1, ds[1..]);
      RecoverAllTable(cfg, env, s1, ds[1..]);
      HeadNotInTail(ds);
      LoadedOneMore(cfg.policy, s, s1, RecoverAll(cfg, env, s, ds).0, ds);
    }
  }

  // ---------------------------------------------------------------- the whole opening

  /** The queue a table opens with: every id whose recovered state is Queued, in listing order. */
  ghost predicate QueueFor(policy: RecoveryPolicy, db: Table, queue: seq<Id>) {
    && NoDup(queue) && Ordered(db, queue)
    && (forall id :: id in queue <==> id in db && RecoveredState(policy, db[id].state).Queued?)
  }

  lemma OneMoreInFront(db: Table, id: Id, tail: seq<Id>)
    requires id in db && Ordered(db, tail) && NoDup(tail) && forall i :: 0 <= i < |tail| ==> Before(db, id, tail[i])
    ensures Ordered(db, [id] + tail) && NoDup([id] + tail)
  {}

  lemma {:induction false} QueuedIdsAreOrdered(policy: RecoveryPolicy, db: Table, ds: seq<Download>, ids: seq<Id>)
    requires |ds| == |ids| && Ordered(db, ids) && NoDup(ids)
    requires forall i :: 0 <= i < |ds| ==> ids[i] in db && ds[i] == Decode(ids[i], db[ids[i]])
    ensures var q := QueuedIds(policy, ds);
            && NoDup(q) && Ordered(db, q)
            && (forall id :: id in q <==> id in ids && RecoveredState(policy, db[id].state).Queued?)
    decreases |ds|
  {
    if ds != [] {
      var id, tail := ids[0], QueuedIds(policy, ds[1..]);
      QueuedIdsAreOrdered(policy, db, ds[1..], ids[1..]);
      Tail(ids);
      assert forall i :: 0 <= i < |tail| ==> tail[i] in ids[1..];
      assert forall x :: x in ids[1..] ==> Before(db, id, x);
      OneMoreInFront(db, id, tail);
    }
  }

  /** Two listings of the same ids in the same order are the same list. */
  lemma {:induction false} OrderIsUnique(db: Table, p: seq<Id>, q: seq<Id>)
    requires Ordered(db, p) && Ordered(db, q) && NoDup(p) && NoDup(q) && (forall x :: x in p <==> x in q)
    ensures p == q
    decreases |p|
  {
    assert q == [] || q[0] in p;
    if p != [] {
      assert p[0] in q;
      assert p[0] == q[0];
      Tail(p);
      Tail(q);
      OrderIsUnique(db, p[1..], q[1..]);
    }
  }

  /** `ds` are the records of a table in listing order, under the names `ids`. */
  ghost predicate Lists(db: Table, ids: seq<Id>, ds: seq<Download>) {
    && |ds| == |ids| && Ordered(db, ids) && NoDup(ids)
    && (forall x :: x in ids <==> x in db)
    && (forall i :: 0 <= i < |ds| ==> ids[i] in db && ds[i] == Decode(ids[i], db[ids[i]]))
  }

  lemma ListingLists(db: Table)
    ensures Lists(db, OrderedIds(db, db.Keys), Listing(db))
  {}

  /** `ds` are rows of the table, read back. */
  ghost predicate Rows(db: Table, ds: seq<Download>) {
    forall i :: 0 <= i < |ds| ==> ds[i].id in db && ds[i] == Decode(ds[i].id, db[ds[i].id])
  }

  lemma ListedAreMentioned(db: Table, ids: seq<Id>, ds: seq<Download>)
    requires |ds| == |ids| && NoDup(ids) && (forall x :: x in ids <==> x in db)
    requires forall i :: 0 <= i < |ds| ==> ids[i] in db && ds[i] == Decode(ids[i], db[ids[i]])
    ensures Rows(db, ds) && DistinctIds(ds)
    ensures forall x :: Mentions(ds, x) <==> x in db
  {
    forall x
      ensures Mentions(ds, x) <==> x in db
    {
      if x in db {
        var i :| 0 <= i < |ids| && ids[i] == x;
        assert ds[i].id == x;
      }
    }
  }

  lemma ListedArePending(db: Table, ds: seq<Download>)
    requires Rows(db, ds) && DistinctIds(ds)
    ensures AllPending(Loading(db), ds)
  {}

  lemma EveryRowEnters(policy: RecoveryPolicy, db: Table, ds: seq<Download>, s: Sys)
    requires Rows(db, ds)
    requires forall i :: 0 <= i < |ds| ==> Entered(policy, ds[i], s)
    requires forall x :: Mentions(ds, x) <==> x in db
    ensures forall id :: id in db ==> Entered(policy, Decode(id, db[id]), s)
  {}

  lemma NothingIsActive(policy: RecoveryPolicy, db: Table, s: Sys)
    requires s.downloads.Keys == db.Keys
    requires forall id :: id in db ==> Entered(policy, Decode(id, db[id]), s)
    ensures CountActive(s.downloads) == 0
  {}

  /** A process that has connected to the table and listed it. */
  function Loading(db: Table): Sys {
    Blank(db).(dbCalls := 2)
  }

  /** What a finished opening of `db` looks like. */
  ghost predicate Reopened(policy: RecoveryPolicy, db: Table, s: Sys) {
    && s.downloads.Keys == db.Keys == s.db.Keys
    && (forall id :: id in db ==> Entered(policy, Decode(id, db[id]), s))
    && QueueFor(policy, db, s.queue)
    && CountActive(s.downloads) == 0
    && OpeningFrame(Loading(db), s)
  }

  lemma ListingGivesQueue(policy: RecoveryPolicy, db: Table, ids: seq<Id>, ds: seq<Download>)
    requires Lists(db, ids, ds)
    ensures QueueFor(policy, db, QueuedIds(policy, ds)) && Rows(db, ds)
  {
    QueuedIdsAreOrdered(policy, db, ds, ids);
  }

  lemma LoadedQueueIsListed(policy: RecoveryPolicy, db: Table, ds: seq<Download>, queue: seq<Id>)
    requires queue == Loading(db).queue + QueuedIds(policy, ds)
    ensures queue == QueuedIds(policy, ds)
  {
    assert Loading(db).queue == [];
  }

  lemma LoadedIsReopened(policy: RecoveryPolicy, db: Table, ds: seq<Download>, s: Sys)
    requires s.downloads.Keys == db.Keys && OpeningFrame(Loading(db), s)
    requires forall id :: id in db ==> Entered(policy, Decode(id, db[id]), s)
    requires CountActive(s.downloads) == 0
    requires QueueFor(policy, db, s.queue)
    ensures Reopened(policy, db, s)
  {}

  lemma RowsReopen(policy: RecoveryPolicy, db: Table, ds: seq<Download>, s: Sys)
    requires Rows(db, ds) && Loaded(policy, Loading(db), ds, s)
    requires forall x :: Mentions(ds, x) <==> x in db
    ensures s.downloads.Keys == db.Keys
    ensures forall id :: id in db ==> Entered(policy, Decode(id, db[id]), s)
    ensures CountActive(s.downloads) == 0
  {
    assert s.downloads.Keys == db.Keys;
    EveryRowEnters(policy, db, ds, s);
    NothingIsActive(policy, db, s);
  }

  lemma LoadingReopens(cfg: Config, env: Env, db: Table, ids: seq<Id>, ds: seq<Download>)
    requires Lists(db, ids, ds)
    ensures var (s, ok) := RecoverAll(cfg, env, Loading(db), ds);
            && (Reliable(env) ==> ok)
            && (ok ==> Reopened(cfg.policy, db, s))
            && OpeningFrame(Loading(db), s)
            && (forall x :: x in db ==> RowKept(cfg.policy, db, s.db, x))
  {
    ListedAreMentioned(db, ids, ds);
    ListedArePending(db, ds);
    RecoverAllTable(cfg, env, Loading(db), ds);
    var (s, ok) := RecoverAll(cfg, env, Loading(db), ds);
    if ok {
      RecoverAllMemory(cfg, env, Loading(db), ds);
      ListingGivesQueue(cfg.policy, db, ids, ds);
      LoadedQueueIsListed(cfg.policy, db, ds, s.queue);
      RowsReopen(cfg.policy, db, ds, s);
      LoadedIsReopened(cfg.policy, db, ds, s);
    }
  }

  /**
   * Opening any table at all: with a working database it succeeds; every row becomes a record, as it reads unless it
   * was in flight; no record is active, no task exists, and the queue holds exactly the Queued ids in creation order.
   */
  lemma OpenRecovers(cfg: Config, env: Env, db: Table)
    ensures var (s, ok) := Open(cfg, env, db);
            && (Reliable(env) ==> ok)
            && (ok ==> Reopened(cfg.policy, db, s))
            && OpeningFrame(Loading(db), s)
            && (forall x :: x in db ==> RowKept(cfg.policy, db, s.db, x))
  {
    if env.disk(0) && env.disk(1) {
      ListingLists(db);
      LoadingReopens(cfg, env, db, OrderedIds(db, db.Keys), Listing(db));
      var s := RecoverAll(cfg, env, Loading(db), Listing(db)).0;
      assert Open(cfg, env, db).0 == s.(snapshots := []);
      ReopenedForgetsSnapshots(cfg.policy, db, s);
    }
  }

  lemma ReopenedForgetsSnapshots(policy: RecoveryPolicy, db: Table, s: Sys)
    ensures Reopened(policy, db, s) ==> Reopened(policy, db, s.(snapshots := []))
  {}

  // ---------------------------------------------------------------- the invariants start out true

  function States(downloads: Known): (m: map<Id, DownloadState>) {
    map id | id in downloads :: downloads[id].info.state
  }

  lemma ReopenedRecord(policy: RecoveryPolicy, db: Table, s: Sys, id: Id)
    requires Reopened(policy, db, s) && id in db
    ensures id in s.downloads && s.downloads[id].info.id == id && s.downloads[id].cancel.None?
    ensures s.downloads[id].info.state == RecoveredState(policy, db[id].state)
    ensures ReadsBack(s.downloads, s.db, id)
  {
    assert Entered(policy, Decode(id, db[id]), s);
  }

  /** A row that a save wrote and that reads as the record is the row of that record. */
  lemma CanonicalAgrees(downloads: Known, db: Table, id: Id)
    requires ReadsBack(downloads, db, id) && Encode(Decode(id, db[id])) == db[id]
    ensures Agrees(downloads, db, id)
  {
    SaveLoadIsNormalisation(downloads[id].info);
  }

  /** Any stored time is read and stored again as itself, if it is not negative. */
  lemma TimesStayTimes(id: Id, row: Row, ms: i64)
    requires Encode(Decode(id, row)) == row && 0 <= ms
    ensures Encode(Decode(id, row.(updatedAt := ms))) == row.(updatedAt := ms)
  {}

  /** A row kept or settled is canonical if the old one was, and keeps its creation time and its recovered state. */
  lemma KeptRow(policy: RecoveryPolicy, db: Table, db': Table, id: Id)
    requires RowKept(policy, db, db', id) && Encode(Decode(id, db[id])) == db[id]
    ensures Encode(Decode(id, db'[id])) == db'[id] && db'[id].createdAt == db[id].createdAt
    ensures RecoveredState(policy, db'[id].state) == RecoveredState(policy, db[id].state)
  {
    if db'[id] != db[id] {
      SaveLoadIsNormalisation(Recovered(policy, Decode(id, db[id]), 0).0);
      TimesStayTimes(id, Encode(Recovered(policy, Decode(id, db[id]), 0).0), db'[id].updatedAt);
    }
  }

  lemma OpenKeepsCanonical(policy: RecoveryPolicy, db: Table, db': Table)
    requires Canonical(db) && db'.Keys == db.Keys && forall x :: x in db ==> RowKept(policy, db, db', x)
    ensures Canonical(db')
  {
    forall x | x in db'
      ensures Encode(Decode(x, db'[x])) == db'[x]
    {
      KeptRow(policy, db, db', x);
    }
  }

  lemma OpenIsSafe(cfg: Config, db: Table, s: Sys)
    requires Reopened(cfg.policy, db, s)
    ensures Safe(cfg, s)
  {
    forall id | id in s.downloads
      ensures s.downloads[id].info.id == id && s.downloads[id].cancel.None?
      ensures s.downloads[id].info.state == RecoveredState(cfg.policy, db[id].state)
    {
      ReopenedRecord(cfg.policy, db, s, id);
    }
    assert QueueOk(cfg.limit, s.queue, s.downloads);
  }

  lemma OpenAgrees(policy: RecoveryPolicy, db: Table, s: Sys, id: Id)
    requires Reopened(policy, db, s) && Canonical(s.db)
    ensures Agrees(s.downloads, s.db, id)
  {
    if id in db {
      ReopenedRecord(policy, db, s, id);
      CanonicalAgrees(s.downloads, s.db, id);
    }
  }

  lemma OpenQueuesAll(policy: RecoveryPolicy, db: Table, s: Sys)
    requires Reopened(policy, db, s)
    ensures forall x :: x in s.downloads ==>
              && !s.downloads[x].info.state.Active()
              && (s.downloads[x].info.state.Queued? ==> x in s.queue)
  {
    forall x | x in s.downloads
      ensures !s.downloads[x].info.state.Active() && (s.downloads[x].info.state.Queued? ==> x in s.queue)
    {
      ReopenedRecord(policy, db, s, x);
    }
  }

  lemma NothingReplayed(s: Sys)
    requires s.downloads.Keys <= s.seen
    ensures ReplayOk(States(s.downloads), |s.log|, s.log, s.downloads, s.seen)
  {}

  lemma OpenIsConsistent(cfg: Config, db: Table, s: Sys)
    requires Reopened(cfg.policy, db, s) && Canonical(s.db) && s.snapshots == []
    ensures Consistent(States(s.downloads), |s.log|, s)
  {
    OpenQueuesAll(cfg.policy, db, s);
    NothingReplayed(s);
    forall id
      ensures Agrees(s.downloads, s.db, id)
    {
      OpenAgrees(cfg.policy, db, s, id);
    }
    Settled(States(s.downloads), |s.log|, s, 0);
  }
}
