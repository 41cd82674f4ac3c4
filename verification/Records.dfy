/** Download records, their database rows, and the store that keeps them. */
module Records {
  import opened Wrappers
  import opened Lifecycle
  import opened Queues

  const I64_MAX: int := 0x7FFF_FFFF_FFFF_FFFF
  const NS_PER_MS: int := 1_000_000

  type i64 = x: int | -I64_MAX - 1 <= x <= I64_MAX

  /** A system time: nanoseconds since the Unix epoch, negative before it. */
  type Time = int

  datatype BackendKind = Http

  datatype Download = Download(
    id: Id,
    url: string,
    destination: string,
    backend: BackendKind,
    state: DownloadState,
    overwrite: bool,
    totalBytes: Option<u64>,
    downloadedBytes: u64,
    createdAt: Time,
    updatedAt: Time,
    startedAt: Option<Time>,
    completedAt: Option<Time>,
    error: Option<string>,
    meta: string)

  /** One row of the `downloads` table; the id is the table's primary key and not repeated here. */
  datatype Row = Row(
    url: string,
    destination: string,
    backend: BackendKind,
    state: DownloadState,
    overwrite: i64,
    totalBytes: Option<i64>,
    downloadedBytes: i64,
    error: Option<string>,
    createdAt: i64,
    updatedAt: i64,
    startedAt: Option<i64>,
    completedAt: Option<i64>,
    meta: string)

  type Table = map<Id, Row>

  function SysToMs(t: Time): i64 {
    if t < 0 then 0
    else if t / NS_PER_MS <= I64_MAX then t / NS_PER_MS
    else I64_MAX
  }

  function MsToSys(ms: i64): Time {
    (if ms < 0 then 0 else ms) * NS_PER_MS
  }

  function OptToMs(t: Option<Time>): Option<i64> {
    if t.Some? then Some(SysToMs(t.value)) else None
  }

  function OptToSys(ms: Option<i64>): Option<Time> {
    if ms.Some? then Some(MsToSys(ms.value)) else None
  }

  function Encode(d: Download): Row {
    Row(d.url, d.destination, d.backend, d.state,
        if d.overwrite then 1 else 0,
        if d.totalBytes.Some? && d.totalBytes.value <= I64_MAX then Some(d.totalBytes.value) else None,
        if d.downloadedBytes <= I64_MAX then d.downloadedBytes else I64_MAX,
        d.error, SysToMs(d.createdAt), SysToMs(d.updatedAt), OptToMs(d.startedAt), OptToMs(d.completedAt), d.meta)
  }

  /** Reads a row back. A negative count, which the program never writes, reads as zero. */
  function Decode(id: Id, r: Row): Download {
    Download(id, r.url, r.destination, r.backend, r.state, r.overwrite != 0,
             if r.totalBytes.Some? then Some(if r.totalBytes.value < 0 then 0 else r.totalBytes.value) else None,
             if r.downloadedBytes < 0 then 0 else r.downloadedBytes,
             MsToSys(r.createdAt), MsToSys(r.updatedAt), OptToSys(r.startedAt), OptToSys(r.completedAt),
             r.error, r.meta)
  }

  /** What a record looks like after having been saved and loaded. */
  function Normalise(d: Download): Download {
    Decode(d.id, Encode(d))
  }

  /** A time the millisecond column holds exactly. */
  predicate Aligned(t: Time) {
    0 <= t <= I64_MAX * NS_PER_MS && t % NS_PER_MS == 0
  }

  predicate OptAligned(t: Option<Time>) {
    t.Some? ==> Aligned(t.value)
  }

  /** A record the columns hold exactly. */
  predicate Representable(d: Download) {
    && Aligned(d.createdAt) && Aligned(d.updatedAt) && OptAligned(d.startedAt) && OptAligned(d.completedAt)
    && d.downloadedBytes <= I64_MAX
    && (d.totalBytes.Some? ==> d.totalBytes.value <= I64_MAX)
  }

  /** What a row reads as can always be saved again without loss. */
  lemma DecodedIsRepresentable(id: Id, r: Row)
    ensures Representable(Decode(id, r)) && Normalise(Decode(id, r)) == Decode(id, r)
  {
    SaveLoadIsIdentity(Decode(id, r));
  }

  /** Saving and loading is lossless exactly on the records the columns hold exactly. */
  lemma SaveLoadIsIdentity(d: Download)
    ensures Normalise(d) == d <==> Representable(d)
  {}

  /** Saving and loading loses nothing the second time, and a saved row is read back as itself. */
  lemma SaveLoadIsNormalisation(d: Download)
    ensures Encode(Normalise(d)) == Encode(d)
    ensures Normalise(Normalise(d)) == Normalise(d)
    ensures Representable(Normalise(d))
    ensures Normalise(d).id == d.id && Normalise(d).state == d.state && Normalise(d).error == d.error
  {}

  lemma SysToMsMonotone(t: Time, u: Time)
    requires t <= u
    ensures SysToMs(t) <= SysToMs(u)
    ensures Aligned(t) && Aligned(u) && t < u ==> SysToMs(t) < SysToMs(u)
  {}

  /** `back` is `t` cut down to the millisecond it falls into, or to the ends of what the column can hold. */
  ghost predicate CutToMillisecond(t: Time, back: Time) {
    && back % NS_PER_MS == 0
    && (t < 0 ==> back == 0)
    && (0 <= t < (I64_MAX + 1) * NS_PER_MS ==> back <= t < back + NS_PER_MS)
    && ((I64_MAX + 1) * NS_PER_MS <= t ==> back == I64_MAX * NS_PER_MS)
  }

  ghost predicate OptCut(t: Option<Time>, back: Option<Time>) {
    (t.Some? <==> back.Some?) && (t.Some? ==> CutToMillisecond(t.value, back.value))
  }

  /** A saved time reads back as the start of the millisecond it falls into, never later than it was. */
  lemma SavedTimeIsCut(t: Time)
    ensures CutToMillisecond(t, MsToSys(SysToMs(t)))
    ensures 0 <= t < (I64_MAX + 1) * NS_PER_MS ==> SysToMs(t) * NS_PER_MS <= t < (SysToMs(t) + 1) * NS_PER_MS
  {}

  /**
   * What saving and loading makes of a record: its four times are cut to the millisecond, a total beyond the column is
   * lost, a count beyond it stops at the largest, and nothing else changes.
   */
  lemma SavedRecordReadsBack(d: Download)
    ensures var e := Normalise(d);
            && CutToMillisecond(d.createdAt, e.createdAt) && CutToMillisecond(d.updatedAt, e.updatedAt)
            && OptCut(d.startedAt, e.startedAt) && OptCut(d.completedAt, e.completedAt)
            && (d.totalBytes.Some? && d.totalBytes.value > I64_MAX ==> e.totalBytes.None?)
            && (d.totalBytes.None? || d.totalBytes.value <= I64_MAX ==> e.totalBytes == d.totalBytes)
            && (d.downloadedBytes > I64_MAX ==> e.downloadedBytes == I64_MAX)
            && (d.downloadedBytes <= I64_MAX ==> e.downloadedBytes == d.downloadedBytes)
            && e == d.(createdAt := e.createdAt, updatedAt := e.updatedAt, startedAt := e.startedAt,
                       completedAt := e.completedAt, totalBytes := e.totalBytes, downloadedBytes := e.downloadedBytes)
  {}

  /** The columns of a row: each one holds the field it is named after, times in milliseconds, a flag as 0 or 1. */
  lemma ColumnsHoldFields(d: Download)
    ensures var r := Encode(d);
            && r.url == d.url && r.destination == d.destination && r.backend == d.backend && r.state == d.state
            && (r.overwrite == 1 <==> d.overwrite) && (r.overwrite == 0 <==> !d.overwrite)
            && r.error == d.error && r.meta == d.meta
            && CutToMillisecond(d.createdAt, r.createdAt * NS_PER_MS)
            && CutToMillisecond(d.updatedAt, r.updatedAt * NS_PER_MS)
            && OptCut(d.startedAt, if r.startedAt.Some? then Some(r.startedAt.value * NS_PER_MS) else None)
            && OptCut(d.completedAt, if r.completedAt.Some? then Some(r.completedAt.value * NS_PER_MS) else None)
            && (d.downloadedBytes <= I64_MAX ==> r.downloadedBytes == d.downloadedBytes)
            && (d.totalBytes.Some? && d.totalBytes.value <= I64_MAX ==> r.totalBytes == Some(d.totalBytes.value))
            && (r.totalBytes.Some? ==> d.totalBytes.Some?)
  {}

  /** The order of the listing query: creation time first, then id. */
  predicate Before(db: Table, a: Id, b: Id)
    requires a in db && b in db
  {
    db[a].createdAt < db[b].createdAt || (db[a].createdAt == db[b].createdAt && a < b)
  }

  /** `ids` in the order of the listing query. */
  ghost predicate Ordered(db: Table, ids: seq<Id>) {
    && (forall i :: 0 <= i < |ids| ==> ids[i] in db)
    && (forall i, j :: 0 <= i < j < |ids| ==> Before(db, ids[i], ids[j]))
  }

  lemma {:induction false} HasFirst(db: Table, ids: set<Id>)
    requires ids != {} && ids <= db.Keys
    ensures exists m :: m in ids && forall x :: x in ids && x != m ==> Before(db, m, x)
  {
    var x :| x in ids;
    var rest := ids - {x};
    if rest == {} {
      assert ids == {x};
    } else {
      HasFirst(db, rest);
      var m :| m in rest && forall y :: y in rest && y != m ==> Before(db, m, y);
      var first := if Before(db, x, m) then x else m;
      assert forall y :: y in ids ==> y == x || y in rest;
      assert first in ids && forall y :: y in ids && y != first ==> Before(db, first, y);
    }
  }

  /** The ids of a table in listing order. */
  function OrderedIds(db: Table, ids: set<Id>): (r: seq<Id>)
    requires ids <= db.Keys
    ensures forall x :: x in r <==> x in ids
    ensures Ordered(db, r) && NoDup(r)
  {
    if ids == {} then []
    else
      HasFirst(db, ids);
      var m :| m in ids && forall x :: x in ids && x != m ==> Before(db, m, x);
      [m] + OrderedIds(db, ids - {m})
  }

  function Listing(db: Table): (r: seq<Download>)
    ensures |r| == |OrderedIds(db, db.Keys)|
    ensures forall i :: 0 <= i < |r| ==>
              OrderedIds(db, db.Keys)[i] in db && r[i] == Decode(OrderedIds(db, db.Keys)[i], db[OrderedIds(db, db.Keys)[i]])
  {
    var ids := OrderedIds(db, db.Keys);
    seq(|ids|, i requires 0 <= i < |ids| => assert ids[i] in ids; Decode(ids[i], db[ids[i]]))
  }

  /** Records created at different representable times are listed in creation order. */
  lemma ListingFollowsCreation(db: Table, a: Download, b: Download, i: nat, j: nat)
    requires a.id in db && db[a.id] == Encode(a) && b.id in db && db[b.id] == Encode(b)
    requires i < |Listing(db)| && Listing(db)[i].id == a.id
    requires j < |Listing(db)| && Listing(db)[j].id == b.id
    ensures i < j ==> a.createdAt <= b.createdAt || SysToMs(a.createdAt) == SysToMs(b.createdAt)
    ensures Aligned(a.createdAt) && Aligned(b.createdAt) && a.createdAt < b.createdAt ==> i < j
    ensures SysToMs(a.createdAt) == SysToMs(b.createdAt) ==> (i < j <==> a.id < b.id)
  {}

  /** The database connection. Call number `n` succeeds exactly when `disk(n)` holds. */
  class Store {
    const disk: nat -> bool
    var rows: Table
    var calls: nat

    constructor (disk: nat -> bool, rows: Table)
      ensures this.disk == disk && this.rows == rows && calls == 0
    {
      this.disk := disk;
      this.rows := rows;
      calls := 0;
    }

    /** Inserts or replaces the row of `d`. */
    method Save(d: Download) returns (ok: bool)
      modifies this
      ensures ok == disk(old(calls)) && calls == old(calls) + 1
      ensures rows == if ok then old(rows)[d.id := Encode(d)] else old(rows)
    {
      ok := disk(calls);
      calls := calls + 1;
      if ok {
        rows := rows[d.id := Encode(d)];
      }
    }

    method Remove(id: Id) returns (ok: bool)
      modifies this
      ensures ok == disk(old(calls)) && calls == old(calls) + 1
      ensures rows == if ok then old(rows) - {id} else old(rows)
    {
      ok := disk(calls);
      calls := calls + 1;
      if ok {
        rows := rows - {id};
      }
    }

    /** Opens the connection and brings the schema up to date. */
    method Connect() returns (ok: bool)
      modifies `calls
      ensures ok == disk(old(calls)) && calls == old(calls) + 1
    {
      ok := disk(calls);
      calls := calls + 1;
    }

    /** Every row, read back, in listing order; fails when the query does, or a row cannot be read. */
    method List() returns (out: seq<Download>, ok: bool)
      modifies `calls
      ensures ok == disk(old(calls)) && calls == old(calls) + 1
      ensures out == if ok then Listing(rows) else []
    {
      out := [];
      ok := disk(calls);
      calls := calls + 1;
      if !ok {
        return;
      }
      var ids := OrderedIds(rows, rows.Keys);
      for i := 0 to |ids|
        invariant |out| == i
        invariant forall k :: 0 <= k < i ==> ids[k] in rows && out[k] == Decode(ids[k], rows[ids[k]])
      {
        assert ids[i] in ids;
        out := out + [Decode(ids[i], rows[ids[i]])];
      }
    }
  }
}
