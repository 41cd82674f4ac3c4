/** A response body as the transfer loop sees it: how it ends, what the limiter makes of it, and what is reported. */
module Body {
  import opened Wrappers
  import opened Bandwidth
  import opened Storage

  /** What the response body yields next: a chunk, or the error that ends it. */
  datatype Item = Chunk(data: Bytes) | Lost(what: string)

  /** The bytes of the first `n` items. */
  function Received(body: seq<Item>, n: nat): Bytes
    requires n <= |body|
  {
    if n == 0 then [] else Received(body, n - 1) + if body[n - 1].Chunk? then body[n - 1].data else []
  }

  /** A number of bytes as the 64-bit count shows it. */
  function Count(n: nat): u64 {
    SaturatingAdd(0, n)
  }

  lemma CountGrows(a: nat, b: nat)
    ensures Count(a) <= Count(a + b) && SaturatingAdd(Count(a), b) == Count(a + b)
  {}

  // ---------------------------------------------------------------- how a body ends

  /** The whole body was taken, an error ended it, or the call for item `at` never comes back from the limiter. */
  datatype Ending = Whole | Broke(error: Error) | Asleep(at: nat)

  /** Empty chunks go past the limiter and the file. */
  predicate Solid(item: Item) {
    item.Chunk? && item.data != []
  }

  /** A chunk of more bytes than the bucket can ever hold. */
  predicate Oversized(rate: Option<u64>, item: Item) {
    item.Chunk? && rate.Some? && rate.value > 0 && Count(|item.data|) > rate.value
  }

  /**
   * How reading a body ends when every write works. The signal is looked at before each item, and before the end of
   * the body, but not while the limiter is waited for.
   */
  function EndOf(body: seq<Item>, cancelled: nat -> bool, rate: Option<u64>, i: nat): Ending
    requires i <= |body|
    decreases |body| - i
  {
    if cancelled(i) then Broke(Cancelled)
    else if i == |body| then Whole
    else if body[i].Lost? then Broke(Network(body[i].what))
    else if Oversized(rate, body[i]) then Asleep(i)
    else EndOf(body, cancelled, rate, i + 1)
  }

  /** The item at which an unlimited transfer ends, or the number of items. */
  function EndsAt(body: seq<Item>, cancelled: nat -> bool, i: nat): (e: nat)
    requires i <= |body|
    ensures i <= e <= |body|
    decreases |body| - i
  {
    if cancelled(i) || i == |body| || body[i].Lost? then i else EndsAt(body, cancelled, i + 1)
  }

  /** A transfer takes the whole body exactly when nothing signals, nothing is lost, and nothing is oversized. */
  lemma {:induction false} WholeExactlyWhen(body: seq<Item>, cancelled: nat -> bool, rate: Option<u64>, i: nat)
    requires i <= |body|
    ensures EndOf(body, cancelled, rate, i).Whole? <==>
              && (forall k :: i <= k <= |body| ==> !cancelled(k))
              && (forall k :: i <= k < |body| ==> body[k].Chunk? && !Oversized(rate, body[k]))
    decreases |body| - i
  {
    if i < |body| {
      WholeExactlyWhen(body, cancelled, rate, i + 1);
    }
  }

  /** It is cancelled exactly when some look sees the signal and nothing ended or held up the transfer before. */
  lemma {:induction false} CancelledExactlyWhen(body: seq<Item>, cancelled: nat -> bool, rate: Option<u64>, i: nat)
    requires i <= |body|
    ensures EndOf(body, cancelled, rate, i) == Broke(Cancelled) <==>
              exists k :: i <= k <= |body| && cancelled(k) && Undisturbed(body, cancelled, rate, i, k)
    decreases |body| - i
  {
    if i < |body| && !cancelled(i) {
      CancelledExactlyWhen(body, cancelled, rate, i + 1);
    }
    if cancelled(i) {
      assert Undisturbed(body, cancelled, rate, i, i);
    }
    if k :| i + 1 <= k <= |body| && cancelled(k) && Undisturbed(body, cancelled, rate, i + 1, k)
            && !cancelled(i) && body[i].Chunk? && !Oversized(rate, body[i]) {
      assert Undisturbed(body, cancelled, rate, i, k);
    }
    if k :| i <= k <= |body| && cancelled(k) && Undisturbed(body, cancelled, rate, i, k) && k > i {
      assert Undisturbed(body, cancelled, rate, i + 1, k);
    }
  }

  /** From item `i` to before item `k` no look sees the signal, and every item is a chunk the limiter lets through. */
  ghost predicate Undisturbed(body: seq<Item>, cancelled: nat -> bool, rate: Option<u64>, i: nat, k: nat) {
    i <= k <= |body| && forall j :: i <= j < k ==> !cancelled(j) && body[j].Chunk? && !Oversized(rate, body[j])
  }

  /** It breaks off with an error of the connection exactly at the first lost item, if nothing came before. */
  lemma {:induction false} LostExactlyWhen(body: seq<Item>, cancelled: nat -> bool, rate: Option<u64>, i: nat, what: string)
    requires i <= |body|
    ensures EndOf(body, cancelled, rate, i) == Broke(Network(what)) <==>
              exists k :: i <= k < |body| && body[k] == Lost(what) && !cancelled(k)
                          && Undisturbed(body, cancelled, rate, i, k)
    decreases |body| - i
  {
    if i < |body| && !cancelled(i) {
      LostExactlyWhen(body, cancelled, rate, i + 1, what);
      if body[i].Lost? {
        assert Undisturbed(body, cancelled, rate, i, i);
      }
    }
    if k :| i + 1 <= k < |body| && body[k] == Lost(what) && !cancelled(k) && Undisturbed(body, cancelled, rate, i + 1, k)
            && !cancelled(i) && body[i].Chunk? && !Oversized(rate, body[i]) {
      assert Undisturbed(body, cancelled, rate, i, k);
    }
    if k :| i <= k < |body| && body[k] == Lost(what) && !cancelled(k) && Undisturbed(body, cancelled, rate, i, k) && k > i {
      assert Undisturbed(body, cancelled, rate, i + 1, k);
    }
  }

  /** A limited transfer ends, and as an unlimited one would, exactly when no chunk before that end exceeds the rate. */
  lemma {:induction false} EndsExactlyWhenNothingIsOversized(body: seq<Item>, cancelled: nat -> bool, rate: Option<u64>, i: nat)
    requires i <= |body|
    ensures !EndOf(body, cancelled, rate, i).Asleep? <==>
              forall k :: i <= k < EndsAt(body, cancelled, i) ==> !Oversized(rate, body[k])
    ensures !EndOf(body, cancelled, rate, i).Asleep? ==>
              EndOf(body, cancelled, rate, i) == EndOf(body, cancelled, None, i)
    decreases |body| - i
  {
    if i < |body| && !cancelled(i) && body[i].Chunk? {
      EndsExactlyWhenNothingIsOversized(body, cancelled, rate, i + 1);
      assert EndsAt(body, cancelled, i) == EndsAt(body, cancelled, i + 1) > i;
    }
  }

  /** Where a transfer falls asleep: at its first oversized chunk, if nothing ended it before. */
  lemma {:induction false} AsleepExactlyWhen(body: seq<Item>, cancelled: nat -> bool, rate: Option<u64>, i: nat, j: nat)
    requires i <= |body|
    ensures EndOf(body, cancelled, rate, i) == Asleep(j) <==>
              && i <= j < |body| && Oversized(rate, body[j])
              && (forall k :: i <= k <= j ==> !cancelled(k))
              && (forall k :: i <= k < j ==> body[k].Chunk? && !Oversized(rate, body[k]))
    decreases |body| - i
  {
    if i < |body| {
      AsleepExactlyWhen(body, cancelled, rate, i + 1, j);
    }
  }

  /** Once asleep, always asleep: no signal given later is ever seen. */
  lemma SignalComesTooLate(body: seq<Item>, cancelled: nat -> bool, later: nat -> bool, rate: Option<u64>, j: nat)
    requires EndOf(body, cancelled, rate, 0) == Asleep(j)
    requires forall k :: 0 <= k <= j ==> later(k) == cancelled(k)
    ensures EndOf(body, later, rate, 0) == Asleep(j)
  {
    AsleepExactlyWhen(body, cancelled, rate, 0, j);
    AsleepExactlyWhen(body, later, rate, 0, j);
  }

  // ---------------------------------------------------------------- what the limiter makes of it

  function Need(item: Item): Amount
    requires item.Chunk?
  {
    Count(|item.data|) as real
  }

  /** The bucket after the chunks among the first `n` items; `waits(i)` are the clock readings of the call for item `i`. */
  function BucketAfter(rate: u64, b: Bucket, body: seq<Item>, waits: nat -> seq<real>, n: nat): Bucket
    requires n <= |body|
  {
    if n == 0 then b
    else
      var before := BucketAfter(rate, b, body, waits, n - 1);
      if Solid(body[n - 1]) then Acquiring(rate, before, Need(body[n - 1]), waits(n - 1)).end else before
  }

  /** Every call gets at least two clock readings, and sleeps as long as it asks. */
  ghost predicate SleepsAreHonoured(rate: u64, b: Bucket, body: seq<Item>, waits: nat -> seq<real>) {
    forall i :: 0 <= i < |body| && Solid(body[i]) && rate > 0 ==>
      |waits(i)| >= 2 && SleepsHonoured(rate, BucketAfter(rate, b, body, waits, i), Need(body[i]), waits(i))
  }

  /** The call for a chunk comes back exactly when the chunk is not oversized. */
  lemma ComesBackExactlyWhen(rate: u64, b: Bucket, body: seq<Item>, waits: nat -> seq<real>, i: nat)
    requires SleepsAreHonoured(rate, b, body, waits) && i < |body| && Solid(body[i])
    ensures Acquiring(rate, BucketAfter(rate, b, body, waits, i), Need(body[i]), waits(i)).returned
            <==> !Oversized(Some(rate), body[i])
  {
    if rate > 0 {
      ReturnsExactlyWhenItFits(rate, BucketAfter(rate, b, body, waits, i), Need(body[i]), waits(i));
    }
  }

  /** However long it is given, the call for an oversized chunk does not come back. */
  lemma NeverComesBack(rate: u64, b: Bucket, item: Item, clock: seq<real>)
    requires Oversized(Some(rate), item)
    ensures !Acquiring(rate, b, Need(item), clock).returned
  {
    OversizedNeverReturns(rate, b, Need(item), clock);
  }

  // ---------------------------------------------------------------- what is reported

  datatype Report = Report(downloaded: u64, total: Option<u64>)

  const THROTTLE_MS: int := 250

  /** The reports made so far, the clock reading of the last one (or the start), and how many readings were taken. */
  datatype Meter = Meter(reports: seq<Report>, lastEmit: int, readings: nat)

  /** One chunk written: the clock is read, and if the last report is old enough another one is made. */
  function Tick(m: Meter, clock: nat -> int, report: Report): Meter {
    var now := clock(m.readings);
    if now - m.lastEmit >= THROTTLE_MS then Meter(m.reports + [report], now, m.readings + 1)
    else m.(readings := m.readings + 1)
  }

  function MeterAfter(body: seq<Item>, announced: Option<u64>, clock: nat -> int, n: nat): Meter
    requires n <= |body|
  {
    if n == 0 then Meter([], clock(0), 1)
    else
      var m := MeterAfter(body, announced, clock, n - 1);
      if Solid(body[n - 1]) then Tick(m, clock, Report(Count(|Received(body, n)|), announced)) else m
  }

  /** A report is made right after a chunk was written, if at all, and tells the bytes received so far and announced. */
  lemma ReportsTellTheCount(body: seq<Item>, announced: Option<u64>, clock: nat -> int, n: nat)
    requires 0 < n <= |body|
    ensures var (older, newer) := (MeterAfter(body, announced, clock, n - 1).reports, MeterAfter(body, announced, clock, n).reports);
            newer == older || (body[n - 1].Chunk? && body[n - 1].data != []
                          && newer == older + [Report(Count(|Received(body, n)|), announced)])
  {}

  /** `n` reports take at least `n` intervals, and their counts never fall nor pass what was received. */
  lemma {:induction false} ReportsAreSparse(body: seq<Item>, announced: Option<u64>, clock: nat -> int, n: nat)
    requires n <= |body|
    ensures var m := MeterAfter(body, announced, clock, n);
            && clock(0) + THROTTLE_MS * |m.reports| <= m.lastEmit
            && (forall i :: 0 <= i < |m.reports| ==> m.reports[i].downloaded <= Count(|Received(body, n)|))
            && (forall i, j :: 0 <= i <= j < |m.reports| ==> m.reports[i].downloaded <= m.reports[j].downloaded)
  {
    if n > 0 {
      ReportsAreSparse(body, announced, clock, n - 1);
      CountGrows(|Received(body, n - 1)|, |Received(body, n)| - |Received(body, n - 1)|);
    }
  }

  /** No report is overdue: whenever the clock was last read, the last report, or the start, was less than an interval old. */
  lemma {:induction false} NoReportIsOverdue(body: seq<Item>, announced: Option<u64>, clock: nat -> int, n: nat)
    requires n <= |body|
    ensures var m := MeterAfter(body, announced, clock, n);
            1 <= m.readings && clock(m.readings - 1) - m.lastEmit < THROTTLE_MS
  {
    if n > 0 {
      NoReportIsOverdue(body, announced, clock, n - 1);
    }
  }
}
