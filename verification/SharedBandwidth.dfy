/** How much bandwidth the running attempts have between them. */
module SharedBandwidth {
  import opened Wrappers
  import opened Queues
  import opened Records
  import opened Bandwidth
  import opened ManagerModel
  import opened Safety
  import opened Runs

  ghost predicate Limited(t: TaskId, tasks: Tasks, known: set<Id>) {
    Held(t, tasks, known) && tasks[t].rate.Some?
  }

  /** How many of `ts` hold a limiter for a known download. */
  ghost function LimitedCount(ts: seq<TaskId>, tasks: Tasks, known: set<Id>): nat {
    if ts == [] then 0
    else LimitedCount(ts[..|ts| - 1], tasks, known) + if Limited(ts[|ts| - 1], tasks, known) then 1 else 0
  }

  /** The sum of their rates. */
  ghost function TotalRate(ts: seq<TaskId>, tasks: Tasks, known: set<Id>): nat {
    if ts == [] then 0
    else TotalRate(ts[..|ts| - 1], tasks, known)
         + if Limited(ts[|ts| - 1], tasks, known) then tasks[ts[|ts| - 1]].rate.value else 0
  }

  lemma {:induction false} RatesAreShares(cfg: Config, ts: seq<TaskId>, tasks: Tasks, known: set<Id>, cap: u64)
    requires RatesOk(cfg, tasks) && cfg.cap == Some(cap) && Ranked(ts, tasks, known)
    ensures LimitedCount(ts, tasks, known) <= Rank(ts, tasks, known)
    ensures TotalRate(ts, tasks, known) <= SharesUpTo(cap, LimitedCount(ts, tasks, known))
  {
    if ts != [] {
      var front, last := ts[..|ts| - 1], ts[|ts| - 1];
      RatesAreShares(cfg, front, tasks, known, cap);
      if Limited(last, tasks, known) {
        var n, seenActive := LimitedCount(ts, tasks, known), tasks[last].seenActive;
        assert 0 < n <= Rank(ts, tasks, known) <= seenActive;
        QuotientShrinks(cap, n, seenActive);
      }
    }
  }

  /** A running attempt goes without a limiter exactly when it saw more active downloads than bytes are allowed. */
  ghost predicate RateExplained(s: Sys, t: TaskId, cap: u64) {
    t in s.tasks && s.tasks[t].Running? && (s.tasks[t].rate.None? <==> cap < s.tasks[t].seenActive)
  }

  /**
   * Aggregate bandwidth. At every moment of every life, on any disk, the limiters held for known downloads add up to
   * at most cap/1 + cap/2 + ... + cap/n for the n of them; and with a cap no smaller than the concurrency limit
   * every running attempt does hold one.
   */
  lemma AggregateBandwidth(cfg: Config, env: Env, db: Table, trace: seq<Sys>, ops: seq<Op>, k: nat, cap: u64)
    requires Life(cfg, env, db, trace, ops) && k < |trace| && cfg.cap == Some(cap)
    ensures var s := trace[k];
            var n := LimitedCount(s.running, s.tasks, s.downloads.Keys);
            && TotalRate(s.running, s.tasks, s.downloads.Keys) <= SharesUpTo(cap, n)
            && n <= CountActive(s.downloads) <= cfg.limit
            && (forall t :: t in s.running ==>
                  RateExplained(s, t, cap) && (cap >= cfg.limit ==> s.tasks[t].rate.Some?))
  {
    LifeIsSafe(cfg, env, db, trace, ops, k);
    BandwidthShared(cfg, trace[k], cap);
  }

  lemma BandwidthShared(cfg: Config, s: Sys, cap: u64)
    requires Safe(cfg, s) && cfg.cap == Some(cap)
    ensures var n := LimitedCount(s.running, s.tasks, s.downloads.Keys);
            && TotalRate(s.running, s.tasks, s.downloads.Keys) <= SharesUpTo(cap, n)
            && n <= CountActive(s.downloads) <= cfg.limit
            && (forall t :: t in s.running ==>
                  RateExplained(s, t, cap) && (cap >= cfg.limit ==> s.tasks[t].rate.Some?))
  {
    RatesAreShares(cfg, s.running, s.tasks, s.downloads.Keys, cap);
    RankCountsDownloads(s.running, s.tasks, s.downloads);
    SubsetSize(HeldIds(s.running, s.tasks, s.downloads.Keys), ActiveIds(s.downloads));
    forall t | t in s.running
      ensures RateExplained(s, t, cap) && (cap >= cfg.limit ==> s.tasks[t].rate.Some?)
    {
      UnlimitedExactlyWhenShareIsZero(cap, s.tasks[t].seenActive);
    }
  }

  // ---------------------------------------------------------------- bytes through the limiters

  /** What one limiter has been through: the bucket it was at some point, and the passes made since. */
  datatype Served = Served(bucket: Bucket, visits: seq<Visit>)

  ghost predicate Plausible(rate: nat, v: Served) {
    0.0 <= v.bucket.tokens <= rate as real && Monotone(v.bucket.last, v.visits)
  }

  ghost predicate AllPlausible(ts: seq<TaskId>, tasks: Tasks, known: set<Id>, served: TaskId -> Served) {
    forall t :: t in ts && Limited(t, tasks, known) ==> Plausible(tasks[t].rate.value, served(t))
  }

  /** The bytes that the limiters of `ts` let through in the window of length `w` from `from`. */
  ghost function BytesIn(ts: seq<TaskId>, tasks: Tasks, known: set<Id>, served: TaskId -> Served, from: real,
                         w: Amount): real
  {
    if ts == [] then 0.0
    else
      var t := ts[|ts| - 1];
      BytesIn(ts[..|ts| - 1], tasks, known, served, from, w)
      + if !Limited(t, tasks, known) then 0.0
        else GrantedIn(tasks[t].rate.value, served(t).bucket, served(t).visits, from, from + w)
  }

  /** What a rate lets through in a window of `w` seconds: a full bucket, and the refill. */
  ghost function Allowance(rate: nat, w: Amount): real {
    rate as real + Earned(rate, w)
  }

  lemma AllowanceIsProduct(rate: nat, w: Amount)
    ensures Allowance(rate, w) == rate as real * (1.0 + w)
  {
    EarnedIsProduct(rate, w);
  }

  lemma AllowancesAdd(a: nat, b: nat, w: Amount)
    ensures Allowance(a + b, w) == Allowance(a, w) + Allowance(b, w) && 0.0 <= Allowance(b, w)
  {
    EarnedSplits(a, b, w);
    EarnedSplits(0, b, w);
  }

  lemma {:induction false} BytesFollowRates(ts: seq<TaskId>, tasks: Tasks, known: set<Id>, served: TaskId -> Served,
                                            from: real, w: Amount)
    requires AllPlausible(ts, tasks, known, served)
    ensures BytesIn(ts, tasks, known, served, from, w) <= Allowance(TotalRate(ts, tasks, known), w)
  {
    if ts != [] {
      var front, t := ts[..|ts| - 1], ts[|ts| - 1];
      BytesFollowRates(front, tasks, known, served, from, w);
      if Limited(t, tasks, known) {
        var rate := tasks[t].rate.value;
        EarnedWindowBound(rate, served(t).bucket, served(t).visits, from, from + w);
        AllowancesAdd(TotalRate(front, tasks, known), rate, w);
        assert from + w - from == w;
      }
    }
  }

  /**
   * The cap as an observer sees it: however the buckets of the running attempts have been used, all of them together let
   * through at most (cap/1 + cap/2 + ... + cap/n) * (1 + w) bytes in any window of w seconds.
   */
  lemma BytesInWindow(cfg: Config, env: Env, db: Table, trace: seq<Sys>, ops: seq<Op>, k: nat, cap: u64,
                      served: TaskId -> Served, from: real, w: Amount)
    requires Life(cfg, env, db, trace, ops) && k < |trace| && cfg.cap == Some(cap)
    requires AllPlausible(trace[k].running, trace[k].tasks, trace[k].downloads.Keys, served)
    ensures var s := trace[k];
            BytesIn(s.running, s.tasks, s.downloads.Keys, served, from, w)
            <= Allowance(SharesUpTo(cap, LimitedCount(s.running, s.tasks, s.downloads.Keys)), w)
  {
    var s := trace[k];
    AggregateBandwidth(cfg, env, db, trace, ops, k, cap);
    BytesBounded(s.running, s.tasks, s.downloads.Keys, served, from, w,
                 SharesUpTo(cap, LimitedCount(s.running, s.tasks, s.downloads.Keys)));
  }

  lemma BytesBounded(ts: seq<TaskId>, tasks: Tasks, known: set<Id>, served: TaskId -> Served, from: real, w: Amount,
                     shares: nat)
    requires AllPlausible(ts, tasks, known, served) && TotalRate(ts, tasks, known) <= shares
    ensures BytesIn(ts, tasks, known, served, from, w) <= Allowance(shares, w)
  {
    BytesFollowRates(ts, tasks, known, served, from, w);
    AllowancesAdd(TotalRate(ts, tasks, known), shares - TotalRate(ts, tasks, known), w);
  }

  // ---------------------------------------------------------------- attempts that come and go

  /** Step `j` hands a download to its backend with a limiter, in task `ops[j].task`. */
  ghost predicate BeginsLimited(trace: seq<Sys>, ops: seq<Op>, j: nat) {
    j < |ops| < |trace| && ops[j].DoTaskBegin? && Limited(ops[j].task, trace[j + 1].tasks, trace[j + 1].downloads.Keys)
  }

  /** The cap, once for each attempt that began with a limiter in the steps from `i` to `k`. */
  ghost function CapsBegun(trace: seq<Sys>, ops: seq<Op>, i: nat, k: nat, cap: nat): nat
    requires i <= k
    decreases k
  {
    if i == k then 0 else CapsBegun(trace, ops, i, k - 1, cap) + if BeginsLimited(trace, ops, k - 1) then cap else 0
  }

  /** What the limiter that step `j` hands out lets through in the window. */
  ghost function BytesOfBegun(trace: seq<Sys>, ops: seq<Op>, j: nat, served: TaskId -> Served, from: real, w: Amount): real {
    if !BeginsLimited(trace, ops, j) then 0.0
    else
      var t := ops[j].task;
      GrantedIn(trace[j + 1].tasks[t].rate.value, served(t).bucket, served(t).visits, from, from + w)
  }

  /** The bytes of all limiters held after step `i` or handed out from there to step `k`, over by then or not. */
  ghost function BytesMeanwhile(trace: seq<Sys>, ops: seq<Op>, i: nat, k: nat, served: TaskId -> Served, from: real,
                                w: Amount): real
    requires i <= k < |trace|
    decreases k
  {
    if i == k then BytesIn(trace[i].running, trace[i].tasks, trace[i].downloads.Keys, served, from, w)
    else BytesMeanwhile(trace, ops, i, k - 1, served, from, w) + BytesOfBegun(trace, ops, k - 1, served, from, w)
  }

  ghost predicate PlausibleWhenBegun(trace: seq<Sys>, ops: seq<Op>, j: nat, served: TaskId -> Served) {
    BeginsLimited(trace, ops, j) ==> Plausible(trace[j + 1].tasks[ops[j].task].rate.value, served(ops[j].task))
  }

  ghost predicate AllPlausibleWhenBegun(trace: seq<Sys>, ops: seq<Op>, i: nat, k: nat, served: TaskId -> Served) {
    forall j :: i <= j < k ==> PlausibleWhenBegun(trace, ops, j, served)
  }

  ghost predicate BegunBounded(trace: seq<Sys>, ops: seq<Op>, j: nat, cap: u64, served: TaskId -> Served, from: real,
                               w: Amount)
  {
    BytesOfBegun(trace, ops, j, served, from, w) <= if BeginsLimited(trace, ops, j) then Allowance(cap, w) else 0.0
  }

  ghost predicate AllBegunBounded(trace: seq<Sys>, ops: seq<Op>, i: nat, k: nat, cap: u64, served: TaskId -> Served,
                                  from: real, w: Amount)
  {
    forall j :: i <= j < k ==> BegunBounded(trace, ops, j, cap, served, from, w)
  }

  lemma RateIsAtMostCap(cfg: Config, s: Sys, t: TaskId, cap: u64)
    requires Safe(cfg, s) && cfg.cap == Some(cap) && Limited(t, s.tasks, s.downloads.Keys)
    ensures s.tasks[t].rate.value <= cap
  {
    QuotientShrinks(cap, 1, s.tasks[t].seenActive);
  }

  lemma BegunIsBounded(cfg: Config, trace: seq<Sys>, ops: seq<Op>, j: nat, cap: u64,
                       served: TaskId -> Served, from: real, w: Amount)
    requires j < |ops| < |trace| && Safe(cfg, trace[j + 1]) && cfg.cap == Some(cap)
    requires PlausibleWhenBegun(trace, ops, j, served)
    ensures BegunBounded(trace, ops, j, cap, served, from, w)
  {
    if BeginsLimited(trace, ops, j) {
      var t := ops[j].task;
      var rate := trace[j + 1].tasks[t].rate.value;
      RateIsAtMostCap(cfg, trace[j + 1], t, cap);
      EarnedWindowBound(rate, served(t).bucket, served(t).visits, from, from + w);
      AllowancesAdd(rate, cap - rate, w);
      assert from + w - from == w;
    }
  }

  lemma {:induction false} MeanwhileBounded(trace: seq<Sys>, ops: seq<Op>, i: nat, k: nat, cap: u64,
                                            served: TaskId -> Served, from: real, w: Amount, shares: nat)
    requires i <= k < |trace|
    requires BytesIn(trace[i].running, trace[i].tasks, trace[i].downloads.Keys, served, from, w) <= Allowance(shares, w)
    requires AllBegunBounded(trace, ops, i, k, cap, served, from, w)
    ensures BytesMeanwhile(trace, ops, i, k, served, from, w) <= Allowance(shares + CapsBegun(trace, ops, i, k, cap), w)
    decreases k
  {
    if i < k {
      MeanwhileBounded(trace, ops, i, k - 1, cap, served, from, w, shares);
      assert BegunBounded(trace, ops, k - 1, cap, served, from, w);
      AllowancesAdd(shares + CapsBegun(trace, ops, i, k - 1, cap), cap, w);
    }
  }

  lemma OneBegunIsBounded(cfg: Config, env: Env, db: Table, trace: seq<Sys>, ops: seq<Op>, j: nat, cap: u64,
                          served: TaskId -> Served, from: real, w: Amount)
    requires Life(cfg, env, db, trace, ops) && j < |ops| && cfg.cap == Some(cap)
    requires PlausibleWhenBegun(trace, ops, j, served)
    ensures BegunBounded(trace, ops, j, cap, served, from, w)
  {
    LifeIsSafe(cfg, env, db, trace, ops, j + 1);
    BegunIsBounded(cfg, trace, ops, j, cap, served, from, w);
  }

  lemma EveryBegunIsBounded(cfg: Config, env: Env, db: Table, trace: seq<Sys>, ops: seq<Op>, i: nat, k: nat, cap: u64,
                            served: TaskId -> Served, from: real, w: Amount)
    requires Life(cfg, env, db, trace, ops) && i <= k < |trace| && cfg.cap == Some(cap)
    requires AllPlausibleWhenBegun(trace, ops, i, k, served)
    ensures AllBegunBounded(trace, ops, i, k, cap, served, from, w)
  {
    forall j | i <= j < k
      ensures BegunBounded(trace, ops, j, cap, served, from, w)
    {
      OneBegunIsBounded(cfg, env, db, trace, ops, j, cap, served, from, w);
    }
  }

  /**
   * The same for a stretch of a run in which attempts come and go: if n limiters are held at its start and m more are
   * handed out, all of them together let through at most (cap/1 + ... + cap/n + m * cap) * (1 + w) bytes in any
   * window of w seconds.
   */
  lemma BytesInStretch(cfg: Config, env: Env, db: Table, trace: seq<Sys>, ops: seq<Op>, i: nat, k: nat, cap: u64,
                       served: TaskId -> Served, from: real, w: Amount)
    requires Life(cfg, env, db, trace, ops) && i <= k < |trace| && cfg.cap == Some(cap)
    requires AllPlausible(trace[i].running, trace[i].tasks, trace[i].downloads.Keys, served)
    requires AllPlausibleWhenBegun(trace, ops, i, k, served)
    ensures var s := trace[i];
            var shares := SharesUpTo(cap, LimitedCount(s.running, s.tasks, s.downloads.Keys));
            BytesMeanwhile(trace, ops, i, k, served, from, w) <= Allowance(shares + CapsBegun(trace, ops, i, k, cap), w)
  {
    var s := trace[i];
    BytesInWindow(cfg, env, db, trace, ops, i, cap, served, from, w);
    EveryBegunIsBounded(cfg, env, db, trace, ops, i, k, cap, served, from, w);
    MeanwhileBounded(trace, ops, i, k, cap, served, from, w,
                     SharesUpTo(cap, LimitedCount(s.running, s.tasks, s.downloads.Keys)));
  }
}
