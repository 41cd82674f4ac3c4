/** The global bandwidth cap, and the token bucket that enforces one download's share of it. */
module Bandwidth {
  import opened Wrappers

  /** One download's share of the cap when `active` downloads are in flight. */
  function PerDownloadBudget(cap: Option<u64>, active: nat): Option<u64> {
    if cap.None? then None else Some(cap.value / if active == 0 then 1 else active)
  }

  /** The rate of the limiter handed to a download, or None when it runs unlimited. */
  function LimiterFor(cap: Option<u64>, active: nat): Option<u64> {
    var budget := PerDownloadBudget(cap, active);
    if budget.Some? && budget.value > 0 then budget else None
  }

  /** cap/1 + cap/2 + ... + cap/n, each quotient rounded down. */
  function SharesUpTo(cap: nat, n: nat): nat {
    if n == 0 then 0 else SharesUpTo(cap, n - 1) + cap / n
  }

  lemma ProductGrows(x: nat, y: nat, a: nat)
    ensures x <= y ==> x * a <= y * a && a * x <= a * y
  {}

  lemma QuotientShrinks(cap: nat, a: nat, b: nat)
    requires 0 < a <= b
    ensures cap / b <= cap / a
  {
    var q, r := cap / b, cap / a;
    assert q * b <= cap < (r + 1) * a;
    ProductGrows(a, b, q);
    ProductGrows(r + 1, q, a);
  }

  /** A capped download still runs unlimited exactly when more downloads are active than bytes are allowed. */
  lemma UnlimitedExactlyWhenShareIsZero(cap: u64, active: nat)
    requires active > 0
    ensures LimiterFor(Some(cap), active).None? <==> cap < active
    ensures LimiterFor(Some(cap), active).Some? ==> 1 <= LimiterFor(Some(cap), active).value <= cap
  {
    if cap >= active {
      QuotientShrinks(cap, active, cap);
      QuotientShrinks(cap, 1, active);
    }
  }

  /** There is no limiter exactly without a cap, or with fewer bytes than active downloads; else it is the whole share. */
  lemma LimiterIsShare(cap: Option<u64>, active: nat)
    requires active > 0
    ensures LimiterFor(cap, active).None? <==> cap.None? || cap.value < active
    ensures LimiterFor(cap, active).Some? ==>
              var rate := LimiterFor(cap, active).value;
              rate > 0 && rate * active <= cap.value < (rate + 1) * active
  {
    if cap.Some? {
      UnlimitedExactlyWhenShareIsZero(cap.value, active);
    }
  }

  // ---------------------------------------------------------------- token bucket

  /** An amount of bytes, with the floating-point numbers of the implementation taken as exact reals. */
  type Amount = x: real | 0.0 <= x

  /** The two mutable fields of a bucket; time is in seconds. */
  datatype Bucket = Bucket(tokens: real, last: real)

  /** One pass of the acquire loop: the clock reading it took, and the bytes it asked for. */
  datatype Visit = Visit(at: real, need: Amount)

  /** What a bucket earns in `t` seconds: `t` times `rate`, added up byte by byte of the rate. */
  function Earned(rate: nat, t: real): real {
    if rate == 0 then 0.0 else Earned(rate - 1, t) + t
  }

  lemma {:induction false} EarnedIsProduct(rate: nat, t: real)
    ensures Earned(rate, t) == t * rate as real
  {
    if rate > 0 {
      EarnedIsProduct(rate - 1, t);
      assert t * rate as real == t * (rate - 1) as real + t;
    }
  }

  lemma {:induction false} EarnedAddsUp(rate: nat, t: real, u: real)
    ensures Earned(rate, t + u) == Earned(rate, t) + Earned(rate, u)
    ensures 0.0 <= t ==> 0.0 <= Earned(rate, t)
    ensures t <= u ==> Earned(rate, t) <= Earned(rate, u)
  {
    if rate > 0 {
      EarnedAddsUp(rate - 1, t, u);
    }
  }

  /** Two rates earn together what they earn apart. */
  lemma {:induction false} EarnedSplits(a: nat, b: nat, t: Amount)
    ensures Earned(a + b, t) == Earned(a, t) + Earned(b, t)
    ensures 0.0 <= Earned(b, t)
  {
    if b > 0 {
      EarnedSplits(a, b - 1, t);
    }
  }

  function Refill(rate: nat, b: Bucket, now: real): Bucket {
    var elapsed := if now >= b.last then now - b.last else 0.0;
    var filled := b.tokens + Earned(rate, elapsed);
    Bucket(if filled > rate as real then rate as real else filled, now)
  }

  /** The refill by one multiplication, as the loop computes it. */
  lemma RefillMultiplies(rate: nat, b: Bucket, now: real)
    ensures var filled := b.tokens + (if now >= b.last then now - b.last else 0.0) * rate as real;
            Refill(rate, b, now) == Bucket(if filled > rate as real then rate as real else filled, now)
  {
    EarnedIsProduct(rate, if now >= b.last then now - b.last else 0.0);
  }

  predicate Grants(rate: nat, b: Bucket, v: Visit) {
    Refill(rate, b, v.at).tokens >= v.need
  }

  /** What one pass hands out. */
  function Taken(rate: nat, b: Bucket, v: Visit): Amount {
    if Grants(rate, b, v) then v.need else 0.0
  }

  /** The bucket after one pass. */
  function Serve(rate: nat, b: Bucket, v: Visit): Bucket {
    var full := Refill(rate, b, v.at);
    if Grants(rate, b, v) then full.(tokens := full.tokens - v.need) else full
  }

  /** The bucket after a sequence of passes. */
  function ServeAll(rate: nat, b: Bucket, vs: seq<Visit>): Bucket
    decreases |vs|
  {
    if vs == [] then b else ServeAll(rate, Serve(rate, b, vs[0]), vs[1..])
  }

  /** How long a refused pass sleeps. */
  function SleepFor(rate: nat, b: Bucket, v: Visit): real
    requires rate > 0
  {
    (v.need - Refill(rate, b, v.at).tokens) / rate as real
  }

  /** Bytes granted at clock readings in [from, to]. */
  function GrantedIn(rate: nat, b: Bucket, vs: seq<Visit>, from: real, to: real): Amount
    decreases |vs|
  {
    if vs == [] then 0.0
    else
      (if from <= vs[0].at <= to then Taken(rate, b, vs[0]) else 0.0)
      + GrantedIn(rate, Serve(rate, b, vs[0]), vs[1..], from, to)
  }

  /** Clock readings never go back. */
  ghost predicate Monotone(start: real, vs: seq<Visit>) {
    && (forall i :: 0 <= i < |vs| ==> start <= vs[i].at)
    && (forall i, j :: 0 <= i < j < |vs| ==> vs[i].at <= vs[j].at)
  }

  /** One pass keeps the balance in range, and hands out no more than the burst, nor than what was there plus the refill. */
  lemma ServeBound(rate: nat, b: Bucket, v: Visit)
    requires 0.0 <= b.tokens <= rate as real && b.last <= v.at
    ensures 0.0 <= Serve(rate, b, v).tokens && Serve(rate, b, v).last == v.at
    ensures Serve(rate, b, v).tokens + Taken(rate, b, v) <= rate as real
    ensures Serve(rate, b, v).tokens + Taken(rate, b, v) <= b.tokens + Earned(rate, v.at - b.last)
  {
    EarnedAddsUp(rate, v.at - b.last, 0.0);
  }

  /** The balance never leaves [0, rate]. */
  lemma {:induction false} TokensStayInRange(rate: nat, b: Bucket, vs: seq<Visit>)
    requires 0.0 <= b.tokens <= rate as real && Monotone(b.last, vs)
    ensures 0.0 <= ServeAll(rate, b, vs).tokens <= rate as real
    decreases |vs|
  {
    if vs != [] {
      ServeBound(rate, b, vs[0]);
      MonotoneTail(b.last, vs);
      TokensStayInRange(rate, Serve(rate, b, vs[0]), vs[1..]);
    }
  }

  lemma MonotoneTail(start: real, vs: seq<Visit>)
    requires vs != [] && Monotone(start, vs)
    ensures Monotone(vs[0].at, vs[1..])
  {}

  /** Once inside the window, at most what is left now plus the refill until its end can still be granted. */
  lemma {:induction false} RestOfWindow(rate: nat, b: Bucket, vs: seq<Visit>, from: real, to: real)
    requires 0.0 <= b.tokens <= rate as real && Monotone(b.last, vs) && b.last <= to
    ensures GrantedIn(rate, b, vs, from, to) <= b.tokens + Earned(rate, to - b.last)
    decreases |vs|
  {
    EarnedAddsUp(rate, to - b.last, 0.0);
    if vs != [] {
      var v := vs[0];
      if v.at > to {
        NothingAfter(rate, b, vs, from, to);
      } else {
        ServeBound(rate, b, v);
        MonotoneTail(b.last, vs);
        RestOfWindow(rate, Serve(rate, b, v), vs[1..], from, to);
        EarnedAddsUp(rate, v.at - b.last, to - v.at);
        assert (v.at - b.last) + (to - v.at) == to - b.last;
      }
    }
  }

  lemma {:induction false} NothingAfter(rate: nat, b: Bucket, vs: seq<Visit>, from: real, to: real)
    requires forall i :: 0 <= i < |vs| ==> to < vs[i].at
    ensures GrantedIn(rate, b, vs, from, to) == 0.0
    decreases |vs|
  {
    if vs != [] {
      NothingAfter(rate, Serve(rate, b, vs[0]), vs[1..], from, to);
    }
  }

  /** The same bound, with the refill added up. */
  lemma {:induction false} EarnedWindowBound(rate: nat, b: Bucket, vs: seq<Visit>, from: real, to: real)
    requires 0.0 <= b.tokens <= rate as real && Monotone(b.last, vs) && from <= to
    ensures GrantedIn(rate, b, vs, from, to) <= rate as real + Earned(rate, to - from)
    decreases |vs|
  {
    EarnedAddsUp(rate, to - from, 0.0);
    if vs != [] {
      var v := vs[0];
      ServeBound(rate, b, v);
      MonotoneTail(b.last, vs);
      if v.at < from {
        EarnedWindowBound(rate, Serve(rate, b, v), vs[1..], from, to);
      } else if v.at > to {
        NothingAfter(rate, b, vs, from, to);
      } else {
        RestOfWindow(rate, Serve(rate, b, v), vs[1..], from, to);
        EarnedAddsUp(rate, to - v.at, to - from);
      }
    }
  }

  /** The window bound: any window of length t lets through at most rate + rate * t bytes. */
  lemma WindowBound(rate: nat, b: Bucket, vs: seq<Visit>, from: real, t: Amount)
    requires 0.0 <= b.tokens <= rate as real && Monotone(b.last, vs)
    ensures GrantedIn(rate, b, vs, from, from + t) <= rate as real + t * rate as real
  {
    EarnedWindowBound(rate, b, vs, from, from + t);
    EarnedIsProduct(rate, t);
    assert from + t - from == t;
  }

  lemma {:induction false} ServeAllConcat(rate: nat, b: Bucket, vs: seq<Visit>, ws: seq<Visit>)
    ensures ServeAll(rate, b, vs + ws) == ServeAll(rate, ServeAll(rate, b, vs), ws)
    decreases |vs|
  {
    if vs == [] {
      assert vs + ws == ws;
    } else {
      assert (vs + ws)[1..] == vs[1..] + ws;
      ServeAllConcat(rate, Serve(rate, b, vs[0]), vs[1..], ws);
    }
  }

  // ---------------------------------------------------------------- one acquire call

  /** One acquire call: the bucket it leaves, the passes it made, and whether it returned. */
  datatype Call = Call(end: Bucket, made: seq<Visit>, returned: bool)

  /** The call on a given supply of clock readings, one for each pass; it may still be asleep after the last. */
  function Acquiring(rate: nat, b: Bucket, need: Amount, clock: seq<real>): Call
    decreases |clock|
  {
    if rate == 0 then Call(b, [], true)
    else if clock == [] then Call(b, [], false)
    else
      var v := Visit(clock[0], need);
      if Grants(rate, b, v) then Call(Serve(rate, b, v), [v], true)
      else
        var rest := Acquiring(rate, Serve(rate, b, v), need, clock[1..]);
        rest.(made := [v] + rest.made)
  }

  /** A call is nothing but its passes: it leaves the bucket they leave, one reading each, only the last granted. */
  lemma {:induction false} CallIsItsPasses(rate: nat, b: Bucket, need: Amount, clock: seq<real>)
    ensures var c := Acquiring(rate, b, need, clock);
            && c.end == ServeAll(rate, b, c.made)
            && |c.made| <= |clock|
            && (forall k :: 0 <= k < |c.made| ==> c.made[k] == Visit(clock[k], need))
            && (forall k :: 0 <= k < |c.made| ==>
                  (Grants(rate, ServeAll(rate, b, c.made[..k]), c.made[k]) <==> c.returned && k == |c.made| - 1))
            && (!c.returned ==> |c.made| == |clock|)
            && (c.returned && rate > 0 ==> c.made != [])
    decreases |clock|
  {
    if rate != 0 && clock != [] {
      var v := Visit(clock[0], need);
      var c := Acquiring(rate, b, need, clock);
      if !Grants(rate, b, v) {
        var rest := Acquiring(rate, Serve(rate, b, v), need, clock[1..]);
        CallIsItsPasses(rate, Serve(rate, b, v), need, clock[1..]);
        OnePassMore(rate, b, v, rest, c);
      }
    }
  }

  lemma OnePassMore(rate: nat, b: Bucket, v: Visit, rest: Call, c: Call)
    requires !Grants(rate, b, v) && c == rest.(made := [v] + rest.made)
    requires rest.end == ServeAll(rate, Serve(rate, b, v), rest.made)
    requires forall k :: 0 <= k < |rest.made| ==>
               (Grants(rate, ServeAll(rate, Serve(rate, b, v), rest.made[..k]), rest.made[k])
                <==> rest.returned && k == |rest.made| - 1)
    requires rest.returned ==> rest.made != []
    ensures c.end == ServeAll(rate, b, c.made)
    ensures forall k :: 0 <= k < |c.made| ==>
              (Grants(rate, ServeAll(rate, b, c.made[..k]), c.made[k]) <==> c.returned && k == |c.made| - 1)
  {
    assert c.made[1..] == rest.made;
    forall k | 0 < k < |c.made|
      ensures Grants(rate, ServeAll(rate, b, c.made[..k]), c.made[k]) <==> c.returned && k == |c.made| - 1
    {
      assert c.made[..k][1..] == rest.made[..k - 1] && c.made[k] == rest.made[k - 1];
    }
  }

  /** After a refused first pass, the second reading is at least the requested sleep later. */
  predicate SleepsHonoured(rate: nat, b: Bucket, need: Amount, clock: seq<real>)
    requires rate > 0 && |clock| >= 2
  {
    var v := Visit(clock[0], need);
    Grants(rate, b, v) || clock[1] >= clock[0] + SleepFor(rate, b, v)
  }

  /** The sleep asked for is the least that helps: a second look is granted exactly when it comes no sooner. */
  lemma SleepIsLeast(rate: nat, b: Bucket, v: Visit, t: Amount)
    requires 0.0 < v.need <= rate as real && !Grants(rate, b, v)
    ensures SleepFor(rate, b, v) > 0.0
    ensures Grants(rate, Serve(rate, b, v), Visit(v.at + t, v.need)) <==> t >= SleepFor(rate, b, v)
  {
    var full, sleep := Refill(rate, b, v.at), SleepFor(rate, b, v);
    assert Serve(rate, b, v) == full && full.last == v.at;
    EarnedIsProduct(rate, sleep);
    assert Earned(rate, sleep) == v.need - full.tokens > 0.0;
    if t >= sleep {
      EarnedAddsUp(rate, sleep, t);
    } else {
      EarnsLess(rate, t, sleep);
    }
  }

  lemma {:induction false} EarnsLess(rate: nat, t: real, u: real)
    requires rate > 0 && t < u
    ensures Earned(rate, t) < Earned(rate, u)
  {
    if rate > 1 {
      EarnsLess(rate - 1, t, u);
    }
  }

  lemma {:induction false} OversizedNeverReturns(rate: nat, b: Bucket, need: Amount, clock: seq<real>)
    requires 0.0 < rate as real < need
    ensures !Acquiring(rate, b, need, clock).returned && |Acquiring(rate, b, need, clock).made| == |clock|
    decreases |clock|
  {
    if clock != [] {
      OversizedNeverReturns(rate, Serve(rate, b, Visit(clock[0], need)), need, clock[1..]);
    }
  }

  /**
   * With sleeps that are honoured, a call returns exactly when it asks for at most `rate` bytes,
   * and then no later than its second pass.
   */
  lemma ReturnsExactlyWhenItFits(rate: nat, b: Bucket, need: Amount, clock: seq<real>)
    requires rate > 0 && |clock| >= 2 && SleepsHonoured(rate, b, need, clock)
    ensures Acquiring(rate, b, need, clock).returned <==> need <= rate as real
    ensures need <= rate as real ==> |Acquiring(rate, b, need, clock).made| <= 2
  {
    if need > rate as real {
      OversizedNeverReturns(rate, b, need, clock);
    } else {
      var v, w := Visit(clock[0], need), Visit(clock[1], need);
      if !Grants(rate, b, v) {
        var full := Refill(rate, b, v.at);
        var sleep := SleepFor(rate, b, v);
        EarnedIsProduct(rate, sleep);
        assert Earned(rate, sleep) == need - full.tokens;
        EarnedAddsUp(rate, sleep, w.at - v.at);
        assert Serve(rate, b, v) == full && Grants(rate, full, w);
        assert clock[1..][0] == clock[1];
      }
    }
  }

  lemma FirstPass(rate: nat, b: Bucket, need: Amount, clock: seq<real>, i: nat)
    requires rate > 0 && i < |clock|
    ensures var v := Visit(clock[i], need);
            Acquiring(rate, b, need, clock[i..]) ==
            if Grants(rate, b, v) then Call(Serve(rate, b, v), [v], true)
            else
              var rest := Acquiring(rate, Serve(rate, b, v), need, clock[i + 1..]);
              rest.(made := [v] + rest.made)
  {}

  /** Each refused pass asked for exactly the sleep it needs. */
  ghost predicate AsksLeast(rate: nat, b: Bucket, made: seq<Visit>, sleeps: seq<real>)
    requires rate > 0
  {
    |sleeps| <= |made| && forall k :: 0 <= k < |sleeps| ==> sleeps[k] == SleepFor(rate, ServeAll(rate, b, made[..k]), made[k])
  }

  lemma OneMoreAsked(rate: nat, b: Bucket, made: seq<Visit>, sleeps: seq<real>, v: Visit, sleep: real)
    requires rate > 0 && AsksLeast(rate, b, made, sleeps) && |sleeps| == |made|
    ensures ServeAll(rate, b, made + [v]) == Serve(rate, ServeAll(rate, b, made), v)
    ensures AsksLeast(rate, b, made + [v], sleeps)
    ensures sleep == SleepFor(rate, ServeAll(rate, b, made), v) ==> AsksLeast(rate, b, made + [v], sleeps + [sleep])
  {
    ServeAllConcat(rate, b, made, [v]);
    assert (made + [v])[..|made|] == made;
    assert forall k :: 0 <= k < |made| ==> (made + [v])[..k] == made[..k];
  }

  /** A call after `i` refused passes, `made`, with the sleeps asked for; `now` is the bucket, and the rest is to come. */
  ghost predicate Refused(rate: nat, b: Bucket, need: Amount, clock: seq<real>, i: nat, now: Bucket, made: seq<Visit>,
                          sleeps: seq<real>)
    requires rate > 0
  {
    && i <= |clock| && |sleeps| == |made| == i
    && now == ServeAll(rate, b, made) && AsksLeast(rate, b, made, sleeps)
    && Continued(rate, b, need, clock, i, now, made)
  }

  /** The whole call is the passes made, and then what is still to come from the `i`-th reading on. */
  predicate Continued(rate: nat, b: Bucket, need: Amount, clock: seq<real>, i: nat, now: Bucket, made: seq<Visit>)
    requires i <= |clock|
  {
    var rest := Acquiring(rate, now, need, clock[i..]);
    Acquiring(rate, b, need, clock) == rest.(made := made + rest.made)
  }

  lemma ContinuedOnePass(rate: nat, b: Bucket, need: Amount, clock: seq<real>, i: nat, now: Bucket, made: seq<Visit>)
    requires rate > 0 && i < |clock| && Continued(rate, b, need, clock, i, now, made)
    ensures var v := Visit(clock[i], need);
            if Grants(rate, now, v) then Acquiring(rate, b, need, clock) == Call(Serve(rate, now, v), made + [v], true)
            else Continued(rate, b, need, clock, i + 1, Serve(rate, now, v), made + [v])
  {
    var v := Visit(clock[i], need);
    FirstPass(rate, now, need, clock, i);
    var rest := Acquiring(rate, Serve(rate, now, v), need, clock[i + 1..]);
    assert made + ([v] + rest.made) == made + [v] + rest.made;
  }

  /** One more pass ends the call, or is one more refusal. */
  lemma PassRefused(rate: nat, b: Bucket, need: Amount, clock: seq<real>, i: nat, now: Bucket, made: seq<Visit>,
                    sleeps: seq<real>, sleep: real)
    requires rate > 0 && i < |clock| && Refused(rate, b, need, clock, i, now, made, sleeps)
    ensures var v := Visit(clock[i], need);
            if Grants(rate, now, v)
            then Acquiring(rate, b, need, clock) == Call(Serve(rate, now, v), made + [v], true)
                 && AsksLeast(rate, b, made + [v], sleeps)
            else sleep == SleepFor(rate, now, v) ==>
                   Refused(rate, b, need, clock, i + 1, Serve(rate, now, v), made + [v], sleeps + [sleep])
  {
    ContinuedOnePass(rate, b, need, clock, i, now, made);
    OneMoreAsked(rate, b, made, sleeps, Visit(clock[i], need), sleep);
  }

  class TokenBucket {
    const rate: u64
    var tokens: real
    var last: real
    ghost const born: real
    ghost var visits: seq<Visit>

    /** The balance is what the recorded passes leave of a bucket that started full. */
    ghost predicate Valid()
      reads this
    {
      Bucket(tokens, last) == ServeAll(rate, Bucket(rate as real, born), visits)
    }

    constructor (bytesPerSec: u64, now: real)
      ensures Valid() && rate == bytesPerSec && born == now && visits == [] && tokens == bytesPerSec as real
    {
      rate := bytesPerSec;
      tokens := bytesPerSec as real;
      last := now;
      born := now;
      visits := [];
    }

    /** The body of one pass: refill up to the cap, then take `need` bytes or say how long to sleep. */
    method Pass(need: Amount, now: real) returns (granted: bool, sleep: real)
      requires rate > 0
      modifies `tokens, `last
      ensures granted == Grants(rate, old(Bucket(tokens, last)), Visit(now, need))
      ensures Bucket(tokens, last) == Serve(rate, old(Bucket(tokens, last)), Visit(now, need))
      ensures !granted ==> sleep == SleepFor(rate, old(Bucket(tokens, last)), Visit(now, need))
    {
      var elapsed := if now >= last then now - last else 0.0;
      RefillMultiplies(rate, Bucket(tokens, last), now);
      last := now;
      tokens := tokens + elapsed * rate as real;
      if tokens > rate as real {
        tokens := rate as real;
      }
      granted := tokens >= need;
      sleep := 0.0;
      if granted {
        tokens := tokens - need;
      } else {
        sleep := (need - tokens) / rate as real;
      }
    }

    /** The acquire loop, on a supply of clock readings. */
    method Loop(need: Amount, clock: seq<real>) returns (returned: bool, sleeps: seq<real>, ghost made: seq<Visit>)
      requires rate > 0
      modifies `tokens, `last
      ensures Acquiring(rate, old(Bucket(tokens, last)), need, clock) == Call(Bucket(tokens, last), made, returned)
      ensures |sleeps| == |made| - if returned then 1 else 0
      ensures AsksLeast(rate, old(Bucket(tokens, last)), made, sleeps)
    {
      ghost var b := Bucket(tokens, last);
      sleeps, made := [], [];
      assert clock[0..] == clock;
      for i := 0 to |clock|
        invariant Refused(rate, b, need, clock, i, Bucket(tokens, last), made, sleeps)
      {
        ghost var now := Bucket(tokens, last);
        var granted, sleep := Pass(need, clock[i]);
        PassRefused(rate, b, need, clock, i, now, made, sleeps, sleep);
        made := made + [Visit(clock[i], need)];
        if granted {
          return true, sleeps, made;
        }
        sleeps := sleeps + [sleep];
      }
      returned := false;
    }

    /**
     * Waits for `bytes` and takes them. `clock` supplies the readings of successive passes;
     * `returned` is false when the call is still asleep after the last of them.
     */
    method Acquire(bytes: u64, clock: seq<real>) returns (returned: bool, sleeps: seq<real>)
      requires Valid()
      modifies this
      ensures Valid()
      ensures returned == Acquiring(rate, old(Bucket(tokens, last)), bytes as real, clock).returned
      ensures Bucket(tokens, last) == Acquiring(rate, old(Bucket(tokens, last)), bytes as real, clock).end
      ensures visits == old(visits) + Acquiring(rate, old(Bucket(tokens, last)), bytes as real, clock).made
      ensures |sleeps| == |visits| - |old(visits)| - if returned && rate > 0 then 1 else 0
      ensures rate > 0 ==> AsksLeast(rate, old(Bucket(tokens, last)), visits[|old(visits)|..], sleeps)
    {
      if rate == 0 {
        return true, [];
      }
      ghost var made;
      CallIsItsPasses(rate, Bucket(tokens, last), bytes as real, clock);
      returned, sleeps, made := Loop(bytes as real, clock);
      ServeAllConcat(rate, Bucket(rate as real, born), visits, made);
      ghost var was := visits;
      visits := visits + made;
      assert visits[|was|..] == made;
    }
  }
}
