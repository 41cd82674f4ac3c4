/** The FIFO queue of download ids: its list operations, and the object that holds it. */
module Queues {
  import opened Wrappers

  type Id = nat

  ghost predicate NoDup(q: seq<nat>) {
    forall i, j :: 0 <= i < j < |q| ==> q[i] != q[j]
  }

  /** `q` with every occurrence of `x` dropped. */
  function Without(q: seq<nat>, x: nat): (r: seq<nat>)
    ensures forall y :: y in r <==> y in q && y != x
    ensures |r| <= |q| && (|r| < |q| <==> x in q)
    ensures NoDup(q) ==> NoDup(r)
  {
    if q == [] then []
    else
      assert q == [q[0]] + q[1..];
      assert NoDup(q) ==> q[0] !in q[1..];
      if q[0] == x then Without(q[1..], x) else [q[0]] + Without(q[1..], x)
  }

  /** The position of the first occurrence of `x`. */
  function IndexOf(q: seq<nat>, x: nat): (i: nat)
    requires x in q
    ensures i < |q| && q[i] == x && x !in q[..i]
  {
    if q[0] == x then 0 else 1 + IndexOf(q[1..], x)
  }

  lemma Tail(q: seq<nat>)
    requires q != [] && NoDup(q)
    ensures NoDup(q[1..]) && q[0] !in q[1..]
    ensures forall x :: x in q <==> x == q[0] || x in q[1..]
  {}

  lemma FrontOrBack(q: seq<nat>, k: nat, x: nat)
    requires k <= |q|
    ensures x in q <==> x in q[..k] || x in q[k..]
  {}

  lemma {:induction false} WithoutAbsent(q: seq<nat>, x: nat)
    requires x !in q
    ensures Without(q, x) == q
  {
    if q != [] {
      WithoutAbsent(q[1..], x);
    }
  }

  lemma {:induction false} WithoutHead(q: seq<nat>)
    requires q != [] && NoDup(q)
    ensures Without(q, q[0]) == q[1..]
  {
    assert q[0] !in q[1..];
    WithoutAbsent(q[1..], q[0]);
  }

  lemma {:induction false} WithoutSnoc(q: seq<nat>, y: nat, x: nat)
    ensures Without(q + [y], x) == Without(q, x) + (if y == x then [] else [y])
  {
    if q == [] {
      assert q + [y] == [y];
    } else {
      assert (q + [y])[1..] == q[1..] + [y];
      WithoutSnoc(q[1..], y, x);
    }
  }

  /** Dropping one id never moves another one back, and never reorders two others. */
  lemma {:induction false} WithoutKeepsOrder(q: seq<nat>, x: nat, a: nat, b: nat)
    requires a in q && b in q && a != x && b != x
    ensures IndexOf(Without(q, x), a) <= IndexOf(q, a)
    ensures IndexOf(q, a) < IndexOf(q, b) ==> IndexOf(Without(q, x), a) < IndexOf(Without(q, x), b)
  {
    if q[0] == x {
      WithoutKeepsOrder(q[1..], x, a, b);
    } else if q[0] != a && q[0] != b {
      WithoutKeepsOrder(q[1..], x, a, b);
    } else if q[0] != a {
      WithoutKeepsOrder(q[1..], x, a, a);
    } else if q[0] != b {
      WithoutKeepsOrder(q[1..], x, b, b);
    }
  }

  lemma {:induction false} IndexOfPrefix(q: seq<nat>, s: seq<nat>, a: nat)
    requires a in q
    ensures IndexOf(q + s, a) == IndexOf(q, a)
  {
    assert (q + s)[0] == q[0];
    if q[0] != a {
      assert (q + s)[1..] == q[1..] + s;
      IndexOfPrefix(q[1..], s, a);
    }
  }

  lemma {:induction false} IndexOfSuffix(q: seq<nat>, k: nat, a: nat)
    requires NoDup(q) && k <= |q| && a in q[k..]
    ensures a in q && IndexOf(q, a) == k + IndexOf(q[k..], a)
  {}

  class Queue {
    var order: seq<Id>

    constructor ()
      ensures order == []
    {
      order := [];
    }

    method Enqueue(id: Id)
      modifies this
      ensures order == old(order) + [id]
    {
      order := order + [id];
    }

    method Dequeue() returns (front: Option<Id>)
      modifies this
      ensures old(order) == [] ==> front.None? && order == []
      ensures old(order) != [] ==> front == Some(old(order)[0]) && order == old(order)[1..]
    {
      if order == [] {
        front := None;
      } else {
        front := Some(order[0]);
        order := order[1..];
      }
    }

    /** Retains everything but `id`; tells whether `id` was there. */
    method Remove(id: Id) returns (present: bool)
      modifies this
      ensures order == Without(old(order), id)
      ensures present <==> id in old(order)
    {
      var before := |order|;
      var kept: seq<Id> := [];
      for i := 0 to |order|
        invariant order == old(order)
        invariant i <= |order| && kept == Without(order[..i], id)
      {
        assert order[..i + 1] == order[..i] + [order[i]];
        WithoutSnoc(order[..i], order[i], id);
        if order[i] != id {
          kept := kept + [order[i]];
        }
      }
      assert order[..|order|] == order;
      order := kept;
      present := |order| < before;
    }
  }
}
