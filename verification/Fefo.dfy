/**
  internal/repository/billing_settle_sql.go, the temporary-balance lane: window
  functions compute first-expired-first-out withdrawals for a whole pool at once.
  A pool is the list of its positive amounts in expiry order.
 */
module Fefo {
  import opened Arithmetic

  function Sum(a: seq<nat>): nat {
    if a == [] then 0 else a[0] + Sum(a[1..])
  }

  /** The running total of the ROWS frame: everything up to and including row i. */
  function Cumulative(a: seq<nat>, i: nat): nat
    requires i < |a|
  {
    if i == 0 then a[0] else a[0] + Cumulative(a[1..], i - 1)
  }

  /** The `takes` expression of one row; rows past the charge are filtered out and take nothing. */
  function WindowTake(a: seq<nat>, delta: nat, i: nat): int
    requires i < |a|
  {
    var cum := Cumulative(a, i);
    if cum - a[i] >= delta then 0
    else if cum <= delta then a[i]
    else delta - (cum - a[i])
  }

  /** Reference: empty the pool front to back until the charge is paid. */
  function Greedy(a: seq<nat>, delta: nat): (r: seq<nat>)
    ensures |r| == |a|
  {
    if a == [] then []
    else
      var take := Min(a[0], delta);
      [take] + Greedy(a[1..], delta - take)
  }

  /** The set-based statement withdraws exactly what the front-to-back loop would. */
  lemma {:induction false} WindowIsGreedy(a: seq<nat>, delta: nat, i: nat)
    requires i < |a|
    ensures WindowTake(a, delta, i) == Greedy(a, delta)[i]
  {
    if i > 0 {
      var take := Min(a[0], delta);
      CumulativeCovers(a[1..], i - 1);
      WindowIsGreedy(a[1..], delta - take, i - 1);
      assert Greedy(a, delta)[i] == Greedy(a[1..], delta - take)[i - 1];
      assert a[1..][i - 1] == a[i];
    }
  }

  lemma {:induction false} CumulativeCovers(a: seq<nat>, i: nat)
    requires i < |a|
    ensures a[i] <= Cumulative(a, i) <= Sum(a)
  {
    if i > 0 {
      CumulativeCovers(a[1..], i - 1);
    }
  }

  /** What is left of the pool after the withdrawals. */
  function Drain(a: seq<nat>, delta: nat): (r: seq<nat>)
    ensures |r| == |a|
  {
    if a == [] then []
    else
      var take := Min(a[0], delta);
      [a[0] - take] + Drain(a[1..], delta - take)
  }

  /** The pool pays what it can and keeps the rest. */
  lemma {:induction false} PoolPays(a: seq<nat>, delta: nat)
    ensures Sum(Greedy(a, delta)) == Min(delta, Sum(a))
    ensures Sum(Drain(a, delta)) == Sum(a) - Min(delta, Sum(a))
  {
    if a != [] {
      var take := Min(a[0], delta);
      PoolPays(a[1..], delta - take);
      assert Greedy(a, delta)[1..] == Greedy(a[1..], delta - take);
      assert Drain(a, delta)[1..] == Drain(a[1..], delta - take);
    }
  }

  /** No row is overdrawn, and exactly its take leaves it. */
  lemma {:induction false} RowPays(a: seq<nat>, delta: nat, i: nat)
    requires i < |a|
    ensures Greedy(a, delta)[i] <= a[i] && Drain(a, delta)[i] == a[i] - Greedy(a, delta)[i]
  {
    if i > 0 {
      RowPays(a[1..], delta - Min(a[0], delta), i - 1);
    }
  }

  /** First expired, first out: a row is touched only when every earlier one is empty. */
  lemma {:induction false} EarlierFirst(a: seq<nat>, delta: nat, i: nat, j: nat)
    requires i < j < |a| && Greedy(a, delta)[i] < a[i]
    ensures Greedy(a, delta)[j] == 0
  {
    var take := Min(a[0], delta);
    if i > 0 {
      EarlierFirst(a[1..], delta - take, i - 1, j - 1);
    } else {
      GreedyOfZero(a[1..]);
      assert Greedy(a, delta)[j] == Greedy(a[1..], 0)[j - 1];
    }
  }

  lemma {:induction false} GreedyOfZero(a: seq<nat>)
    ensures forall i :: 0 <= i < |a| ==> Greedy(a, 0)[i] == 0
  {
    if a != [] {
      GreedyOfZero(a[1..]);
    }
  }

  /** One pool that is charged in two instalments ends as if charged once. */
  lemma {:induction false} DrainTwice(a: seq<nat>, d1: nat, d2: nat)
    ensures Drain(Drain(a, d1), d2) == Drain(a, d1 + d2)
  {
    if a != [] {
      var t1: nat := Min(a[0], d1);
      var t2: nat := Min(a[0] - t1, d2);
      DrainTwice(a[1..], d1 - t1, d2 - t2);
      var once, rest := Drain(a, d1), Drain(a[1..], d1 - t1);
      assert once[0] == a[0] - t1 && once[1..] == rest;
      assert Drain(once, d2) == [a[0] - t1 - t2] + Drain(rest, d2 - t2);
      assert Min(a[0], d1 + d2) == t1 + t2;
    }
  }

  // ----- Several pools -----

  function SumAll(pools: seq<seq<nat>>): nat {
    if pools == [] then 0 else Sum(pools[0]) + SumAll(pools[1..])
  }

  /** What the pools pay of their parts together. */
  function Drawn(pools: seq<seq<nat>>, parts: seq<nat>): nat
    requires |parts| == |pools|
  {
    if pools == [] then 0 else Min(parts[0], Sum(pools[0])) + Drawn(pools[1..], parts[1..])
  }

  function DrainAll(pools: seq<seq<nat>>, parts: seq<nat>): (r: seq<seq<nat>>)
    requires |parts| == |pools|
    ensures |r| == |pools|
  {
    if pools == [] then [] else [Drain(pools[0], parts[0])] + DrainAll(pools[1..], parts[1..])
  }

  /** Each pool pays its own part: what is drawn is what leaves the pools, and never more than was asked. */
  lemma {:induction false} PoolsPay(pools: seq<seq<nat>>, parts: seq<nat>)
    requires |parts| == |pools|
    ensures SumAll(DrainAll(pools, parts)) == SumAll(pools) - Drawn(pools, parts)
    ensures Drawn(pools, parts) <= Sum(parts)
  {
    if pools != [] {
      PoolPays(pools[0], parts[0]);
      PoolsPay(pools[1..], parts[1..]);
      assert DrainAll(pools, parts)[1..] == DrainAll(pools[1..], parts[1..]);
    }
  }

  lemma {:induction false} SumAppend(a: seq<nat>, n: nat)
    ensures Sum(a + [n]) == Sum(a) + n
  {
    if a != [] {
      SumAppend(a[1..], n);
      assert (a + [n])[1..] == a[1..] + [n];
    }
  }

  lemma {:induction false} DrainNothing(a: seq<nat>)
    ensures Drain(a, 0) == a
  {
    if a != [] {
      DrainNothing(a[1..]);
    }
  }

  lemma {:induction false} DrainNothingAll(pools: seq<seq<nat>>, parts: seq<nat>)
    requires |parts| == |pools| && forall g :: 0 <= g < |parts| ==> parts[g] == 0
    ensures DrainAll(pools, parts) == pools && Drawn(pools, parts) == 0
  {
    if pools != [] {
      DrainNothing(pools[0]);
      DrainNothingAll(pools[1..], parts[1..]);
    }
  }

  /** Nothing can be taken from an exhausted pool. */
  lemma {:induction false} DrainExhausted(a: seq<nat>, delta: nat)
    requires Sum(a) == 0
    ensures Drain(a, delta) == a
  {
    if a != [] {
      DrainExhausted(a[1..], delta);
    }
  }

  function Added(p: seq<nat>, q: seq<nat>): (r: seq<nat>)
    requires |p| == |q|
    ensures |r| == |p|
  {
    if p == [] then [] else [p[0] + q[0]] + Added(p[1..], q[1..])
  }

  /** Several pools, each charged its own part twice. */
  lemma {:induction false} DrainAllTwice(pools: seq<seq<nat>>, p: seq<nat>, q: seq<nat>)
    requires |p| == |q| == |pools|
    ensures DrainAll(DrainAll(pools, p), q) == DrainAll(pools, Added(p, q))
    ensures Drawn(pools, p) + Drawn(DrainAll(pools, p), q) == Drawn(pools, Added(p, q))
  {
    if pools != [] {
      DrainTwice(pools[0], p[0], q[0]);
      PoolPays(pools[0], p[0]);
      DrainAllTwice(pools[1..], p[1..], q[1..]);
      var once := DrainAll(pools, p);
      assert once[0] == Drain(pools[0], p[0]) && once[1..] == DrainAll(pools[1..], p[1..]);
      assert Added(p, q)[0] == p[0] + q[0] && Added(p, q)[1..] == Added(p[1..], q[1..]);
    }
  }

  /** Nothing is drawn exactly when the pools do not change. */
  lemma {:induction false} DrawnNothing(pools: seq<seq<nat>>, parts: seq<nat>)
    requires |parts| == |pools|
    ensures Drawn(pools, parts) == 0 <==> DrainAll(pools, parts) == pools
  {
    PoolsPay(pools, parts);
    if pools != [] && Drawn(pools, parts) == 0 {
      DrawnNothing(pools[1..], parts[1..]);
      if Sum(pools[0]) == 0 {
        DrainExhausted(pools[0], parts[0]);
      } else {
        DrainNothing(pools[0]);
      }
    }
  }
}
