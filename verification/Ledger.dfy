/**
  The billing ledger: usage rows, user funds, and the statements of
  internal/repository/billing_cursor.go and billing_settle.go over them.
 */
module Ledger {
  import opened Arithmetic
  import Fefo
  import Marker

  /**
    A usage_logs row; its id is its position. `charges` counts how often money was
    taken for it and `uncharged` says it left the cursor without a deduction
    (born absorbed, swept, ghost user or quarantined): both are history.
   */
  datatype Row = Row(user: nat, group: Option<nat>, cost: int, tier: string, billable: bool, billed: bool,
                     uncharged: bool, charges: nat)

  /**
    Main balance, and temporary balances in expiry order: the user's global pool,
    and one pool for each group the user has scoped grants in (groups are numbered).
   */
  datatype Account = Account(balance: int, temp: seq<nat>, scoped: seq<seq<nat>>) {
    function Funds(): int { balance + Fefo.Sum(temp) + Fefo.SumAll(scoped) }
  }

  datatype Db = Db(rows: seq<Row>, accounts: map<nat, Account>)

  datatype Lane = BalanceLane | TempLane

  /** Some temporary balance may pay for the row: a global one, or one scoped to its group. */
  predicate TempActive(db: Db, r: Row) {
    r.user in db.accounts &&
      var a := db.accounts[r.user];
      Fefo.Sum(a.temp) > 0 || (r.group.Some? && r.group.value < |a.scoped| && Fefo.Sum(a.scoped[r.group.value]) > 0)
  }

  /** The batch predicate of a lane and bucket. */
  predicate Settleable(db: Db, lane: Lane, k: nat, bucket: nat, i: nat)
    requires k > 0
  {
    && i < |db.rows| && !db.rows[i].billed && db.rows[i].billable && db.rows[i].cost > 0
    && db.rows[i].user % k == bucket && (lane == TempLane <==> TempActive(db, db.rows[i]))
  }

  /** ORDER BY id LIMIT n: the first flagged positions from `from` on. */
  function First(flags: seq<bool>, limit: nat, from: nat): (ids: set<nat>)
    ensures |ids| <= limit
    ensures forall i :: i in ids ==> from <= i < |flags| && flags[i]
    decreases |flags| - from
  {
    if from >= |flags| || limit == 0 then {}
    else if flags[from] then {from} + First(flags, limit - 1, from + 1)
    else First(flags, limit, from + 1)
  }

  lemma FirstTakes(flags: seq<bool>, limit: nat, from: nat)
    requires from < |flags| && flags[from] && limit > 0
    ensures var all, rest := First(flags, limit, from), First(flags, limit - 1, from + 1);
            all == {from} + rest && |all| == |rest| + 1
  {
    var rest := First(flags, limit - 1, from + 1);
    assert from !in rest;
  }

  /** Nothing is skipped: a flagged position left out comes after a full batch. */
  lemma {:induction false} FirstIsFirst(flags: seq<bool>, limit: nat, from: nat, j: nat)
    requires from <= j < |flags| && flags[j] && j !in First(flags, limit, from)
    ensures |First(flags, limit, from)| == limit
    ensures forall i :: i in First(flags, limit, from) ==> i < j
    decreases |flags| - from
  {
    if limit > 0 {
      if flags[from] {
        FirstTakes(flags, limit, from);
        FirstIsFirst(flags, limit - 1, from + 1, j);
      } else {
        FirstIsFirst(flags, limit, from + 1, j);
      }
    }
  }

  function Flags(db: Db, lane: Lane, k: nat, bucket: nat): (r: seq<bool>)
    requires k > 0
    ensures |r| == |db.rows| && forall i :: 0 <= i < |r| ==> r[i] == Settleable(db, lane, k, bucket, i)
  {
    seq(|db.rows|, i requires 0 <= i < |db.rows| => Settleable(db, lane, k, bucket, i))
  }

  /** The batch of a settlement statement. */
  function Batch(db: Db, lane: Lane, k: nat, bucket: nat, limit: nat): (ids: set<nat>)
    requires k > 0
    ensures |ids| <= limit
    ensures forall i :: i in ids ==> i < |db.rows| && Settleable(db, lane, k, bucket, i)
  {
    First(Flags(db, lane, k, bucket), limit, 0)
  }

  /** A row that still waits to be charged. */
  predicate Open(r: Row) { r.billable && !r.billed && r.cost > 0 }

  /** The temporary funds that may pay for a row: its user's global pool and the pool of its own group. */
  function TempFunds(db: Db, r: Row): nat {
    if r.user !in db.accounts then 0
    else
      var a := db.accounts[r.user];
      Fefo.Sum(a.temp) + if r.group.Some? && r.group.value < |a.scoped| then Fefo.Sum(a.scoped[r.group.value]) else 0
  }

  /** The one lane that settles a row. */
  function LaneOf(db: Db, r: Row): Lane { if TempFunds(db, r) > 0 then TempLane else BalanceLane }

  lemma {:induction false} FirstTakesAll(flags: seq<bool>, limit: nat, from: nat, j: nat)
    requires from <= j < |flags| && flags[j] && limit >= |flags| - from
    ensures j in First(flags, limit, from)
    decreases |flags| - from
  {
    if from < j {
      FirstTakesAll(flags, if flags[from] then limit - 1 else limit, from + 1, j);
    }
  }

  /** Every open row belongs to exactly one lane and one bucket, and no other row belongs to any. */
  lemma OneLaneOneBucket(db: Db, lane: Lane, k: nat, b: nat, i: nat)
    requires k > 0 && i < |db.rows|
    ensures i in Batch(db, lane, k, b, |db.rows|)
       <==> Open(db.rows[i]) && lane == LaneOf(db, db.rows[i]) && b == db.rows[i].user % k
  {
    if Settleable(db, lane, k, b, i) {
      FirstTakesAll(Flags(db, lane, k, b), |db.rows|, 0, i);
    }
  }

  /** A batch holds open rows of its own lane and bucket only, and skips none: what it leaves out comes later. */
  lemma BatchHolds(db: Db, lane: Lane, k: nat, b: nat, limit: nat, i: nat)
    requires k > 0 && i < |db.rows|
    ensures var own := Open(db.rows[i]) && lane == LaneOf(db, db.rows[i]) && b == db.rows[i].user % k;
            var ids := Batch(db, lane, k, b, limit);
            && (i in ids ==> own)
            && (own && i !in ids ==> |ids| == limit && forall j :: j in ids ==> j < i)
  {
    if Settleable(db, lane, k, b, i) && i !in Batch(db, lane, k, b, limit) {
      FirstIsFirst(Flags(db, lane, k, b), limit, 0, i);
    }
  }

  /** What the rows in ids cost user u together. */
  function Total(rows: seq<Row>, ids: set<nat>, u: nat): int {
    if rows == [] then 0
    else
      var n := |rows| - 1;
      Total(rows[..n], ids, u) + if n in ids && rows[n].user == u then rows[n].cost else 0
  }

  /** Everything user u has been charged, read off the rows. */
  function ChargedSum(rows: seq<Row>, u: nat): int {
    if rows == [] then 0
    else
      var n := |rows| - 1;
      ChargedSum(rows[..n], u) + if Charged(rows[n]) && rows[n].user == u then rows[n].cost else 0
  }

  predicate Charged(r: Row) { r.billed && !r.uncharged && r.cost > 0 }

  /**
    The money movement of one user. While the user has global temporary funds the whole charge goes
    there first; otherwise each group's part goes to that group's pool. The balance pays the rest.
   */
  function Charge(a: Account, total: nat, parts: seq<nat>, lane: Lane): (r: Account)
    requires |parts| == |a.scoped|
    ensures r.Funds() == a.Funds() - total && |r.scoped| == |a.scoped|
  {
    Fefo.PoolPays(a.temp, total);
    Fefo.PoolsPay(a.scoped, parts);
    if lane == BalanceLane then a.(balance := a.balance - total)
    else if Fefo.Sum(a.temp) > 0
    then a.(balance := a.balance - (total - Min(total, Fefo.Sum(a.temp))), temp := Fefo.Drain(a.temp, total))
    else a.(balance := a.balance - (total - Fefo.Drawn(a.scoped, parts)), scoped := Fefo.DrainAll(a.scoped, parts))
  }

  lemma {:induction false} EachPoolPays(pools: seq<seq<nat>>, parts: seq<nat>, g: nat)
    requires |parts| == |pools| && g < |pools|
    ensures Fefo.Sum(Fefo.DrainAll(pools, parts)[g]) == Fefo.Sum(pools[g]) - Min(parts[g], Fefo.Sum(pools[g]))
  {
    if g == 0 {
      Fefo.PoolPays(pools[0], parts[0]);
    } else {
      EachPoolPays(pools[1..], parts[1..], g - 1);
    }
  }

  /**
    Who pays: the balance lane leaves temporary funds alone; the temporary lane empties the global pool first and
    then leaves the groups' pools alone; without global funds each group's pool pays that group's part.
   */
  lemma WhoPays(a: Account, total: nat, parts: seq<nat>, lane: Lane)
    requires |parts| == |a.scoped|
    ensures var r := Charge(a, total, parts, lane);
            && (lane == BalanceLane ==> r.temp == a.temp && r.scoped == a.scoped && r.balance == a.balance - total)
            && (lane == TempLane && Fefo.Sum(a.temp) > 0 ==>
                  && Fefo.Sum(r.temp) == Max(Fefo.Sum(a.temp) - total, 0) && r.scoped == a.scoped
                  && r.balance == a.balance - Max(total - Fefo.Sum(a.temp), 0))
            && (lane == TempLane && Fefo.Sum(a.temp) == 0 ==>
                  && r.temp == a.temp && |r.scoped| == |a.scoped|
                  && forall g :: 0 <= g < |parts| ==>
                       Fefo.Sum(r.scoped[g]) == Max(Fefo.Sum(a.scoped[g]) - parts[g], 0))
  {
    Fefo.PoolPays(a.temp, total);
    forall g | 0 <= g < |parts|
      ensures Fefo.Sum(Fefo.DrainAll(a.scoped, parts)[g]) == Max(Fefo.Sum(a.scoped[g]) - parts[g], 0)
    {
      EachPoolPays(a.scoped, parts, g);
    }
  }

  lemma GlobalTwice(a: Account, t1: nat, p1: seq<nat>, t2: nat, p2: seq<nat>)
    requires |p1| == |p2| == |a.scoped| && Fefo.Sum(a.temp) > 0
    ensures var a1 := Charge(a, t1, p1, TempLane);
            && Fefo.Sum(a1.temp) == Fefo.Sum(a.temp) - Min(t1, Fefo.Sum(a.temp))
            && Fefo.Drain(a1.temp, t2) == Fefo.Drain(a.temp, t1 + t2)
            && (Fefo.Sum(a1.temp) == 0 ==> a1.temp == Fefo.Drain(a.temp, t1 + t2))
  {
    Fefo.PoolPays(a.temp, t1);
    Fefo.DrainTwice(a.temp, t1, t2);
    if Fefo.Sum(Fefo.Drain(a.temp, t1)) == 0 {
      Fefo.DrainExhausted(Fefo.Drain(a.temp, t1), t2);
    }
  }

  /**
    Charging a user in two windows instead of one comes to the same if and only if the user has no global
    temporary funds, or the first window leaves some, or the second finds nothing in the groups' pools.
    Otherwise the second window draws on a group's pool what one window would have put on the balance.
   */
  lemma ChargeTwiceIff(a: Account, t1: nat, p1: seq<nat>, t2: nat, p2: seq<nat>)
    requires |p1| == |p2| == |a.scoped|
    ensures Charge(Charge(a, t1, p1, TempLane), t2, p2, TempLane) == Charge(a, t1 + t2, Fefo.Added(p1, p2), TempLane)
       <==> Fefo.Sum(a.temp) == 0 || t1 < Fefo.Sum(a.temp) || Fefo.Drawn(a.scoped, p2) == 0
  {
    if Fefo.Sum(a.temp) > 0 {
      GlobalTwice(a, t1, p1, t2, p2);
      Fefo.DrawnNothing(a.scoped, p2);
    } else {
      Fefo.DrainAllTwice(a.scoped, p1, p2);
    }
  }

  /** The balance lane adds up in any case. */
  lemma BalanceTwice(a: Account, t1: nat, p1: seq<nat>, t2: nat, p2: seq<nat>)
    requires |p1| == |p2| == |a.scoped|
    ensures Charge(Charge(a, t1, p1, BalanceLane), t2, p2, BalanceLane)
            == Charge(a, t1 + t2, Fefo.Added(p1, p2), BalanceLane)
  {
  }

  /** 15 owed, 5 in the global pool, 100 in a group's: two windows leave the balance alone, one overdraws it. */
  lemma WindowSizeMatters()
    ensures var a := Account(0, [5], [[100]]);
            && Charge(Charge(a, 5, [5], TempLane), 10, [10], TempLane).balance == 0
            && Charge(a, 15, [15], TempLane).balance == -10
  {
    var a := Account(0, [5], [[100]]);
    assert Fefo.Sum(a.temp) == 5;
    GlobalTwice(a, 5, [5], 10, [10]);
    assert Fefo.Sum(a.scoped[0]) == 100;
  }

  function SettleRow(r: Row, known: bool): Row {
    r.(billed := true, uncharged := !known, charges := r.charges + if known then 1 else 0)
  }

  function SettleRows(rows: seq<Row>, ids: set<nat>, users: set<nat>): (r: seq<Row>)
    ensures |r| == |rows|
  {
    seq(|rows|, i requires 0 <= i < |rows| => if i in ids then SettleRow(rows[i], rows[i].user in users) else rows[i])
  }

  /** A delta that is never negative: rows of a batch have positive costs. */
  function Owed(rows: seq<Row>, ids: set<nat>, u: nat): nat { Max(Total(rows, ids, u), 0) }

  function InGroup(rows: seq<Row>, ids: set<nat>, g: nat): set<nat> {
    set i | i in ids && i < |rows| && rows[i].group == Some(g)
  }

  /** The same per group, for the first n groups. */
  function Parts(rows: seq<Row>, ids: set<nat>, u: nat, n: nat): (r: seq<nat>)
    ensures |r| == n
  {
    seq(n, g requires 0 <= g < n => Owed(rows, InGroup(rows, ids, g), u))
  }

  /** What a batch leaves user u with. */
  function Billed(a: Account, rows: seq<Row>, ids: set<nat>, u: nat, lane: Lane): Account {
    Charge(a, Owed(rows, ids, u), Parts(rows, ids, u, |a.scoped|), lane)
  }

  /** One settlement transaction: `seen` are the rows as the statement's snapshot read them. */
  function SettleDb(db: Db, seen: seq<Row>, ids: set<nat>, lane: Lane): Db {
    Db(SettleRows(db.rows, ids, db.accounts.Keys),
       map u | u in db.accounts :: Billed(db.accounts[u], seen, ids, u, lane))
  }

  /** MarkBilledBulk: idempotent, no money moves. */
  function MarkRows(rows: seq<Row>, ids: set<nat>): (r: seq<Row>)
    ensures |r| == |rows|
  {
    seq(|rows|, i requires 0 <= i < |rows| =>
      if i in ids && !rows[i].billed then rows[i].(billed := true, uncharged := true) else rows[i])
  }

  /** ApplyRepricedBatch: only rows still unbilled and still marked no_price. */
  function RepriceRows(rows: seq<Row>, costs: map<nat, nat>): (r: seq<Row>)
    ensures |r| == |rows|
  {
    seq(|rows|, i requires 0 <= i < |rows| =>
      if i in costs && Unpriced(rows[i]) then rows[i].(tier := Marker.RecoveryTier(rows[i].tier), cost := costs[i])
        else rows[i])
  }

  predicate Unpriced(r: Row) { !r.billed && Marker.IsNoPrice(r.tier) }

  /** The sweep's filter: free, and not merely waiting for a price. */
  predicate Sweepable(r: Row) { r.cost <= 0 && !Marker.IsNoPrice(r.tier) }

  /** FetchUnbilledBatch: the first `limit` unbilled rows. */
  function UnbilledBatch(rows: seq<Row>, limit: nat): (ids: set<nat>)
    ensures forall i :: i in ids ==> i < |rows| && !rows[i].billed && rows[i].billable
  {
    First(seq(|rows|, i requires 0 <= i < |rows| => !rows[i].billed && rows[i].billable), limit, 0)
  }

  /** FetchUnpricedBatch: the first `limit` billable rows that still wait for a price. */
  function UnpricedBatch(rows: seq<Row>, limit: nat): (ids: set<nat>)
    ensures forall i :: i in ids ==> i < |rows| && Unpriced(rows[i]) && rows[i].billable
  {
    First(seq(|rows|, i requires 0 <= i < |rows| => Unpriced(rows[i]) && rows[i].billable), limit, 0)
  }

  // ----- Row invariant -----

  /**
    A row is charged exactly when it left the cursor with a deduction, and a row
    that waits for a price is free until repriced and then loses its marker.
   */
  ghost predicate RowOk(r: Row) {
    && r.charges == (if Charged(r) then 1 else 0)
    && (Marker.IsNoPrice(r.tier) ==> r.cost <= 0 && !Marker.IsNoPrice(Marker.RecoveryTier(r.tier)))
  }

  ghost predicate RowsOk(rows: seq<Row>) {
    forall i {:trigger rows[i]} :: 0 <= i < |rows| ==> RowOk(rows[i])
  }

  // ----- Sums -----

  /** Total looks only at users and costs of the rows in ids. */
  lemma {:induction false} TotalAgrees(a: seq<Row>, b: seq<Row>, ids: set<nat>, u: nat)
    requires |a| <= |b|
    requires forall i :: i in ids ==> i < |a| && b[i].user == a[i].user && b[i].cost == a[i].cost
    ensures Total(b, ids, u) == Total(a, ids, u)
    decreases |b|
  {
    if |b| > |a| {
      TotalAgrees(a, b[..|b| - 1], ids, u);
    } else if a != [] {
      var n := |a| - 1;
      var rest := ids - {n};
      TotalDrops(a[..n], ids, n, u);
      TotalDrops(b[..n], ids, n, u);
      TotalAgrees(a[..n], b[..n], rest, u);
    }
  }

  /** An id beyond the rows contributes nothing. */
  lemma {:induction false} TotalDrops(rows: seq<Row>, ids: set<nat>, m: nat, u: nat)
    requires m >= |rows|
    ensures Total(rows, ids - {m}, u) == Total(rows, ids, u)
  {
    if rows != [] {
      TotalDrops(rows[..|rows| - 1], ids, m, u);
    }
  }

  lemma {:induction false} TotalNonNegative(rows: seq<Row>, ids: set<nat>, u: nat)
    requires forall i :: i in ids && i < |rows| ==> rows[i].cost > 0
    ensures Total(rows, ids, u) >= 0
  {
    if rows != [] {
      TotalNonNegative(rows[..|rows| - 1], ids, u);
    }
  }

  lemma {:induction false} TotalUnion(rows: seq<Row>, a: set<nat>, b: set<nat>, u: nat)
    requires a !! b
    ensures Total(rows, a + b, u) == Total(rows, a, u) + Total(rows, b, u)
  {
    if rows != [] {
      TotalUnion(rows[..|rows| - 1], a, b, u);
    }
  }

  /** The rows of ids in the first n groups. */
  function InFirst(rows: seq<Row>, ids: set<nat>, n: nat): set<nat> {
    set i | i in ids && i < |rows| && rows[i].group.Some? && rows[i].group.value < n
  }

  lemma {:induction false} PartsAddUp(rows: seq<Row>, ids: set<nat>, u: nat, n: nat)
    requires forall i :: i in ids && i < |rows| ==> rows[i].cost > 0
    ensures Fefo.Sum(Parts(rows, ids, u, n)) == Total(rows, InFirst(rows, ids, n), u)
  {
    if n == 0 {
      assert InFirst(rows, ids, 0) == {};
      TotalOfOthers(rows, {}, u);
    } else {
      PartsAddUp(rows, ids, u, n - 1);
      assert Parts(rows, ids, u, n) == Parts(rows, ids, u, n - 1) + [Owed(rows, InGroup(rows, ids, n - 1), u)];
      Fefo.SumAppend(Parts(rows, ids, u, n - 1), Owed(rows, InGroup(rows, ids, n - 1), u));
      TotalNonNegative(rows, InGroup(rows, ids, n - 1), u);
      assert InFirst(rows, ids, n) == InFirst(rows, ids, n - 1) + InGroup(rows, ids, n - 1);
      TotalUnion(rows, InFirst(rows, ids, n - 1), InGroup(rows, ids, n - 1), u);
    }
  }

  /** The groups' parts never come to more than the user owes, so nothing is drawn twice. */
  lemma PartsWithinTotal(rows: seq<Row>, ids: set<nat>, u: nat, n: nat)
    requires forall i :: i in ids && i < |rows| ==> rows[i].cost > 0
    ensures Fefo.Sum(Parts(rows, ids, u, n)) <= Owed(rows, ids, u)
  {
    PartsAddUp(rows, ids, u, n);
    var first := InFirst(rows, ids, n);
    TotalNonNegative(rows, ids - first, u);
    assert first + (ids - first) == ids;
    TotalUnion(rows, first, ids - first, u);
  }

  lemma {:induction false} TotalOfOthers(rows: seq<Row>, ids: set<nat>, u: nat)
    requires forall i :: i in ids && i < |rows| ==> rows[i].user != u
    ensures Total(rows, ids, u) == 0
  {
    if rows != [] {
      TotalOfOthers(rows[..|rows| - 1], ids, u);
    }
  }

  lemma {:induction false} TotalOfRow(rows: seq<Row>, i: nat, u: nat)
    requires i < |rows|
    ensures Total(rows, {i}, u) == if rows[i].user == u then rows[i].cost else 0
  {
    var n := |rows| - 1;
    if i < n {
      TotalOfRow(rows[..n], i, u);
    } else {
      TotalOfOthers(rows[..n], {i}, u);
    }
  }

  /** Without global funds a row draws on the pool of its own group only, and the balance pays the rest. */
  lemma OwnGroupPays(a: Account, rows: seq<Row>, i: nat, g: nat)
    requires i < |rows| && rows[i].cost > 0 && rows[i].group == Some(g) && g < |a.scoped| && Fefo.Sum(a.temp) == 0
    ensures var r := Billed(a, rows, {i}, rows[i].user, TempLane);
            && |r.scoped| == |a.scoped| && r.Funds() == a.Funds() - rows[i].cost
            && forall h :: 0 <= h < |a.scoped| ==>
                 Fefo.Sum(r.scoped[h]) == Max(Fefo.Sum(a.scoped[h]) - if h == g then rows[i].cost else 0, 0)
  {
    var u := rows[i].user;
    var parts := Parts(rows, {i}, u, |a.scoped|);
    TotalOfRow(rows, i, u);
    forall h | 0 <= h < |a.scoped| ensures parts[h] == if h == g then rows[i].cost else 0 {
      if h == g {
        assert InGroup(rows, {i}, h) == {i};
      } else {
        assert InGroup(rows, {i}, h) == {};
        TotalOfOthers(rows, {}, u);
      }
    }
    WhoPays(a, Owed(rows, {i}, u), parts, TempLane);
  }

  /** Settling moves exactly the batch's cost into the charged sum of each known user. */
  lemma {:induction false} SettleSum(rows: seq<Row>, ids: set<nat>, users: set<nat>, u: nat)
    requires forall i :: i in ids && i < |rows| ==> !rows[i].billed && rows[i].cost > 0
    ensures ChargedSum(SettleRows(rows, ids, users), u) == ChargedSum(rows, u) + if u in users then Total(rows, ids, u)
            else 0
  {
    if rows != [] {
      var n := |rows| - 1;
      SettleSum(rows[..n], ids, users, u);
      assert SettleRows(rows, ids, users)[..n] == SettleRows(rows[..n], ids, users);
    }
  }

  lemma {:induction false} MarkSum(rows: seq<Row>, ids: set<nat>, u: nat)
    ensures ChargedSum(MarkRows(rows, ids), u) == ChargedSum(rows, u)
  {
    if rows != [] {
      var n := |rows| - 1;
      MarkSum(rows[..n], ids, u);
      assert MarkRows(rows, ids)[..n] == MarkRows(rows[..n], ids);
    }
  }

  lemma {:induction false} RepriceSum(rows: seq<Row>, costs: map<nat, nat>, u: nat)
    ensures ChargedSum(RepriceRows(rows, costs), u) == ChargedSum(rows, u)
  {
    if rows != [] {
      var n := |rows| - 1;
      RepriceSum(rows[..n], costs, u);
      assert RepriceRows(rows, costs)[..n] == RepriceRows(rows[..n], costs);
    }
  }

  lemma {:induction false} AppendSum(rows: seq<Row>, r: Row, u: nat)
    ensures ChargedSum(rows + [r], u) == ChargedSum(rows, u) + if Charged(r) && r.user == u then r.cost else 0
  {
    assert (rows + [r])[..|rows|] == rows;
  }
}
