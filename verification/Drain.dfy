/** Progress of the billing cursor: what every store operation does to the ledger, and why draining ends. */
module Drain {
  import opened Arithmetic
  import opened Ledger
  import Fefo
  import Marker

  /** An unbilled row counts one, and one more while it waits for a price. */
  function Weight(r: Row): nat {
    (if r.billed then 0 else 1) + (if Unpriced(r) then 1 else 0)
  }

  /** Unbilled rows plus unbilled rows without a price. */
  function Measure(rows: seq<Row>): nat {
    if rows == [] then 0 else Measure(rows[..|rows| - 1]) + Weight(rows[|rows| - 1])
  }

  /** If exactly the rows of ids get lighter, each by one, the measure drops by exactly |ids|. */
  lemma {:induction false} MeasureDrops(a: seq<Row>, b: seq<Row>, ids: set<nat>)
    requires |a| == |b| && forall i :: i in ids ==> i < |a|
    requires forall i :: 0 <= i < |a| ==> Weight(b[i]) + (if i in ids then 1 else 0) == Weight(a[i])
    ensures Measure(b) + |ids| == Measure(a)
  {
    if a == [] {
      assert ids == {};
    } else {
      var n, rest := |a| - 1, ids - {|a| - 1};
      MeasureDrops(a[..n], b[..n], rest);
      assert |ids| == |rest| + if n in ids then 1 else 0;
    }
  }

  lemma RepricedIsLighter(r: Row, cost: nat)
    requires RowOk(r) && Unpriced(r)
    ensures var s := r.(tier := Marker.RecoveryTier(r.tier), cost := cost); Weight(s) + 1 == Weight(r) && RowOk(s)
  {
  }

  /**
    From a to b, exactly n rows left the cursor or got their price, no money was
    lost or taken twice, and the ledger is still sound.
   */
  ghost predicate Progress(a: Db, b: Db, n: nat) {
    && RowsOk(b.rows) && b.accounts.Keys == a.accounts.Keys
    && Measure(b.rows) + n == Measure(a.rows)
    && forall u :: u in a.accounts ==>
         b.accounts[u].Funds() + ChargedSum(b.rows, u) == a.accounts[u].Funds() + ChargedSum(a.rows, u)
  }

  lemma ProgressFromNothing(a: Db)
    requires RowsOk(a.rows)
    ensures Progress(a, a, 0)
  {
  }

  lemma ProgressTransitive(a: Db, b: Db, c: Db, m: nat, n: nat)
    requires Progress(a, b, m) && Progress(b, c, n)
    ensures Progress(a, c, m + n)
  {
  }

  lemma SettleProgress(db: Db, ids: set<nat>, lane: Lane)
    requires RowsOk(db.rows) && forall i :: i in ids ==> i < |db.rows| && !db.rows[i].billed && db.rows[i].cost > 0
    ensures Progress(db, SettleDb(db, db.rows, ids, lane), |ids|)
  {
    var b := SettleDb(db, db.rows, ids, lane);
    forall i | 0 <= i < |b.rows|
      ensures RowOk(b.rows[i]) && Weight(b.rows[i]) + (if i in ids then 1 else 0) == Weight(db.rows[i])
    {
      assert RowOk(db.rows[i]);
    }
    MeasureDrops(db.rows, b.rows, ids);
    forall u | u in db.accounts
      ensures b.accounts[u].Funds() + ChargedSum(b.rows, u) == db.accounts[u].Funds() + ChargedSum(db.rows, u)
    {
      SettleSum(db.rows, ids, db.accounts.Keys, u);
      TotalNonNegative(db.rows, ids, u);
    }
  }

  lemma MarkProgress(db: Db, ids: set<nat>)
    requires RowsOk(db.rows) && forall i :: i in ids ==>
               i < |db.rows| && !db.rows[i].billed && !Marker.IsNoPrice(db.rows[i].tier)
    ensures Progress(db, db.(rows := MarkRows(db.rows, ids)), |ids|)
  {
    var b := db.(rows := MarkRows(db.rows, ids));
    MeasureDrops(db.rows, b.rows, ids);
    forall i | 0 <= i < |b.rows| ensures RowOk(b.rows[i]) { assert RowOk(db.rows[i]); }
    forall u | u in db.accounts ensures ChargedSum(b.rows, u) == ChargedSum(db.rows, u) { MarkSum(db.rows, ids, u); }
  }

  lemma RepriceProgress(db: Db, costs: map<nat, nat>)
    requires RowsOk(db.rows) && forall i :: i in costs ==> i < |db.rows| && Unpriced(db.rows[i])
    ensures Progress(db, db.(rows := RepriceRows(db.rows, costs)), |costs.Keys|)
  {
    var b := db.(rows := RepriceRows(db.rows, costs));
    forall i | 0 <= i < |b.rows|
      ensures RowOk(b.rows[i]) && Weight(b.rows[i]) + (if i in costs.Keys then 1 else 0) == Weight(db.rows[i])
    {
      assert RowOk(db.rows[i]);
      if i in costs {
        RepricedIsLighter(db.rows[i], costs[i]);
      }
    }
    MeasureDrops(db.rows, b.rows, costs.Keys);
    forall u | u in db.accounts ensures ChargedSum(b.rows, u)
      == ChargedSum(db.rows, u) { RepriceSum(db.rows, costs, u); }
  }

  // ----- Settlement summaries -----

  /** domain.SettlementSummary; uids are distinct, so the (uid, balance_after) list is a map. */
  datatype Summary = Summary(batchRows: nat, debitedUsers: nat, forcedUsers: nat, marked: nat, quarantined: nat,
                             balances: map<nat, int>)

  const NOTHING := Summary(0, 0, 0, 0, 0, map[])

  /** What a charge takes from the main balance after temporary funds. */
  function Spill(a: Account, total: nat, parts: seq<nat>, lane: Lane): int
    requires |parts| == |a.scoped|
  {
    a.balance - Charge(a, total, parts, lane).balance
  }

  function SpillOf(db: Db, ids: set<nat>, lane: Lane, u: nat): int
    requires u in db.accounts
  {
    Spill(db.accounts[u], Owed(db.rows, ids, u), Parts(db.rows, ids, u, |db.accounts[u].scoped|), lane)
  }

  /** Temporary funds never pay more than is owed. */
  lemma SpillNonNegative(db: Db, ids: set<nat>, lane: Lane, u: nat)
    requires u in db.accounts && forall i :: i in ids && i < |db.rows| ==> db.rows[i].cost > 0
    ensures SpillOf(db, ids, lane, u) >= 0
  {
    var n := |db.accounts[u].scoped|;
    PartsWithinTotal(db.rows, ids, u, n);
    Fefo.PoolsPay(db.accounts[u].scoped, Parts(db.rows, ids, u, n));
  }

  function Debtors(db: Db, ids: set<nat>, lane: Lane): set<nat> {
    set u | u in db.accounts && SpillOf(db, ids, lane, u) > 0
  }

  /** Those the conditional debit reaches; the others are forced into overdraft. */
  function Solvent(db: Db, ids: set<nat>, lane: Lane): set<nat> {
    set u | u in db.accounts && SpillOf(db, ids, lane, u) > 0 && db.accounts[u].balance >= SpillOf(db, ids, lane, u)
  }

  /** Rows whose user does not exist. */
  function Ghosts(db: Db, ids: set<nat>): set<nat> {
    set i | i in ids && i < |db.rows| && db.rows[i].user !in db.accounts
  }

  /** (uid, balance_after) of everybody debited or forced. */
  function BalancesAfter(db: Db, ids: set<nat>, lane: Lane): (r: map<nat, int>)
    ensures r.Keys == Debtors(db, ids, lane)
  {
    map u | u in Debtors(db, ids, lane) :: db.accounts[u].balance - SpillOf(db, ids, lane, u)
  }

  /** The statement's final SELECT. */
  function SummaryOf(db: Db, ids: set<nat>, lane: Lane): Summary {
    var debtors, solvent := Debtors(db, ids, lane), Solvent(db, ids, lane);
    Summary(|ids|, |solvent|, |debtors - solvent|, |ids|, |Ghosts(db, ids)|, BalancesAfter(db, ids, lane))
  }

  /** The returned pairs are exactly the users whose balance moved, with their new balance. */
  lemma SummaryTellsBalances(db: Db, ids: set<nat>, lane: Lane, u: nat)
    requires u in db.accounts && forall i :: i in ids && i < |db.rows| ==> db.rows[i].cost > 0
    ensures var after := SettleDb(db, db.rows, ids, lane).accounts[u].balance;
            var told := SummaryOf(db, ids, lane).balances;
            (u in told <==> after != db.accounts[u].balance) && (u in told ==> told[u] == after)
  {
    SpillNonNegative(db, ids, lane, u);
  }

  /** The rows that left the cursor between two ledgers. */
  function Left(a: Db, b: Db): set<nat> {
    set i | 0 <= i < |a.rows| && i < |b.rows| && !a.rows[i].billed && b.rows[i].billed
  }

  /** The users whose main balance dropped between two ledgers. */
  function Dropped(a: Db, b: Db): set<nat> {
    set u | u in a.accounts && u in b.accounts && b.accounts[u].balance < a.accounts[u].balance
  }

  lemma SummaryCountsUsers(db: Db, ids: set<nat>, lane: Lane)
    ensures var after := SettleDb(db, db.rows, ids, lane);
            && Solvent(db, ids, lane) == (set u | u in Dropped(db, after) && after.accounts[u].balance >= 0)
            && Debtors(db, ids, lane) - Solvent(db, ids, lane)
                 == (set u | u in Dropped(db, after) && after.accounts[u].balance < 0)
  {
  }

  /**
    The counters read off the ledgers before and after: rows that left the cursor, users debited within their
    balance, users forced below zero, and rows that left without a charge.
   */
  lemma SummaryCounts(db: Db, ids: set<nat>, lane: Lane)
    requires forall i :: i in ids ==> i < |db.rows| && !db.rows[i].billed && db.rows[i].cost > 0
    ensures var after, s := SettleDb(db, db.rows, ids, lane), SummaryOf(db, ids, lane);
            && s.batchRows == s.marked == |Left(db, after)|
            && s.debitedUsers == |set u | u in Dropped(db, after) && after.accounts[u].balance >= 0|
            && s.forcedUsers == |set u | u in Dropped(db, after) && after.accounts[u].balance < 0|
            && s.quarantined == |set i | i in Left(db, after) && after.rows[i].uncharged|
  {
    var after := SettleDb(db, db.rows, ids, lane);
    assert Left(db, after) == ids;
    assert Ghosts(db, ids) == set i | i in Left(db, after) && after.rows[i].uncharged;
    SummaryCountsUsers(db, ids, lane);
  }

  function Merge(a: Summary, b: Summary): Summary {
    Summary(a.batchRows + b.batchRows, a.debitedUsers + b.debitedUsers, a.forcedUsers + b.forcedUsers,
            a.marked + b.marked, a.quarantined + b.quarantined, a.balances + b.balances)
  }

  datatype Counter = BatchRows | DebitedUsers | ForcedUsers | Marked | Quarantined

  function Count(s: Summary, c: Counter): nat {
    match c
    case BatchRows => s.batchRows
    case DebitedUsers => s.debitedUsers
    case ForcedUsers => s.forcedUsers
    case Marked => s.marked
    case Quarantined => s.quarantined
  }

  /** One counter summed over the buckets that succeeded, in bucket order. */
  ghost function SumBy(results: seq<Option<Summary>>, c: Counter): nat {
    if results == [] then 0
    else
      var last := results[|results| - 1];
      SumBy(results[..|results| - 1], c) + if last.Some? then Count(last.value, c) else 0
  }

  lemma {:induction false} SumByUpdate(results: seq<Option<Summary>>, b: nat, s: Summary, c: Counter)
    requires b < |results| && results[b] == None
    ensures SumBy(results[b := Some(s)], c) == SumBy(results, c) + Count(s, c)
  {
    var n := |results| - 1;
    if b < n {
      SumByUpdate(results[..n], b, s, c);
      assert results[b := Some(s)][..n] == results[..n][b := Some(s)];
    } else {
      assert results[b := Some(s)][..n] == results[..n];
    }
  }

  /** No bucket has come back yet. */
  function Unanswered(n: nat): seq<Option<Summary>> {
    seq(n, _ => None)
  }

  lemma {:induction false} SumByNone(n: nat, c: Counter)
    ensures SumBy(Unanswered(n), c) == 0
  {
    if n > 0 {
      assert Unanswered(n)[..n - 1] == Unanswered(n - 1);
      SumByNone(n - 1, c);
    }
  }
}
