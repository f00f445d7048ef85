/**
  The K buckets of one lane in internal/billing/drain.go: what each does to the ledger
  depends only on its own users, so any completion order gives the same result.
 */
module LedgerParallel {
  import opened Ledger
  import Fefo

  /** What one bucket's settle call did: nothing, one settled window, or one head row written off. */
  datatype Act = Nothing | Window(limit: nat) | HeadRow

  function Perform(db: Db, lane: Lane, k: nat, b: nat, act: Act): Db
    requires k > 0
  {
    match act
    case Nothing => db
    case Window(limit) => SettleDb(db, db.rows, Batch(db, lane, k, b, limit), lane)
    case HeadRow => db.(rows := MarkRows(db.rows, Batch(db, lane, k, b, 1)))
  }

  // ----- A bucket leaves other users alone -----

  lemma ChargeNothing(a: Account, parts: seq<nat>, lane: Lane)
    requires |parts| == |a.scoped| && forall g :: 0 <= g < |parts| ==> parts[g] == 0
    ensures Charge(a, 0, parts, lane) == a
  {
    Fefo.DrainNothing(a.temp);
    Fefo.DrainNothingAll(a.scoped, parts);
  }

  lemma BilledNothing(a: Account, rows: seq<Row>, ids: set<nat>, u: nat, lane: Lane)
    requires forall i :: i in ids && i < |rows| ==> rows[i].user != u
    ensures Billed(a, rows, ids, u, lane) == a
  {
    TotalOfOthers(rows, ids, u);
    forall g | 0 <= g < |a.scoped| ensures Parts(rows, ids, u, |a.scoped|)[g] == 0 {
      TotalOfOthers(rows, InGroup(rows, ids, g), u);
    }
    ChargeNothing(a, Parts(rows, ids, u, |a.scoped|), lane);
  }

  /** The funds of another bucket's users do not move, and their rows do not change. */
  lemma PerformElsewhere(db: Db, lane: Lane, k: nat, b: nat, act: Act)
    requires k > 0
    ensures var db' := Perform(db, lane, k, b, act);
            && |db'.rows| == |db.rows| && db'.accounts.Keys == db.accounts.Keys
            && (forall i :: 0 <= i < |db.rows| ==> db'.rows[i].user == db.rows[i].user)
            && (forall i :: 0 <= i < |db.rows| && db.rows[i].user % k != b ==> db'.rows[i] == db.rows[i])
            && (forall u :: u in db.accounts && u % k != b ==> db'.accounts[u] == db.accounts[u])
  {
    if act.Window? {
      var ids := Batch(db, lane, k, b, act.limit);
      forall u | u in db.accounts && u % k != b
        ensures Billed(db.accounts[u], db.rows, ids, u, lane) == db.accounts[u] {
        BilledNothing(db.accounts[u], db.rows, ids, u, lane);
      }
    }
  }

  // ----- A bucket looks at its own users only -----

  /** Two ledgers with the same rows' owners that agree on everything of bucket b. */
  ghost predicate SameFor(a: Db, c: Db, k: nat, b: nat)
    requires k > 0
  {
    && |a.rows| == |c.rows| && a.accounts.Keys == c.accounts.Keys
    && (forall i :: 0 <= i < |a.rows| ==> a.rows[i].user == c.rows[i].user)
    && (forall i :: 0 <= i < |a.rows| && a.rows[i].user % k == b ==> a.rows[i] == c.rows[i])
    && (forall u :: u in a.accounts && u % k == b ==> a.accounts[u] == c.accounts[u])
  }

  lemma SameBatch(a: Db, c: Db, lane: Lane, k: nat, b: nat, limit: nat)
    requires k > 0 && SameFor(a, c, k, b)
    ensures Batch(a, lane, k, b, limit) == Batch(c, lane, k, b, limit)
  {
    forall i | 0 <= i < |a.rows| ensures Settleable(a, lane, k, b, i) == Settleable(c, lane, k, b, i) {
    }
    assert Flags(a, lane, k, b) == Flags(c, lane, k, b);
  }

  lemma SameOwed(a: seq<Row>, c: seq<Row>, ids: set<nat>, u: nat, n: nat)
    requires |a| == |c| && forall i :: i in ids ==> i < |a| && a[i] == c[i]
    ensures Owed(a, ids, u) == Owed(c, ids, u) && Parts(a, ids, u, n) == Parts(c, ids, u, n)
  {
    TotalAgrees(a, c, ids, u);
    forall g | 0 <= g < n ensures Parts(a, ids, u, n)[g] == Parts(c, ids, u, n)[g] {
      assert InGroup(a, ids, g) == InGroup(c, ids, g);
      TotalAgrees(a, c, InGroup(a, ids, g), u);
    }
  }

  lemma WindowLocal(a: Db, c: Db, lane: Lane, k: nat, b: nat, limit: nat)
    requires k > 0 && SameFor(a, c, k, b)
    ensures SameFor(Perform(a, lane, k, b, Window(limit)), Perform(c, lane, k, b, Window(limit)), k, b)
  {
    SameBatch(a, c, lane, k, b, limit);
    var ids := Batch(a, lane, k, b, limit);
    forall u | u in a.accounts && u % k == b
      ensures Billed(a.accounts[u], a.rows, ids, u, lane) == Billed(c.accounts[u], c.rows, ids, u, lane)
    {
      SameOwed(a.rows, c.rows, ids, u, |a.accounts[u].scoped|);
    }
  }

  /** On ledgers that agree for bucket b, its call has the same effect on its own rows and users. */
  lemma PerformLocal(a: Db, c: Db, lane: Lane, k: nat, b: nat, act: Act)
    requires k > 0 && SameFor(a, c, k, b)
    ensures SameFor(Perform(a, lane, k, b, act), Perform(c, lane, k, b, act), k, b)
  {
    match act
    case Nothing =>
    case HeadRow => SameBatch(a, c, lane, k, b, 1);
    case Window(limit) => WindowLocal(a, c, lane, k, b, limit);
  }

  // ----- All buckets together -----

  function JoinedRow(start: Db, lane: Lane, k: nat, acts: seq<Act>, i: nat): Row
    requires k > 0 && |acts| == k && i < |start.rows|
  {
    var b := start.rows[i].user % k;
    PerformElsewhere(start, lane, k, b, acts[b]);
    Perform(start, lane, k, b, acts[b]).rows[i]
  }

  function JoinedAccount(start: Db, lane: Lane, k: nat, acts: seq<Act>, u: nat): Account
    requires k > 0 && |acts| == k && u in start.accounts
  {
    PerformElsewhere(start, lane, k, u % k, acts[u % k]);
    Perform(start, lane, k, u % k, acts[u % k]).accounts[u]
  }

  /** Every bucket's part of x is what that bucket alone makes of the starting ledger. */
  ghost predicate Joined(start: Db, lane: Lane, k: nat, acts: seq<Act>, x: Db)
    requires k > 0 && |acts| == k
  {
    && |x.rows| == |start.rows| && x.accounts.Keys == start.accounts.Keys
    && (forall i {:trigger x.rows[i]} :: 0 <= i < |start.rows| ==> x.rows[i] == JoinedRow(start, lane, k, acts, i))
    && (forall u {:trigger x.accounts[u]} :: u in start.accounts ==>
          x.accounts[u] == JoinedAccount(start, lane, k, acts, u))
  }

  /** So it is determined by the start and the outcomes; no order enters. */
  lemma JoinedUnique(start: Db, lane: Lane, k: nat, acts: seq<Act>, x: Db, y: Db)
    requires k > 0 && |acts| == k && Joined(start, lane, k, acts, x) && Joined(start, lane, k, acts, y)
    ensures x == y
  {
    forall i | 0 <= i < |start.rows| ensures x.rows[i] == y.rows[i] {
    }
    forall u | u in start.accounts ensures x.accounts[u] == y.accounts[u] {
    }
    assert x.rows == y.rows && x.accounts == y.accounts;
  }

  lemma JoinedKeepsOwners(start: Db, lane: Lane, k: nat, acts: seq<Act>, i: nat)
    requires k > 0 && |acts| == k && i < |start.rows|
    ensures JoinedRow(start, lane, k, acts, i).user == start.rows[i].user
  {
    var b := start.rows[i].user % k;
    PerformElsewhere(start, lane, k, b, acts[b]);
  }

  /** A bucket that has not acted yet still sees its part of the starting ledger. */
  lemma JoinedSame(start: Db, lane: Lane, k: nat, acts: seq<Act>, j: Db, b: nat)
    requires k > 0 && |acts| == k && b < k && acts[b] == Nothing && Joined(start, lane, k, acts, j)
    ensures SameFor(start, j, k, b)
  {
    forall i | 0 <= i < |start.rows|
      ensures j.rows[i].user == start.rows[i].user && (start.rows[i].user % k == b ==> j.rows[i] == start.rows[i])
    {
      JoinedKeepsOwners(start, lane, k, acts, i);
    }
    forall u | u in start.accounts && u % k == b ensures j.accounts[u] == start.accounts[u] {
    }
  }

  lemma StepRow(start: Db, lane: Lane, k: nat, acts: seq<Act>, b: nat, act: Act, i: nat)
    requires k > 0 && |acts| == k && b < k && i < |start.rows|
    requires |Perform(start, lane, k, b, act).rows| == |start.rows|
    ensures JoinedRow(start, lane, k, acts[b := act], i)
         == if start.rows[i].user % k == b then Perform(start, lane, k, b, act).rows[i]
           else JoinedRow(start, lane, k, acts, i)
  {
  }

  lemma StepAccount(start: Db, lane: Lane, k: nat, acts: seq<Act>, b: nat, act: Act, u: nat)
    requires k > 0 && |acts| == k && b < k && u in start.accounts
    requires Perform(start, lane, k, b, act).accounts.Keys == start.accounts.Keys
    ensures JoinedAccount(start, lane, k, acts[b := act], u)
         == if u % k == b then Perform(start, lane, k, b, act).accounts[u] else JoinedAccount(start, lane, k, acts, u)
  {
  }

  /** x is j with bucket b's part taken from own. */
  ghost predicate Spliced(x: Db, j: Db, own: Db, k: nat, b: nat)
    requires k > 0
  {
    && |x.rows| == |j.rows| == |own.rows| && x.accounts.Keys == j.accounts.Keys == own.accounts.Keys
    && (forall i {:trigger x.rows[i]} :: 0 <= i < |x.rows| ==>
          x.rows[i] == if j.rows[i].user % k == b then own.rows[i] else j.rows[i])
    && (forall u {:trigger x.accounts[u]} :: u in x.accounts ==>
          x.accounts[u] == if u % k == b then own.accounts[u] else j.accounts[u])
  }

  lemma PerformSplices(start: Db, j: Db, lane: Lane, k: nat, b: nat, act: Act)
    requires k > 0 && SameFor(start, j, k, b)
    ensures Spliced(Perform(j, lane, k, b, act), j, Perform(start, lane, k, b, act), k, b)
  {
    PerformLocal(start, j, lane, k, b, act);
    PerformElsewhere(start, lane, k, b, act);
    PerformElsewhere(j, lane, k, b, act);
  }

  lemma SplicedIsJoined(start: Db, lane: Lane, k: nat, acts: seq<Act>, j: Db, b: nat, act: Act, own: Db, x: Db)
    requires k > 0 && |acts| == k && b < k && Joined(start, lane, k, acts, j)
    requires own == Perform(start, lane, k, b, act) && Spliced(x, j, own, k, b)
    ensures Joined(start, lane, k, acts[b := act], x)
  {
    forall i | 0 <= i < |start.rows| ensures x.rows[i] == JoinedRow(start, lane, k, acts[b := act], i) {
      JoinedKeepsOwners(start, lane, k, acts, i);
      StepRow(start, lane, k, acts, b, act, i);
    }
    forall u | u in start.accounts ensures x.accounts[u] == JoinedAccount(start, lane, k, acts[b := act], u) {
      StepAccount(start, lane, k, acts, b, act, u);
    }
  }

  /** Whatever the others have done, bucket b's call adds exactly bucket b's part. */
  lemma JoinedStep(start: Db, lane: Lane, k: nat, acts: seq<Act>, j: Db, b: nat, act: Act)
    requires k > 0 && |acts| == k && b < k && acts[b] == Nothing && Joined(start, lane, k, acts, j)
    ensures Joined(start, lane, k, acts[b := act], Perform(j, lane, k, b, act))
  {
    JoinedSame(start, lane, k, acts, j, b);
    PerformSplices(start, j, lane, k, b, act);
    SplicedIsJoined(start, lane, k, acts, j, b, act, Perform(start, lane, k, b, act), Perform(j, lane, k, b, act));
  }

  function Idle(k: nat): seq<Act> { seq(k, _ => Nothing) }

  lemma JoinedNothing(start: Db, lane: Lane, k: nat)
    requires k > 0
    ensures Joined(start, lane, k, Idle(k), start)
  {
  }

  /** For every ledger, lane, pair of buckets and outcomes: both completion orders give the same rows and funds. */
  lemma BucketsCommute(db: Db, lane: Lane, k: nat, b: nat, b': nat, act: Act, act': Act)
    requires k > 0 && b < k && b' < k && b != b'
    ensures Perform(Perform(db, lane, k, b, act), lane, k, b', act')
            == Perform(Perform(db, lane, k, b', act'), lane, k, b, act)
  {
    var idle, x, y := Idle(k), Perform(db, lane, k, b, act), Perform(db, lane, k, b', act');
    JoinedNothing(db, lane, k);
    JoinedStep(db, lane, k, idle, db, b, act);
    JoinedStep(db, lane, k, idle, db, b', act');
    JoinedStep(db, lane, k, idle[b := act], x, b', act');
    JoinedStep(db, lane, k, idle[b' := act'], y, b, act);
    assert idle[b := act][b' := act'] == idle[b' := act'][b := act];
    JoinedUnique(db, lane, k, idle[b := act][b' := act'], Perform(x, lane, k, b', act'), Perform(y, lane, k, b, act));
  }
}
