/**
  internal/billing/flusher.go and drain.go against the shared ledger, by any
  number of instances. Reading a batch and committing it are separate events and
  a run is any sequence of events, so batches of different buckets, lanes and
  instances overlap freely; the advisory lock is an extra discipline on runs.
 */
module LedgerRuns {
  import opened Arithmetic
  import opened Ledger
  import Fefo
  import Marker

  /** A unit of work between its read and its commit. */
  datatype Work =
    | Settling(lane: Lane, k: nat, bucket: nat, seen: seq<Row>, ids: set<nat>)
    | Isolating(lane: Lane, k: nat, bucket: nat, head: nat)
    | Sweeping(ids: set<nat>)
    | Repricing(costs: map<nat, nat>)

  datatype Task = Task(owner: nat, work: Work)

  /**
    credits: everything paid in, granted or lapsed so far, per user; holder: the advisory lock.
    Regrant is any change of temporary balances by others: a grant, an expiry, a correction.
   */
  datatype Sys = Sys(db: Db, credits: map<nat, int>, tasks: map<nat, Task>, holder: Option<nat>)

  datatype Event =
    | Arrive(row: Row)
    | Credit(user: nat, amount: int) | Regrant(user: nat, temp: seq<nat>, scoped: seq<seq<nat>>)
    | Acquire(instance: nat) | Release(instance: nat)
    | FetchSettle(t: nat, owner: nat, lane: Lane, k: nat, bucket: nat, limit: nat)
    | ProbeHead(t: nat, owner: nat, lane: Lane, k: nat, bucket: nat, head: nat)
    | FetchSweep(t: nat, owner: nat, limit: nat)
    | FetchReprice(t: nat, owner: nat, limit: nat, costs: map<nat, nat>)
    | Commit(t: nat) | Rollback(t: nat)

  function Init(): Sys { Sys(Db([], map[]), map[], map[], None) }

  function AccountOf(db: Db, u: nat): Account { if u in db.accounts then db.accounts[u] else Account(0, [], []) }

  function CreditOf(s: Sys, u: nat): int { if u in s.credits then s.credits[u] else 0 }

  function WithAccount(s: Sys, u: nat, a: Account, delta: int): Sys {
    s.(db := s.db.(accounts := s.db.accounts[u := a]), credits := s.credits[u := CreditOf(s, u) + delta])
  }

  function WithTask(s: Sys, t: nat, task: Task): Sys { if t in s.tasks then s else s.(tasks := s.tasks[t := task]) }

  /** A row as the usage writer inserts it. */
  predicate WellBorn(r: Row) {
    && !Charged(r) && r.charges == 0
    && (Marker.IsNoPrice(r.tier) ==> r.cost <= 0 && !Marker.IsNoPrice(Marker.RecoveryTier(r.tier)))
  }

  /** The marked == batch guard: no row of the batch was marked by somebody else. */
  predicate StillUnbilled(rows: seq<Row>, ids: set<nat>) {
    forall i :: i in ids ==> i < |rows| && !rows[i].billed
  }

  function CommitWork(db: Db, w: Work): Db {
    match w
    case Settling(lane, _, _, seen, ids) => if StillUnbilled(db.rows, ids) then SettleDb(db, seen, ids, lane) else db
    case Isolating(_, _, _, head) => db.(rows := MarkRows(db.rows, {head}))
    case Sweeping(ids) => db.(rows := MarkRows(db.rows, ids))
    case Repricing(costs) => db.(rows := RepriceRows(db.rows, costs))
  }

  function Next(s: Sys, e: Event): Sys {
    match e
    case Arrive(row) => if WellBorn(row) then s.(db := s.db.(rows := s.db.rows + [row])) else s
    case Credit(u, amount) =>
      var a := AccountOf(s.db, u);
      WithAccount(s, u, a.(balance := a.balance + amount), amount)
    case Regrant(u, temp, scoped) =>
      var a := AccountOf(s.db, u).(temp := temp, scoped := scoped);
      WithAccount(s, u, a, a.Funds() - AccountOf(s.db, u).Funds())
    case Acquire(i) => if s.holder.None? then s.(holder := Some(i)) else s
    case Release(i) => if s.holder == Some(i) then s.(holder := None) else s
    case FetchSettle(t, owner, lane, k, bucket, limit) =>
      if k == 0 then s
      else WithTask(s, t, Task(owner, Settling(lane, k, bucket, s.db.rows, Batch(s.db, lane, k, bucket, limit))))
    case ProbeHead(t, owner, lane, k, bucket, head) =>
      if k == 0 || head !in Batch(s.db, lane, k, bucket, 1) then s
      else WithTask(s, t, Task(owner, Isolating(lane, k, bucket, head)))
    case FetchSweep(t, owner, limit) =>
      WithTask(s, t, Task(owner, Sweeping(set i | i in UnbilledBatch(s.db.rows, limit) && Sweepable(s.db.rows[i]))))
    case FetchReprice(t, owner, limit, costs) =>
      if costs.Keys <= UnpricedBatch(s.db.rows, limit) then WithTask(s, t, Task(owner, Repricing(costs))) else s
    case Commit(t) =>
      if t in s.tasks then s.(db := CommitWork(s.db, s.tasks[t].work), tasks := s.tasks - {t}) else s
    case Rollback(t) => s.(tasks := s.tasks - {t})
  }

  function Run(es: seq<Event>): Sys {
    if es == [] then Init() else Next(Run(es[..|es| - 1]), es[|es| - 1])
  }

  // ----- Invariant -----

  /** What the rows a task captured can be relied on to still be. */
  ghost predicate WorkOk(rows: seq<Row>, w: Work) {
    match w
    case Settling(_, _, _, seen, ids) =>
      |seen| <= |rows| && forall i :: i in ids ==>
          i < |seen| && rows[i].cost == seen[i].cost > 0 && rows[i].user == seen[i].user
    case Sweeping(ids) => forall i :: i in ids ==> i < |rows| && Sweepable(rows[i])
    case _ => true
  }

  /** Paid in minus charged is what is left. */
  ghost predicate Balanced(s: Sys, u: nat) {
    AccountOf(s.db, u).Funds() == CreditOf(s, u) - ChargedSum(s.db.rows, u)
  }

  ghost predicate Inv(s: Sys) {
    && RowsOk(s.db.rows)
    && (forall u {:trigger Balanced(s, u)} :: Balanced(s, u))
    && (forall t :: t in s.tasks ==> WorkOk(s.db.rows, s.tasks[t].work))
  }

  // ----- What one unit of work achieves -----

  /** What reading a batch and committing it does: exactly its rows are billed, and the lane decides who pays. */
  lemma SettleTakesEffect(s: Sys, t: nat, owner: nat, lane: Lane, k: nat, b: nat, limit: nat)
    requires k > 0 && t !in s.tasks
    ensures var ids := Batch(s.db, lane, k, b, limit);
            var s' := Next(Next(s, FetchSettle(t, owner, lane, k, b, limit)), Commit(t));
            && s'.tasks == s.tasks && |s'.db.rows| == |s.db.rows| && s'.db.accounts.Keys == s.db.accounts.Keys
            && (forall i :: 0 <= i < |s.db.rows| ==>
                  if i in ids
                  then s'.db.rows[i].billed && (s'.db.rows[i].uncharged <==> s.db.rows[i].user !in s.db.accounts)
                  else s'.db.rows[i] == s.db.rows[i])
            && (forall u :: u in s.db.accounts ==>
                  PaidBy(s.db.accounts[u], s'.db.accounts[u], Total(s.db.rows, ids, u), lane))
  {
    var ids := Batch(s.db, lane, k, b, limit);
    FetchThenCommit(s, t, owner, lane, k, b, limit);
    forall u | u in s.db.accounts
      ensures PaidBy(s.db.accounts[u], SettleDb(s.db, s.db.rows, ids, lane).accounts[u], Total(s.db.rows, ids, u), lane)
    {
      SettledPays(s.db.accounts[u], s.db.rows, ids, u, lane);
    }
  }

  lemma FetchThenCommit(s: Sys, t: nat, owner: nat, lane: Lane, k: nat, b: nat, limit: nat)
    requires k > 0 && t !in s.tasks
    ensures var s' := Next(Next(s, FetchSettle(t, owner, lane, k, b, limit)), Commit(t));
            s'.tasks == s.tasks && s'.db == SettleDb(s.db, s.db.rows, Batch(s.db, lane, k, b, limit), lane)
  {
    var s1 := Next(s, FetchSettle(t, owner, lane, k, b, limit));
    assert s1.tasks - {t} == s.tasks;
  }

  lemma SettledPays(a: Account, rows: seq<Row>, ids: set<nat>, u: nat, lane: Lane)
    requires forall i :: i in ids && i < |rows| ==> rows[i].cost > 0
    ensures PaidBy(a, Billed(a, rows, ids, u, lane), Total(rows, ids, u), lane)
  {
    TotalNonNegative(rows, ids, u);
    WhoPays(a, Owed(rows, ids, u), Parts(rows, ids, u, |a.scoped|), lane);
  }

  /** The balance lane takes all from the main balance, the temporary lane empties the global pool first. */
  ghost predicate PaidBy(a: Account, b: Account, total: int, lane: Lane) {
    && b.Funds() == a.Funds() - total
    && (lane == BalanceLane ==> b.temp == a.temp && b.scoped == a.scoped)
    && (lane == TempLane && 0 < Fefo.Sum(a.temp) ==>
          b.scoped == a.scoped && Fefo.Sum(b.temp) == Max(Fefo.Sum(a.temp) - total, 0))
    && (lane == TempLane && Fefo.Sum(a.temp) == 0 ==> b.temp == a.temp)
  }

  /** A sweep takes exactly the free priced rows of its window out of the cursor and moves no money. */
  lemma SweepTakesEffect(s: Sys, t: nat, owner: nat, limit: nat)
    requires t !in s.tasks
    ensures var s' := Next(Next(s, FetchSweep(t, owner, limit)), Commit(t));
            && s'.tasks == s.tasks && s'.db.accounts == s.db.accounts && |s'.db.rows| == |s.db.rows|
            && forall i :: 0 <= i < |s.db.rows| ==>
                 s'.db.rows[i] ==
                 if i in UnbilledBatch(s.db.rows, limit) && s.db.rows[i].cost <= 0
                    && !Marker.IsNoPrice(s.db.rows[i].tier)
                 then s.db.rows[i].(billed := true, uncharged := true) else s.db.rows[i]
  {
    var s1 := Next(s, FetchSweep(t, owner, limit));
    assert s1.tasks - {t} == s.tasks;
  }

  /** A recovery writes its charges into the rows it named and moves no money. */
  lemma RepriceTakesEffect(s: Sys, t: nat, owner: nat, limit: nat, costs: map<nat, nat>)
    requires t !in s.tasks && costs.Keys <= UnpricedBatch(s.db.rows, limit)
    ensures var s' := Next(Next(s, FetchReprice(t, owner, limit, costs)), Commit(t));
            && s'.tasks == s.tasks && s'.db.accounts == s.db.accounts && |s'.db.rows| == |s.db.rows|
            && forall i :: 0 <= i < |s.db.rows| ==>
                 s'.db.rows[i] ==
                 if i in costs
                 then s.db.rows[i].(tier := Marker.RecoveryTier(s.db.rows[i].tier), cost := costs[i])
                 else s.db.rows[i]
  {
    var s1 := Next(s, FetchReprice(t, owner, limit, costs));
    assert s1.tasks - {t} == s.tasks;
    assert forall i :: i in costs ==> i in UnpricedBatch(s.db.rows, limit);
  }

  /** Rows are only appended, marked, or repriced while they wait for a price; a billed row never changes again. */
  ghost predicate Evolve(a: seq<Row>, b: seq<Row>) {
    && |a| <= |b|
    && forall i :: 0 <= i < |a| ==>
         && b[i].user == a[i].user && (a[i].billed ==> b[i] == a[i])
         && (!Marker.IsNoPrice(a[i].tier) ==> b[i].cost == a[i].cost && b[i].tier == a[i].tier)
  }

  lemma EvolveKeepsWork(a: seq<Row>, b: seq<Row>, w: Work)
    requires RowsOk(a) && Evolve(a, b) && WorkOk(a, w)
    ensures WorkOk(b, w)
  {
    if w.Settling? {
      forall i | i in w.ids
        ensures b[i].cost == w.seen[i].cost && b[i].user == w.seen[i].user
      {
        assert RowOk(a[i]);
      }
    }
  }

  lemma CommitEvolves(db: Db, w: Work)
    ensures Evolve(db.rows, CommitWork(db, w).rows)
  {
  }

  lemma CommitKeepsRows(db: Db, w: Work)
    requires RowsOk(db.rows) && WorkOk(db.rows, w)
    ensures RowsOk(CommitWork(db, w).rows)
  {
    var rows := CommitWork(db, w).rows;
    forall i | 0 <= i < |rows|
      ensures RowOk(rows[i])
    {
      assert RowOk(db.rows[i]);
    }
  }

  /** The guard makes every commit move exactly the money its rows say. */
  lemma CommitBalances(s: Sys, w: Work, u: nat)
    requires RowsOk(s.db.rows) && WorkOk(s.db.rows, w) && Balanced(s, u)
    ensures Balanced(s.(db := CommitWork(s.db, w)), u)
  {
    match w
    case Settling(lane, _, _, seen, ids) =>
      if StillUnbilled(s.db.rows, ids) {
        TotalAgrees(seen, s.db.rows, ids, u);
        TotalNonNegative(s.db.rows, ids, u);
        SettleSum(s.db.rows, ids, s.db.accounts.Keys, u);
      }
    case Isolating(_, _, _, head) => MarkSum(s.db.rows, {head}, u);
    case Sweeping(ids) => MarkSum(s.db.rows, ids, u);
    case Repricing(costs) => RepriceSum(s.db.rows, costs, u);
  }

  lemma CommitKeeps(s: Sys, e: Event)
    requires Inv(s) && e.Commit? && e.t in s.tasks
    ensures Inv(Next(s, e))
  {
    var s', w := Next(s, e), s.tasks[e.t].work;
    CommitKeepsRows(s.db, w);
    CommitEvolves(s.db, w);
    forall t | t in s'.tasks
      ensures WorkOk(s'.db.rows, s'.tasks[t].work)
    {
      EvolveKeepsWork(s.db.rows, s'.db.rows, s.tasks[t].work);
    }
    forall u
      ensures Balanced(s', u)
    {
      assert Balanced(s, u);
      CommitBalances(s, w, u);
    }
  }

  lemma ArriveKeeps(s: Sys, e: Event)
    requires Inv(s) && e.Arrive? && WellBorn(e.row)
    ensures Inv(Next(s, e))
  {
    var s' := Next(s, e);
    forall t | t in s'.tasks
      ensures WorkOk(s'.db.rows, s'.tasks[t].work)
    {
      EvolveKeepsWork(s.db.rows, s'.db.rows, s.tasks[t].work);
    }
    forall u
      ensures Balanced(s', u)
    {
      assert Balanced(s, u);
      AppendSum(s.db.rows, e.row, u);
    }
  }

  lemma FundsKeep(s: Sys, e: Event)
    requires Inv(s) && (e.Credit? || e.Regrant?)
    ensures Inv(Next(s, e))
  {
    var s' := Next(s, e);
    forall u
      ensures Balanced(s', u)
    {
      assert Balanced(s, u);
    }
  }

  lemma FetchKeeps(s: Sys, e: Event)
    requires Inv(s) && !(e.Commit? || e.Arrive? || e.Credit? || e.Regrant?)
    ensures Inv(Next(s, e))
  {
    var s' := Next(s, e);
    assert s'.db == s.db && s'.credits == s.credits;
    forall u
      ensures Balanced(s', u)
    {
      assert Balanced(s, u);
    }
  }

  lemma {:induction false} RunInv(es: seq<Event>)
    ensures Inv(Run(es))
  {
    if es != [] {
      var s, e := Run(es[..|es| - 1]), es[|es| - 1];
      RunInv(es[..|es| - 1]);
      match e
      case Commit(t) => if t in s.tasks { CommitKeeps(s, e); }
      case Arrive(row) => if WellBorn(row) { ArriveKeeps(s, e); }
      case Credit(_, _) => FundsKeep(s, e);
      case Regrant(_, _, _) => FundsKeep(s, e);
      case _ => FetchKeeps(s, e);
    }
  }

  // ----- Exactly once -----

  /**
    After any run, by any number of instances, with or without the lock: no row
    was charged twice, a row was charged exactly when it is billed with a
    deduction, and every user's funds are what was paid in minus the cost of
    exactly those rows.
   */
  lemma ExactlyOnceConservation(es: seq<Event>, u: nat, i: nat)
    ensures var s := Run(es);
            && AccountOf(s.db, u).Funds() == CreditOf(s, u) - ChargedSum(s.db.rows, u)
            && (i < |s.db.rows| ==>
                  && s.db.rows[i].charges <= 1
                  && (s.db.rows[i].charges == 1 <==>
                        s.db.rows[i].billed && !s.db.rows[i].uncharged && s.db.rows[i].cost > 0))
  {
    RunInv(es);
    var s := Run(es);
    assert Balanced(s, u);
    if i < |s.db.rows| {
      assert RowOk(s.db.rows[i]);
    }
  }

  /** Whatever happens between its read and its mark, the sweep takes only free rows that wait for no price. */
  lemma SweepTakesOnlyFreeRows(es: seq<Event>, t: nat, i: nat)
    ensures var s := Run(es);
            t in s.tasks && s.tasks[t].work.Sweeping? && i < |s.db.rows|
            && !s.db.rows[i].billed && Next(s, Commit(t)).db.rows[i].billed
            ==> s.db.rows[i].cost <= 0 && !Marker.IsNoPrice(s.db.rows[i].tier)
  {
    RunInv(es);
    var s := Run(es);
    if t in s.tasks {
      assert WorkOk(s.db.rows, s.tasks[t].work);
    }
  }

  lemma NextEvolves(s: Sys, e: Event)
    ensures Evolve(s.db.rows, Next(s, e).db.rows)
  {
    if e.Commit? && e.t in s.tasks {
      CommitEvolves(s.db, s.tasks[e.t].work);
    }
  }

  lemma EvolveTransitive(a: seq<Row>, b: seq<Row>, c: seq<Row>)
    requires Evolve(a, b) && Evolve(b, c)
    ensures Evolve(a, c)
  {
  }

  /** Over any continuation, a billed row is final and a priced row keeps its price. */
  lemma {:induction false} BilledIsFinal(es: seq<Event>, more: seq<Event>)
    ensures Evolve(Run(es).db.rows, Run(es + more).db.rows)
  {
    if more == [] {
      assert es + more == es;
    } else {
      var before, e := more[..|more| - 1], more[|more| - 1];
      BilledIsFinal(es, before);
      assert (es + more)[..|es + more| - 1] == es + before;
      var s := Run(es + before);
      assert Run(es + more) == Next(s, e);
      NextEvolves(s, e);
      EvolveTransitive(Run(es).db.rows, s.db.rows, Next(s, e).db.rows);
    }
  }

  // ----- What the lock adds -----

  predicate LaneTask(w: Work) { w.Settling? || w.Isolating? }

  /** Tasks of one lane round share lane and K and have different buckets. */
  predicate SameRound(w: Work, lane: Lane, k: nat, bucket: nat) {
    LaneTask(w) && w.lane == lane && w.k == k && w.bucket != bucket
  }

  /**
    One cycle at a time: work starts only for the holder of the lock, lanes run
    one after the other with K buckets each, sweeps and reprices run alone, and
    the lock is released only when the cycle's work is done.
   */
  predicate Locked(s: Sys, e: Event) {
    match e
    case FetchSettle(_, owner, lane, k, bucket, _) =>
      s.holder == Some(owner) && k > 0 && forall t :: t in s.tasks ==> SameRound(s.tasks[t].work, lane, k, bucket)
    case ProbeHead(_, owner, lane, k, bucket, _) =>
      s.holder == Some(owner) && k > 0 && forall t :: t in s.tasks ==> SameRound(s.tasks[t].work, lane, k, bucket)
    case FetchSweep(_, owner, _) => s.holder == Some(owner) && s.tasks == map[]
    case FetchReprice(_, owner, _, _) => s.holder == Some(owner) && s.tasks == map[]
    case Release(i) => s.tasks == map[]
    case _ => true
  }

  predicate LockedRun(es: seq<Event>) {
    forall n :: 0 <= n < |es| ==> Locked(Run(es[..n]), es[n])
  }

  /** A task's own rows are still open and belong to its bucket. */
  ghost predicate Undisturbed(rows: seq<Row>, w: Work) {
    match w
    case Settling(_, k, bucket, _, ids) => k > 0 && forall i :: i in ids ==>
        i < |rows| && !rows[i].billed && rows[i].user % k == bucket
    case Isolating(_, k, bucket, head) => k > 0 && head < |rows| && rows[head].user % k == bucket
    case _ => true
  }

  ghost predicate Orderly(s: Sys) {
    && (forall t :: t in s.tasks ==> s.holder == Some(s.tasks[t].owner) && Undisturbed(s.db.rows, s.tasks[t].work))
    && (forall t, t' :: t in s.tasks && t' in s.tasks && t != t' ==>
          LaneTask(s.tasks[t].work) && LaneTask(s.tasks[t'].work)
          && SameRound(s.tasks[t].work, s.tasks[t'].work.lane, s.tasks[t'].work.k, s.tasks[t'].work.bucket))
  }

  /** A bucket's commit touches only rows of its own users. */
  lemma CommitUndisturbing(db: Db, w: Work, w': Work)
    requires RowsOk(db.rows) && LaneTask(w) && LaneTask(w') && SameRound(w', w.lane, w.k, w.bucket)
    requires Undisturbed(db.rows, w) && Undisturbed(db.rows, w')
    ensures Undisturbed(CommitWork(db, w).rows, w')
  {
  }

  lemma CommitOrderly(s: Sys, e: Event)
    requires RowsOk(s.db.rows) && Orderly(s) && e.Commit? && e.t in s.tasks
    ensures Orderly(Next(s, e))
  {
    var s' := Next(s, e);
    forall t | t in s'.tasks
      ensures Undisturbed(s'.db.rows, s'.tasks[t].work)
    {
      CommitUndisturbing(s.db, s.tasks[e.t].work, s.tasks[t].work);
    }
  }

  lemma AddTaskOrderly(s: Sys, t: nat, task: Task)
    requires Orderly(s) && s.holder == Some(task.owner) && Undisturbed(s.db.rows, task.work)
    requires s.tasks == map[] || (LaneTask(task.work) &&
               forall t' :: t' in s.tasks ==> SameRound(s.tasks[t'].work, task.work.lane, task.work.k,
                                                        task.work.bucket))
    ensures Orderly(WithTask(s, t, task))
  {
  }

  lemma FetchOrderly(s: Sys, e: Event)
    requires Orderly(s) && Locked(s, e) && (e.FetchSettle? || e.ProbeHead? || e.FetchSweep? || e.FetchReprice?)
    ensures Orderly(Next(s, e))
  {
    var s' := Next(s, e);
    if s' != s {
      AddTaskOrderly(s, e.t, s'.tasks[e.t]);
    }
  }

  lemma QuietOrderly(s: Sys, e: Event)
    requires Orderly(s) && Locked(s, e)
    requires e.Arrive? || e.Credit? || e.Regrant? || e.Acquire? || e.Release? || e.Rollback?
    ensures Orderly(Next(s, e))
  {
  }

  lemma NextOrderly(s: Sys, e: Event)
    requires RowsOk(s.db.rows) && Orderly(s) && Locked(s, e)
    ensures Orderly(Next(s, e))
  {
    if e.Commit? {
      if e.t in s.tasks { CommitOrderly(s, e); }
    } else if e.FetchSettle? || e.ProbeHead? || e.FetchSweep? || e.FetchReprice? {
      FetchOrderly(s, e);
    } else {
      QuietOrderly(s, e);
    }
  }

  lemma {:induction false} LockedRunOrderly(es: seq<Event>)
    requires LockedRun(es)
    ensures Orderly(Run(es))
  {
    if es != [] {
      var before := es[..|es| - 1];
      assert forall n :: 0 <= n < |before| ==> before[..n] == es[..n] && before[n] == es[n];
      LockedRunOrderly(before);
      RunInv(before);
      assert Locked(Run(es[..|es| - 1]), es[|es| - 1]);
      NextOrderly(Run(before), es[|es| - 1]);
    }
  }

  /** Under the lock the guard never fires: no settlement is rolled back because somebody else marked its rows. */
  lemma LockPreventsConcurrentMarks(es: seq<Event>, t: nat)
    requires LockedRun(es) && t in Run(es).tasks && Run(es).tasks[t].work.Settling?
    ensures StillUnbilled(Run(es).db.rows, Run(es).tasks[t].work.ids)
  {
    LockedRunOrderly(es);
    assert Undisturbed(Run(es).db.rows, Run(es).tasks[t].work);
  }

  /** Without it the guard is needed: two instances can hold the same batch. */
  lemma UnlockedBatchesOverlap() returns (es: seq<Event>)
    ensures var s := Run(es);
            0 in s.tasks && 1 in s.tasks && s.tasks[0].work == s.tasks[1].work && s.tasks[0].work.Settling?
              && 0 in s.tasks[0].work.ids
  {
    var row := Row(1, None, 5, "auto", true, false, false, 0);
    assert !Marker.IsNoPrice("auto") by { assert "auto"[0] != Marker.NO_PRICE[0]; }
    var e0, e1, e2 := Arrive(row), FetchSettle(0, 0, BalanceLane, 1, 0, 10), FetchSettle(1, 1, BalanceLane, 1, 0, 10);
    var s1 := Next(Init(), e0);
    assert s1.db == Db([row], map[]) && Settleable(s1.db, BalanceLane, 1, 0, 0);
    es := [e0, e1, e2];
    assert [e0][..0] == [] && es[..2][..1] == [e0];
    assert Run([e0]) == s1;
    assert Run(es[..2]) == Next(s1, e1);
  }
}
