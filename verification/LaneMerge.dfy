/**
  One lane of drain.go: K bucket goroutines that size, settle, report and merge in any
  interleaving. Each goroutine is a phase; each step below is one of its atomic actions.
 */
module LaneMerge {
  import opened Arithmetic
  import opened Ledger
  import opened Drain
  import opened Batching
  import opened LedgerParallel
  import Marker

  /** settleParallelism. */
  const BUCKETS := 4

  /** A written-off head row: it left the cursor, nobody was charged. */
  const ISOLATED := Summary(0, 0, 0, 1, 1, map[])

  /** One bucket's settle call: the size it read, its error, and whether it wrote its head row off. */
  datatype Call = Call(limit: nat, err: Err, isolated: bool)

  function ActOf(c: Call): Act {
    if c.err != NoErr then Nothing else if c.isolated then HeadRow else Window(c.limit)
  }

  /** What the call returns on a ledger. */
  function ActSummary(db: Db, lane: Lane, k: nat, b: nat, act: Act): Summary
    requires k > 0
  {
    match act
    case Nothing => NOTHING
    case Window(limit) => SummaryOf(db, Batch(db, lane, k, b, limit), lane)
    case HeadRow => ISOLATED
  }

  /** A row can be written off only if there is one. */
  predicate Possible(db: Db, lane: Lane, k: nat, b: nat, act: Act)
    requires k > 0
  {
    act.HeadRow? ==> Batch(db, lane, k, b, 1) != {}
  }

  // ----- One call -----

  /** `told` is right about u: it names the new balance, or the balance did not move. */
  ghost predicate Tells(before: int, now: int, told: map<nat, int>, u: nat) {
    if u in told then told[u] == now else now == before
  }

  /** `marked` rows of progress; the summary is right about every user and names only its bucket's. */
  ghost predicate Sound(a: Db, b: Db, k: nat, bucket: nat, s: Summary)
    requires k > 0
  {
    && Progress(a, b, s.marked)
    && (forall u :: u in s.balances ==> u in a.accounts && u % k == bucket)
    && (forall u {:trigger b.accounts[u]} :: u in a.accounts ==>
         Tells(a.accounts[u].balance, b.accounts[u].balance, s.balances, u))
  }

  lemma SpillElsewhere(db: Db, lane: Lane, k: nat, b: nat, limit: nat, u: nat)
    requires k > 0 && u in db.accounts && u % k != b
    ensures SpillOf(db, Batch(db, lane, k, b, limit), lane, u) == 0
  {
    var ids := Batch(db, lane, k, b, limit);
    BilledNothing(db.accounts[u], db.rows, ids, u, lane);
  }

  lemma WindowIsSound(a: Db, lane: Lane, k: nat, bucket: nat, limit: nat)
    requires k > 0 && RowsOk(a.rows)
    ensures Sound(a, Perform(a, lane, k, bucket, Window(limit)), k, bucket,
                  ActSummary(a, lane, k, bucket, Window(limit)))
  {
    var ids := Batch(a, lane, k, bucket, limit);
    var b, s := SettleDb(a, a.rows, ids, lane), SummaryOf(a, ids, lane);
    SettleProgress(a, ids, lane);
    forall u | u in a.accounts ensures Tells(a.accounts[u].balance, b.accounts[u].balance, s.balances, u) {
      SummaryTellsBalances(a, ids, lane, u);
    }
    forall u | u in a.accounts && u % k != bucket ensures u !in s.balances {
      SpillElsewhere(a, lane, k, bucket, limit, u);
    }
  }

  lemma HeadRowIsSound(a: Db, lane: Lane, k: nat, bucket: nat)
    requires k > 0 && RowsOk(a.rows) && Batch(a, lane, k, bucket, 1) != {}
    ensures Sound(a, Perform(a, lane, k, bucket, HeadRow), k, bucket, ISOLATED)
  {
    var ids := Batch(a, lane, k, bucket, 1);
    forall i | i in ids ensures !Marker.IsNoPrice(a.rows[i].tier) {
      assert RowOk(a.rows[i]);
    }
    MarkProgress(a, ids);
  }

  lemma ActIsSound(a: Db, lane: Lane, k: nat, b: nat, act: Act)
    requires k > 0 && RowsOk(a.rows) && Possible(a, lane, k, b, act)
    ensures Sound(a, Perform(a, lane, k, b, act), k, b, ActSummary(a, lane, k, b, act))
  {
    match act
    case Nothing => ProgressFromNothing(a);
    case Window(limit) => WindowIsSound(a, lane, k, b, limit);
    case HeadRow => HeadRowIsSound(a, lane, k, b);
  }

  // ----- What other buckets do does not show in a call's summary -----

  lemma SameSpill(a: Db, c: Db, lane: Lane, k: nat, b: nat, limit: nat, u: nat)
    requires k > 0 && SameFor(a, c, k, b) && u in a.accounts
    ensures SpillOf(a, Batch(a, lane, k, b, limit), lane, u) == SpillOf(c, Batch(a, lane, k, b, limit), lane, u)
  {
    SameBatch(a, c, lane, k, b, limit);
    if u % k == b {
      SameOwed(a.rows, c.rows, Batch(a, lane, k, b, limit), u, |a.accounts[u].scoped|);
    } else {
      SpillElsewhere(a, lane, k, b, limit, u);
      SpillElsewhere(c, lane, k, b, limit, u);
    }
  }

  /** Every user spills the same in both ledgers, and who spills has the same account. */
  ghost predicate SameSpills(a: Db, c: Db, ids: set<nat>, lane: Lane) {
    && a.accounts.Keys == c.accounts.Keys
    && forall u {:trigger SpillOf(a, ids, lane, u)} {:trigger SpillOf(c, ids, lane, u)} :: u in a.accounts ==>
         SpillOf(a, ids, lane, u) == SpillOf(c, ids, lane, u)
           && (SpillOf(a, ids, lane, u) != 0 ==> a.accounts[u] == c.accounts[u])
  }

  lemma BucketSpillsSame(a: Db, c: Db, lane: Lane, k: nat, b: nat, limit: nat)
    requires k > 0 && SameFor(a, c, k, b)
    ensures SameSpills(a, c, Batch(a, lane, k, b, limit), lane)
  {
    forall u | u in a.accounts
      ensures var ids := Batch(a, lane, k, b, limit);
              SpillOf(a, ids, lane, u) == SpillOf(c, ids, lane, u)
                && (SpillOf(a, ids, lane, u) != 0 ==> a.accounts[u] == c.accounts[u])
    {
      SameSpill(a, c, lane, k, b, limit, u);
      if u % k != b {
        SpillElsewhere(a, lane, k, b, limit, u);
      }
    }
  }

  lemma SameDebtors(a: Db, c: Db, ids: set<nat>, lane: Lane)
    requires SameSpills(a, c, ids, lane)
    ensures Debtors(a, ids, lane) == Debtors(c, ids, lane) && Solvent(a, ids, lane) == Solvent(c, ids, lane)
  {
  }

  lemma SameBalances(a: Db, c: Db, ids: set<nat>, lane: Lane)
    requires SameSpills(a, c, ids, lane)
    ensures BalancesAfter(a, ids, lane) == BalancesAfter(c, ids, lane)
  {
    SameDebtors(a, c, ids, lane);
    var x, y := BalancesAfter(a, ids, lane), BalancesAfter(c, ids, lane);
    forall u | u in x ensures x[u] == y[u] {
      assert SpillOf(a, ids, lane, u) == SpillOf(c, ids, lane, u);
    }
  }

  lemma SameSummary(a: Db, c: Db, lane: Lane, k: nat, b: nat, act: Act)
    requires k > 0 && SameFor(a, c, k, b)
    ensures ActSummary(a, lane, k, b, act) == ActSummary(c, lane, k, b, act)
    ensures Possible(a, lane, k, b, act) <==> Possible(c, lane, k, b, act)
  {
    SameBatch(a, c, lane, k, b, 1);
    if act.Window? {
      var ids := Batch(a, lane, k, b, act.limit);
      SameBatch(a, c, lane, k, b, act.limit);
      BucketSpillsSame(a, c, lane, k, b, act.limit);
      SameDebtors(a, c, ids, lane);
      SameBalances(a, c, ids, lane);
      assert Ghosts(a, ids) == Ghosts(c, ids);
    }
  }

  // ----- Phases -----

  /** Where one bucket goroutine stands, with what its settle call returned. */
  datatype Phase =
    | Ready
    | Sized(limit: int)
    | Settled(limit: int, summary: Summary, err: Err)
    | Observed(summary: Summary, err: Err)
    | Merged

  function StepsLeft(p: Phase): nat {
    match p
    case Ready => 4
    case Sized(_) => 3
    case Settled(_, _, _) => 2
    case Observed(_, _) => 1
    case Merged => 0
  }

  /** Rows a bucket has committed but not yet merged. */
  function InHand(p: Phase): nat {
    if p.Settled? || p.Observed? then p.summary.marked else 0
  }

  function AllInHand(ps: seq<Phase>): nat {
    if ps == [] then 0 else AllInHand(ps[..|ps| - 1]) + InHand(ps[|ps| - 1])
  }

  function AllStepsLeft(ps: seq<Phase>): nat {
    if ps == [] then 0 else AllStepsLeft(ps[..|ps| - 1]) + StepsLeft(ps[|ps| - 1])
  }

  lemma {:induction false} UpdatePhase(ps: seq<Phase>, b: nat, p: Phase)
    requires b < |ps|
    ensures AllInHand(ps[b := p]) == AllInHand(ps) - InHand(ps[b]) + InHand(p)
    ensures AllStepsLeft(ps[b := p]) == AllStepsLeft(ps) - StepsLeft(ps[b]) + StepsLeft(p)
  {
    var n := |ps| - 1;
    if b < n {
      UpdatePhase(ps[..n], b, p);
      assert ps[b := p][..n] == ps[..n][b := p];
    } else {
      assert ps[b := p][..n] == ps[..n];
    }
  }

  lemma {:induction false} NothingInHand(ps: seq<Phase>)
    requires forall b :: 0 <= b < |ps| ==> InHand(ps[b]) == 0
    ensures AllInHand(ps) == 0
  {
    if ps != [] {
      NothingInHand(ps[..|ps| - 1]);
    }
  }

  // ----- The lane invariant -----

  /** The calls made so far, one slot for each bucket. */
  type Calls = seq<Option<Call>>

  function Acts(calls: Calls): (r: seq<Act>)
    ensures |r| == |calls|
  {
    seq(|calls|, b requires 0 <= b < |calls| => if calls[b].Some? then ActOf(calls[b].value) else Nothing)
  }

  predicate TimedOut(calls: Calls) {
    exists b :: 0 <= b < |calls| && calls[b].Some? && calls[b].value.err == DeadlineExceeded
  }

  /** What bucket b contributes: the summary its call returns alone on the starting ledger; nothing if it failed. */
  function Answer(start: Db, lane: Lane, b: nat, call: Option<Call>): Option<Summary> {
    if call.Some? && call.value.err == NoErr then Some(ActSummary(start, lane, BUCKETS, b, ActOf(call.value))) else None
  }

  /** Phase, recorded call and merged answer of one bucket fit together. */
  ghost predicate BucketOk(start: Db, lane: Lane, b: nat, p: Phase, call: Option<Call>, result: Option<Summary>) {
    && (call.Some? ==> call.value.limit > 0 && Possible(start, lane, BUCKETS, b, ActOf(call.value)))
    && match p
       case Ready => call == None && result == None
       case Sized(limit) => call == None && result == None && limit > 0
       case Settled(limit, s, err) =>
         call.Some? && call.value.limit == limit && call.value.err == err && result == None
         && s == ActSummary(start, lane, BUCKETS, b, ActOf(call.value))
       case Observed(s, err) =>
         call.Some? && call.value.err == err && result == None
           && s == ActSummary(start, lane, BUCKETS, b, ActOf(call.value))
       case Merged => call.Some? && result == Answer(start, lane, b, call)
  }

  /** The merged pairs are those of the merged buckets. */
  ghost predicate Told(results: seq<Option<Summary>>, merged: map<nat, int>, u: nat)
    requires |results| == BUCKETS
  {
    var r := results[u % BUCKETS];
    if r.Some? && u in r.value.balances then u in merged && merged[u] == r.value.balances[u] else u !in merged
  }

  /** The total is the sum of the merged answers. */
  ghost predicate Tally(total: Summary, results: seq<Option<Summary>>) {
    && |results| == BUCKETS
    && (forall c {:trigger Count(total, c)} :: Count(total, c) == SumBy(results, c))
    && (forall u: nat {:trigger Told(results, total.balances, u)} :: Told(results, total.balances, u))
  }

  ghost predicate Slots(start: Db, lane: Lane, ps: seq<Phase>, calls: Calls, results: seq<Option<Summary>>) {
    && |ps| == |calls| == |results| == BUCKETS
    && forall b {:trigger ps[b]} :: 0 <= b < BUCKETS ==> BucketOk(start, lane, b, ps[b], calls[b], results[b])
  }

  ghost predicate LaneInv(start: Db, lane: Lane, now: Db, ps: seq<Phase>, calls: Calls, total: Summary,
                          results: seq<Option<Summary>>) {
    && Slots(start, lane, ps, calls, results)
    && Joined(start, lane, BUCKETS, Acts(calls), now)
    && Progress(start, now, total.marked + AllInHand(ps))
    && Tally(total, results)
  }

  lemma LaneStarts(start: Db, lane: Lane, ps: seq<Phase>, calls: Calls)
    requires RowsOk(start.rows) && |ps| == |calls| == BUCKETS
    requires forall b :: 0 <= b < BUCKETS ==> ps[b] == Ready && calls[b] == None
    ensures LaneInv(start, lane, start, ps, calls, NOTHING, Unanswered(BUCKETS))
  {
    NothingInHand(ps);
    ProgressFromNothing(start);
    JoinedNothing(start, lane, BUCKETS);
    assert Acts(calls) == Idle(BUCKETS);
    forall c ensures Count(NOTHING, c) == SumBy(Unanswered(BUCKETS), c) {
      SumByNone(BUCKETS, c);
    }
  }

  /** lim := ctl.limit(), or observe: no ledger effect, the summary is carried along. */
  lemma BucketMoves(start: Db, lane: Lane, now: Db, ps: seq<Phase>, calls: Calls, total: Summary,
                    results: seq<Option<Summary>>,
                    b: nat, p: Phase)
    requires LaneInv(start, lane, now, ps, calls, total, results) && b < BUCKETS
    requires
      || (ps[b] == Ready && p.Sized? && p.limit > 0)
      || (ps[b].Settled? && p == Observed(ps[b].summary, ps[b].err))
    ensures LaneInv(start, lane, now, ps[b := p], calls, total, results)
  {
    UpdatePhase(ps, b, p);
  }

  /** A settle call came back, while other buckets are anywhere in their own work. */
  lemma BucketCalls(start: Db, lane: Lane, now: Db, ps: seq<Phase>, calls: Calls, total: Summary,
                    results: seq<Option<Summary>>,
                    b: nat, call: Call)
    requires LaneInv(start, lane, now, ps, calls, total, results)
    requires b < BUCKETS && ps[b].Sized? && call.limit == ps[b].limit && Possible(now, lane, BUCKETS, b, ActOf(call))
    ensures var s := ActSummary(now, lane, BUCKETS, b, ActOf(call));
            LaneInv(start, lane, Perform(now, lane, BUCKETS, b, ActOf(call)), ps[b := Settled(call.limit, s, call.err)],
                    calls[b := Some(call)], total, results)
  {
    var act, next := ActOf(call), Perform(now, lane, BUCKETS, b, ActOf(call));
    var s := ActSummary(now, lane, BUCKETS, b, act);
    assert BucketOk(start, lane, b, ps[b], calls[b], results[b]);
    assert Acts(calls)[b] == Nothing && Acts(calls[b := Some(call)]) == Acts(calls)[b := act];
    JoinedStep(start, lane, BUCKETS, Acts(calls), now, b, act);
    JoinedSame(start, lane, BUCKETS, Acts(calls), now, b);
    SameSummary(start, now, lane, BUCKETS, b, act);
    SlotCalls(start, lane, ps, calls, results, b, call, s);
    CallProgress(start, lane, now, b, act, total.marked + AllInHand(ps));
    UpdatePhase(ps, b, Settled(call.limit, s, call.err));
  }

  lemma SlotCalls(start: Db, lane: Lane, ps: seq<Phase>, calls: Calls, results: seq<Option<Summary>>, b: nat,
                  call: Call, s: Summary)
    requires Slots(start, lane, ps, calls, results) && b < BUCKETS && ps[b].Sized? && call.limit == ps[b].limit
    requires Possible(start, lane, BUCKETS, b, ActOf(call)) && s == ActSummary(start, lane, BUCKETS, b, ActOf(call))
    ensures Slots(start, lane, ps[b := Settled(call.limit, s, call.err)], calls[b := Some(call)], results)
  {
    assert BucketOk(start, lane, b, ps[b], calls[b], results[b]);
  }

  lemma CallProgress(start: Db, lane: Lane, now: Db, b: nat, act: Act, n: nat)
    requires Progress(start, now, n) && Possible(now, lane, BUCKETS, b, act)
    ensures Progress(start, Perform(now, lane, BUCKETS, b, act), n + ActSummary(now, lane, BUCKETS, b, act).marked)
  {
    ActIsSound(now, lane, BUCKETS, b, act);
    ProgressTransitive(start, now, Perform(now, lane, BUCKETS, b, act), n,
                       ActSummary(now, lane, BUCKETS, b, act).marked);
  }

  /** The mutex-protected merge of a bucket that succeeded. */
  lemma BucketMerges(start: Db, lane: Lane, now: Db, ps: seq<Phase>, calls: Calls, total: Summary,
                     results: seq<Option<Summary>>, b: nat)
    requires LaneInv(start, lane, now, ps, calls, total, results) && b < BUCKETS && ps[b].Observed?
             && ps[b].err == NoErr
    ensures LaneInv(start, lane, now, ps[b := Merged], calls, Merge(total, ps[b].summary),
                    results[b := Some(ps[b].summary)])
  {
    var s := ps[b].summary;
    assert BucketOk(start, lane, b, ps[b], calls[b], results[b]);
    UpdatePhase(ps, b, Merged);
    SummaryNamesOwn(start, lane, b, ActOf(calls[b].value));
    TallyMerges(total, results, b, s);
  }

  lemma SummaryNamesOwn(db: Db, lane: Lane, b: nat, act: Act)
    ensures forall u :: u in ActSummary(db, lane, BUCKETS, b, act).balances ==> u % BUCKETS == b
  {
    if act.Window? {
      forall u | u in db.accounts && u % BUCKETS != b ensures u !in ActSummary(db, lane, BUCKETS, b, act).balances {
        SpillElsewhere(db, lane, BUCKETS, b, act.limit, u);
      }
    }
  }

  lemma TallyMerges(total: Summary, results: seq<Option<Summary>>, b: nat, s: Summary)
    requires Tally(total, results) && b < BUCKETS && results[b] == None && forall u :: u in s.balances ==>
               u % BUCKETS == b
    ensures Tally(Merge(total, s), results[b := Some(s)])
  {
    forall c ensures Count(Merge(total, s), c) == SumBy(results[b := Some(s)], c) {
      SumByUpdate(results, b, s, c);
      assert Count(total, c) == SumBy(results, c);
    }
    var rs, told := results[b := Some(s)], Merge(total, s).balances;
    forall u: nat ensures Told(rs, told, u) {
      assert Told(results, total.balances, u);
    }
  }

  /** A bucket that failed adds nothing. */
  lemma BucketDropsOut(start: Db, lane: Lane, now: Db, ps: seq<Phase>, calls: Calls, total: Summary,
                       results: seq<Option<Summary>>, b: nat)
    requires LaneInv(start, lane, now, ps, calls, total, results) && b < BUCKETS && ps[b].Observed?
             && ps[b].err != NoErr
    ensures LaneInv(start, lane, now, ps[b := Merged], calls, total, results)
  {
    assert BucketOk(start, lane, b, ps[b], calls[b], results[b]);
    UpdatePhase(ps, b, Merged);
  }

  // ----- The end of the lane -----

  /**
    What a lane that ran from start to now has done: every bucket made one call, the ledger is the one
    these calls make of the start in whatever order, and the total is the sum of the successful answers.
   */
  ghost predicate LaneDone(start: Db, lane: Lane, now: Db, calls: Calls, total: Summary) {
    && |calls| == BUCKETS
    && (forall b {:trigger calls[b]} :: 0 <= b < BUCKETS ==>
         calls[b].Some? && calls[b].value.limit > 0 && Possible(start, lane, BUCKETS, b, ActOf(calls[b].value)))
    && Joined(start, lane, BUCKETS, Acts(calls), now)
    && Tally(total, Answers(start, lane, calls))
  }

  function Answers(start: Db, lane: Lane, calls: Calls): (r: seq<Option<Summary>>)
    ensures |r| == |calls|
  {
    seq(|calls|, b requires 0 <= b < |calls| => Answer(start, lane, b, calls[b]))
  }

  lemma LaneEnds(start: Db, lane: Lane, now: Db, ps: seq<Phase>, calls: Calls, total: Summary,
                 results: seq<Option<Summary>>)
    requires RowsOk(start.rows) && LaneInv(start, lane, now, ps, calls, total, results)
    requires forall b :: 0 <= b < BUCKETS ==> ps[b] == Merged
    ensures LaneDone(start, lane, now, calls, total) && Progress(start, now, total.marked)
  {
    NothingInHand(ps);
    forall b | 0 <= b < BUCKETS
      ensures calls[b].Some? && calls[b].value.limit > 0 && Possible(start, lane, BUCKETS, b, ActOf(calls[b].value))
              && results[b] == Answer(start, lane, b, calls[b])
    {
      assert BucketOk(start, lane, b, ps[b], calls[b], results[b]);
    }
    assert results == Answers(start, lane, calls);
  }

  /** The total is right about every user in the ledger. */
  lemma LaneTells(start: Db, lane: Lane, now: Db, calls: Calls, total: Summary, u: nat)
    requires RowsOk(start.rows) && LaneDone(start, lane, now, calls, total) && u in start.accounts
    ensures Tells(start.accounts[u].balance, now.accounts[u].balance, total.balances, u)
  {
    var b := u % BUCKETS;
    var act := ActOf(calls[b].value);
    ActIsSound(start, lane, BUCKETS, b, act);
    assert Acts(calls)[b] == act;
    assert now.accounts[u] == JoinedAccount(start, lane, BUCKETS, Acts(calls), u)
           == Perform(start, lane, BUCKETS, b, act).accounts[u];
    assert Told(Answers(start, lane, calls), total.balances, u);
    assert Answers(start, lane, calls)[b] == Answer(start, lane, b, calls[b]);
  }

  /** Same start, same calls: same ledger and same total, however the goroutines interleaved. */
  lemma LaneDeterministic(start: Db, lane: Lane, x: Db, y: Db, calls: Calls, s: Summary, t: Summary)
    requires LaneDone(start, lane, x, calls, s) && LaneDone(start, lane, y, calls, t)
    ensures x == y && s == t
  {
    JoinedUnique(start, lane, BUCKETS, Acts(calls), x, y);
    var answers := Answers(start, lane, calls);
    forall c ensures Count(s, c) == Count(t, c) {
    }
    assert Count(s, BatchRows) == Count(t, BatchRows) && Count(s, DebitedUsers) == Count(t, DebitedUsers);
    assert Count(s, ForcedUsers) == Count(t, ForcedUsers) && Count(s, Marked) == Count(t, Marked);
    assert Count(s, Quarantined) == Count(t, Quarantined);
    forall u: nat ensures (u in s.balances <==> u in t.balances)
      && (u in s.balances ==> s.balances[u] == t.balances[u]) {
      assert Told(answers, s.balances, u) && Told(answers, t.balances, u);
    }
    assert s.balances == t.balances;
  }

  /** Every user in the snapshot reads the ledger's balance. */
  ghost predicate Agree(snap: map<nat, int>, db: Db) {
    forall u {:trigger snap[u]} :: u in snap ==> u in db.accounts && snap[u] == db.accounts[u].balance
  }

  /** The snapshot after the told pairs were written into its existing entries. */
  function Refreshed(snap: map<nat, int>, told: map<nat, int>): map<nat, int> {
    map u | u in snap :: if u in told then told[u] else snap[u]
  }

  lemma RefreshKeepsAgreement(start: Db, now: Db, snap: map<nat, int>, told: map<nat, int>)
    requires Agree(snap, start) && now.accounts.Keys == start.accounts.Keys
    requires forall u :: u in start.accounts ==> Tells(start.accounts[u].balance, now.accounts[u].balance, told, u)
    ensures Agree(Refreshed(snap, told), now)
  {
    forall u | u in snap ensures Refreshed(snap, told)[u] == now.accounts[u].balance {
      assert u in start.accounts && snap[u] == start.accounts[u].balance;
    }
  }
}
