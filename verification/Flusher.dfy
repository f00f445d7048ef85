/**
  The billing cursor consumer of internal/billing/flusher.go and drain.go, together with the
  ledger store it drives. The clock, the network and SQL outcomes are inputs; the order in which
  bucket goroutines run is a free choice.
 */
module Flusher {
  import opened Arithmetic
  import opened Ledger
  import opened Drain
  import opened Batching
  import opened LaneMerge
  import opened LedgerParallel
  import opened UserBalances
  import opened SettleCalls
  import opened DrainRounds
  import Marker

  /** The sweep's filter loop. */
  method CollectFree(rows: seq<Row>, ids: set<nat>) returns (zero: set<nat>)
    requires forall i :: i in ids ==> i < |rows|
    ensures zero == set i | i in ids && Sweepable(rows[i])
  {
    var left := ids;
    zero := {};
    while left != {}
      invariant left <= ids
      invariant zero == set i | i in ids && i !in left && Sweepable(rows[i])
      decreases |left|
    {
      var i :| i in left;
      if rows[i].cost <= 0 && !Marker.IsNoPrice(rows[i].tier) {
        zero := zero + {i};
      }
      left := left - {i};
    }
  }

  /** The recovery pass's pricing loop. */
  method CollectPriced(ids: set<nat>, quote: nat -> Option<nat>) returns (costs: map<nat, nat>)
    ensures costs == map i | i in ids && quote(i).Some? :: quote(i).value
  {
    var left := ids;
    costs := map[];
    while left != {}
      invariant left <= ids
      invariant costs == map i | i in ids && i !in left && quote(i).Some? :: quote(i).value
      decreases |left|
    {
      var i :| i in left;
      if quote(i).Some? {
        costs := costs[i := quote(i).value];
      }
      left := left - {i};
    }
  }

  class LedgerStore {
    var db: Db

    constructor (initial: Db)
      ensures db == initial
    {
      db := initial;
    }

    /** One transaction: it commits the whole window or leaves no trace. */
    method SettleOnce(lane: Lane, limit: nat, k: nat, bucket: nat, reply: Reply) returns (s: Summary)
      requires k > 0
      modifies this
      ensures reply == Committed ==> db == Perform(old(db), lane, k, bucket, Window(limit))
      ensures reply == Committed ==> s == ActSummary(old(db), lane, k, bucket, Window(limit))
      ensures reply != Committed ==> db == old(db) && s == NOTHING
    {
      s := NOTHING;
      if reply == Committed {
        var ids := Batch(db, lane, k, bucket, limit);
        s := SummaryOf(db, ids, lane);
        db := SettleDb(db, db.rows, ids, lane);
      }
    }

    /** Retries up to the limit and stops at the first reply that is not retried. */
    method Ladder(lane: Lane, limit: nat, k: nat, bucket: nat, replies: seq<Reply>) returns (s: Summary, last: Reply)
      requires k > 0 && |replies| == MAX_ATTEMPTS
      modifies this
      ensures last == Final(replies)
      ensures last == Committed ==> db == Perform(old(db), lane, k, bucket, Window(limit))
      ensures last == Committed ==> s == ActSummary(old(db), lane, k, bucket, Window(limit))
      ensures last != Committed ==> db == old(db) && s == NOTHING
    {
      s, last := NOTHING, replies[0];
      var attempt := 0;
      while attempt < MAX_ATTEMPTS
        invariant 0 <= attempt <= MAX_ATTEMPTS && db == old(db) && s == NOTHING
        invariant attempt < MAX_ATTEMPTS ==> Final(replies) == Final(replies[attempt..])
        invariant attempt == MAX_ATTEMPTS ==> Retried(last) && last == Final(replies)
      {
        assert replies[attempt..][0] == replies[attempt] && replies[attempt..][1..] == replies[attempt + 1..];
        last := replies[attempt];
        s := SettleOnce(lane, limit, k, bucket, last);
        if !Retried(last) {
          return;
        }
        attempt := attempt + 1;
      }
    }

    /** ProbeLaneHead and the write-off of the bucket's own head row; a deadline in either is reported as one. */
    method IsolateHead(lane: Lane, k: nat, bucket: nat, w: Weather) returns (err: Err)
      requires k > 0
      modifies this
      ensures err == WriteOffErr(old(db), lane, k, bucket, w)
      ensures err == NoErr <==> w.probe == Fine && w.mark == Fine && Batch(old(db), lane, k, bucket, 1) != {}
      ensures err == DeadlineExceeded ==> w.probe == Late || w.mark == Late
      ensures db == if err == NoErr then Perform(old(db), lane, k, bucket, HeadRow) else old(db)
    {
      if w.probe != Fine {
        return FateErr(w.probe);
      }
      var head := Batch(db, lane, k, bucket, 1);
      if head == {} {
        return OtherErr;
      }
      var ok := MarkBilledBulk(head, w.mark == Fine);
      return if ok then NoErr else FateErr(w.mark);
    }

    /**
      settleBatch with its poison-row ladder: an error leaves the ledger alone, a committed attempt is one
      settled window, and a head row is written off exactly in the weathers of WritesOff.
     */
    method SettleBatch(lane: Lane, limit: int, k: nat, bucket: nat, w: Weather) returns (s: Summary, err: Err)
      requires k > 0 && w.Valid()
      modifies this
      ensures limit <= 0 ==> db == old(db) && s == NOTHING && err == NoErr
      ensures limit > 0 ==>
        var call := CallIn(old(db), lane, limit, k, bucket, w);
        && err == call.err && db == Perform(old(db), lane, k, bucket, ActOf(call))
        && s == ActSummary(old(db), lane, k, bucket, ActOf(call)) && Possible(old(db), lane, k, bucket, ActOf(call))
      ensures limit > 0 ==> (s == ISOLATED <==> WritesOff(old(db), lane, k, bucket, w))
      ensures err != NoErr ==> db == old(db) && s == NOTHING
      ensures err == DeadlineExceeded ==> Stopped(true) in w.replies || w.probe == Late || w.mark == Late
    {
      if limit <= 0 {
        return NOTHING, NoErr;
      }
      WritesOffIff(db, lane, limit, k, bucket, w);
      var last;
      s, last := Ladder(lane, limit, k, bucket, w.replies);
      match last {
        case Committed =>
          err := NoErr;
        case Stopped(deadline) =>
          err := if deadline then DeadlineExceeded else OtherErr;
        case Transient =>
          err := OtherErr;
        case _ =>
          err := IsolateHead(lane, k, bucket, w);
          s := if err == NoErr then ISOLATED else NOTHING;
      }
    }

    /** Marks in one statement or not at all, and moves no money. */
    method MarkBilledBulk(ids: set<nat>, reachable: bool) returns (ok: bool)
      modifies this
      ensures ok == reachable
      ensures db == if ok then old(db).(rows := MarkRows(old(db).rows, ids)) else old(db)
    {
      ok := reachable;
      if ok {
        db := db.(rows := MarkRows(db.rows, ids));
      }
    }

    /** One transaction; counts the rows that were still unbilled and unpriced. */
    method ApplyRepricedBatch(costs: map<nat, nat>, reachable: bool) returns (updated: nat, ok: bool)
      modifies this
      ensures ok == reachable
      ensures !ok ==> db == old(db)
      ensures ok ==> db == old(db).(rows := RepriceRows(old(db).rows, costs))
      ensures ok ==> updated == |Updated(old(db).rows, costs)|
    {
      ok := reachable;
      updated := |Updated(db.rows, costs)|;
      if ok {
        db := db.(rows := RepriceRows(db.rows, costs));
      }
    }
  }

  class Flusher {
    const store: LedgerStore
    const bal: Balances
    const balanceCtl: BatchController
    const fefoCtl: BatchController
    var quarantined: nat

    constructor (store: LedgerStore, bal: Balances)
      requires RowsOk(store.db.rows)
      ensures this.store == store && this.bal == bal && Valid() && quarantined == 0
      ensures fresh(balanceCtl) && fresh(fefoCtl)
    {
      this.store, this.bal, quarantined := store, bal, 0;
      balanceCtl := new BatchController();
      fefoCtl := new BatchController();
    }

    ghost predicate Valid()
      reads this, store, balanceCtl, fefoCtl
    {
      balanceCtl != fefoCtl && balanceCtl.Valid() && fefoCtl.Valid() && RowsOk(store.db.rows)
    }

    ghost function At(): Point
      reads this, store, bal, balanceCtl, fefoCtl
    {
      Point(store.db, balanceCtl.cur, fefoCtl.cur, bal.snap, quarantined)
    }

    ghost predicate Agrees()
      reads store, bal
    {
      Agree(bal.snap, store.db)
    }

    /** Writes the returned pairs into the snapshot; users it does not hold are skipped. */
    method ApplySettlement(s: Summary)
      modifies bal`snap, this`quarantined
      ensures bal.snap == Refreshed(old(bal.snap), s.balances)
      ensures quarantined == old(quarantined) + s.quarantined
    {
      var left := s.balances.Keys;
      while left != {}
        invariant left <= s.balances.Keys && quarantined == old(quarantined)
        invariant bal.snap == map u | u in old(bal.snap) ::
          if u in s.balances && u !in left then s.balances[u] else old(bal.snap)[u]
        decreases |left|
      {
        var u :| u in left;
        bal.Set(u, s.balances[u]);
        left := left - {u};
      }
      if s.quarantined > 0 {
        quarantined := quarantined + s.quarantined;
      }
    }

    /** One atomic action of bucket goroutine b: read the size, settle, report, or merge. */
    method StepBucket(lane: Lane, ctl: BatchController, skies: Skies, phases: seq<Phase>, total: Summary, b: nat,
                      ghost start: Db, ghost t: Trace)
      returns (phases': seq<Phase>, total': Summary, ghost t': Trace)
      requires ctl.Valid() && LaneInv(start, lane, store.db, phases, t.calls, total, t.results)
      requires Steered(start, lane, skies, ctl.cur, phases, t)
      requires b < BUCKETS && phases[b] != Merged
      modifies store, ctl
      ensures ctl.Valid() && LaneInv(start, lane, store.db, phases', t'.calls, total', t'.results)
      ensures Steered(start, lane, skies, ctl.cur, phases', t') && t'.sizes[0] == t.sizes[0]
      ensures AllStepsLeft(phases') < AllStepsLeft(phases)
    {
      assert BucketOk(start, lane, b, phases[b], t.calls[b], t.results[b]);
      if phases[b].Sized? {
        total' := total;
        phases', t' := SettleStep(lane, ctl, skies[b], phases, b, start, t, total, skies);
        UpdatePhase(phases, b, phases'[b]);
      } else if phases[b].Observed? {
        phases', total', t' := MergeStep(lane, ctl, phases, total, b, start, t, skies);
      } else {
        total' := total;
        phases', t' := ControllerStep(lane, ctl, skies[b], phases, b, start, t, total, skies);
      }
    }

    /** lim := ctl.limit(), or observe. */
    method ControllerStep(lane: Lane, ctl: BatchController, w: Weather, phases: seq<Phase>, b: nat, ghost start: Db,
                          ghost t: Trace, ghost total: Summary, ghost skies: Skies)
      returns (phases': seq<Phase>, ghost t': Trace)
      requires ctl.Valid() && LaneInv(start, lane, store.db, phases, t.calls, total, t.results)
      requires Steered(start, lane, skies, ctl.cur, phases, t)
      requires b < BUCKETS && w == skies[b] && (phases[b].Ready? || phases[b].Settled?)
      modifies ctl
      ensures ctl.Valid() && LaneInv(start, lane, store.db, phases', t'.calls, total, t'.results)
      ensures Steered(start, lane, skies, ctl.cur, phases', t') && t'.sizes[0] == t.sizes[0]
      ensures AllStepsLeft(phases') < AllStepsLeft(phases)
    {
      ghost var before := ctl.cur;
      assert BucketOk(start, lane, b, phases[b], t.calls[b], t.results[b]);
      if phases[b].Ready? {
        phases', t' := phases[b := Sized(ctl.cur)], t;
        BucketMoves(start, lane, store.db, phases, t.calls, total, t.results, b, Sized(ctl.cur));
        SteeringSizes(start, lane, skies, before, phases, t, b);
      } else {
        var limit, s, err := phases[b].limit, phases[b].summary, phases[b].err;
        ctl.Observe(Observation(w.took, err, s.batchRows >= limit));
        phases', t' := phases[b := Observed(s, err)], t.(order := t.order + [b], sizes := t.sizes + [ctl.cur]);
        BucketMoves(start, lane, store.db, phases, t.calls, total, t.results, b, Observed(s, err));
        SteeringReports(start, lane, skies, before, phases, t, b, Observed(s, err), ctl.cur);
      }
      UpdatePhase(phases, b, phases'[b]);
    }

    /** The mutex-protected merge. */
    method MergeStep(lane: Lane, ghost ctl: BatchController, phases: seq<Phase>, total: Summary, b: nat,
                     ghost start: Db, ghost t: Trace, ghost skies: Skies)
      returns (phases': seq<Phase>, total': Summary, ghost t': Trace)
      requires LaneInv(start, lane, store.db, phases, t.calls, total, t.results)
      requires Steered(start, lane, skies, ctl.cur, phases, t)
      requires b < BUCKETS && phases[b].Observed?
      ensures LaneInv(start, lane, store.db, phases', t'.calls, total', t'.results)
      ensures Steered(start, lane, skies, ctl.cur, phases', t') && t'.sizes == t.sizes
      ensures AllStepsLeft(phases') < AllStepsLeft(phases)
    {
      phases' := phases[b := Merged];
      if phases[b].err == NoErr {
        BucketMerges(start, lane, store.db, phases, t.calls, total, t.results, b);
        total', t' := Merge(total, phases[b].summary), t.(results := t.results[b := Some(phases[b].summary)]);
      } else {
        BucketDropsOut(start, lane, store.db, phases, t.calls, total, t.results, b);
        total', t' := total, t.(results := t.results);
      }
      SteeringMerges(start, lane, skies, ctl.cur, phases, t, b, t'.results);
      UpdatePhase(phases, b, Merged);
    }

    /** One bucket's settle call, recorded as the lane sees it. */
    method SettleStep(lane: Lane, ghost ctl: BatchController, w: Weather, phases: seq<Phase>, b: nat, ghost start: Db,
                      ghost t: Trace, ghost total: Summary, ghost skies: Skies)
      returns (phases': seq<Phase>, ghost t': Trace)
      requires LaneInv(start, lane, store.db, phases, t.calls, total, t.results)
      requires Steered(start, lane, skies, ctl.cur, phases, t)
      requires b < BUCKETS && w == skies[b] && phases[b].Sized? && phases[b].limit > 0
      modifies store
      ensures LaneInv(start, lane, store.db, phases', t'.calls, total, t'.results)
      ensures Steered(start, lane, skies, ctl.cur, phases', t') && t'.sizes == t.sizes
      ensures phases' == phases[b := phases'[b]] && phases'[b].Settled?
    {
      ghost var before := store.db;
      var limit := phases[b].limit;
      var s, err := store.SettleBatch(lane, limit, BUCKETS, b, w);
      ghost var call := CallIn(before, lane, limit, BUCKETS, b, w);
      phases', t' := phases[b := Settled(limit, s, err)], t.(calls := t.calls[b := Some(call)]);
      assert call.limit == limit && call.err == err;
      BucketCalls(start, lane, before, phases, t.calls, total, t.results, b, call);
      SettledAsOnStart(start, lane, before, phases, t.calls, total, t.results, b, limit, w);
      SteeringCalls(start, lane, skies, ctl.cur, phases, t, b, Settled(limit, s, err), call);
    }

    /** The four bucket goroutines take their steps in any order, and any of them may fail. */
    method RunBuckets(lane: Lane, ctl: BatchController, skies: Skies) returns (total: Summary, ghost run: LaneRun)
      requires ctl.Valid() && RowsOk(store.db.rows)
      modifies store, ctl
      ensures ctl.Valid() && Ran(old(store.db), lane, skies, old(ctl.cur), ctl.cur, run)
      ensures run.now == store.db && run.total == total
      ensures Progress(old(store.db), store.db, total.marked)
      ensures ctl.cur < old(ctl.cur) ==> TimedOut(run.trace.calls)
    {
      ghost var start, size := store.db, ctl.cur;
      var phases: seq<Phase> := seq(BUCKETS, _ => Ready);
      total := NOTHING;
      ghost var t := Trace(seq(BUCKETS, _ => None), Unanswered(BUCKETS), [], [size]);
      LaneStarts(start, lane, phases, t.calls);
      SteeringStarts(start, lane, skies, size, phases, t);
      while exists b :: 0 <= b < BUCKETS && phases[b] != Merged
        invariant LaneInv(start, lane, store.db, phases, t.calls, total, t.results) && ctl.Valid()
        invariant Steered(start, lane, skies, ctl.cur, phases, t) && t.sizes[0] == size
        decreases AllStepsLeft(phases)
      {
        var b :| 0 <= b < BUCKETS && phases[b] != Merged;
        phases, total, t := StepBucket(lane, ctl, skies, phases, total, b, start, t);
      }
      LaneEnds(start, lane, store.db, phases, t.calls, total, t.results);
      SteeringEnds(start, lane, skies, ctl.cur, phases, t);
      run := LaneRun(store.db, total, t);
      if ctl.cur < size {
        SizeShrinksOnTimeout(start, lane, skies, size, ctl.cur, t);
      }
    }

    /**
      One lane. The ledger and the total are those of the four recorded calls, whatever their order; the
      snapshot keeps agreeing with the ledger.
     */
    method SettleLaneParallel(lane: Lane, ctl: BatchController, skies: Skies) returns (marked: nat, ghost run: LaneRun)
      requires Valid() && (ctl == balanceCtl || ctl == fefoCtl)
      modifies store, bal`snap, ctl, this`quarantined
      ensures Valid() && Ran(old(store.db), lane, skies, old(ctl.cur), ctl.cur, run) && run.now == store.db
      ensures Progress(old(store.db), store.db, marked) && marked == run.total.marked
      ensures bal.snap == Refreshed(old(bal.snap), run.total.balances)
              && quarantined == old(quarantined) + run.total.quarantined
      ensures old(Agrees()) ==> Agrees()
      ensures ctl.cur < old(ctl.cur) ==> TimedOut(run.trace.calls)
    {
      var total;
      total, run := RunBuckets(lane, ctl, skies);
      forall u | u in old(store.db).accounts
        ensures Tells(old(store.db).accounts[u].balance, store.db.accounts[u].balance, total.balances, u)
      {
        LaneTells(old(store.db), lane, store.db, run.trace.calls, total, u);
      }
      if old(Agrees()) {
        RefreshKeepsAgreement(old(store.db), store.db, bal.snap, total.balances);
      }
      ApplySettlement(total);
      marked := total.marked;
    }

    /** Takes exactly the free, not merely unpriced, rows of the window out of the cursor, or nothing. */
    method SweepZeroCost(w: RoundWeather) returns (n: nat)
      requires RowsOk(store.db.rows)
      modifies store
      ensures Progress(old(store.db), store.db, n)
      ensures store.db == AfterSweep(old(store.db), w) && n == SweepCount(old(store.db), w)
    {
      ProgressFromNothing(store.db);
      if !w.fetched {
        return 0;
      }
      var zero := CollectFree(store.db.rows, UnbilledBatch(store.db.rows, FETCH_LIMIT));
      SweepProgress(store.db);
      if |zero| == 0 {
        assert MarkRows(store.db.rows, {}) == store.db.rows;
        return 0;
      }
      var ok := store.MarkBilledBulk(zero, w.marked);
      n := if ok then |zero| else 0;
    }

    /** Fetch, price and write back one window, for any pricing of its rows. */
    method RepriceWindow(quote: nat -> Option<nat>, fetched: bool, reachable: bool) returns (n: nat)
      requires RowsOk(store.db.rows)
      modifies store
      ensures Progress(old(store.db), store.db, n)
      ensures store.db == if fetched && reachable then Recovered(old(store.db), quote) else old(store.db)
      ensures n == if fetched && reachable then |Recoverable(old(store.db).rows, quote).Keys| else 0
    {
      ProgressFromNothing(store.db);
      if !fetched {
        return 0;
      }
      var costs := CollectPriced(UnpricedBatch(store.db.rows, FETCH_LIMIT), quote);
      RecoveryProgress(store.db, quote);
      if |costs.Keys| == 0 {
        assert RepriceRows(store.db.rows, costs) == store.db.rows;
        return 0;
      }
      assert Updated(store.db.rows, costs) == costs.Keys;
      var updated, ok := store.ApplyRepricedBatch(costs, reachable);
      n := if ok then updated else 0;
    }

    /** Prices what can be priced now; rows that still have no price stay in the cursor. */
    method RepriceNoPrice(w: CycleWeather) returns (n: nat)
      requires RowsOk(store.db.rows)
      modifies store
      ensures Progress(old(store.db), store.db, n)
      ensures store.db == AfterRecovery(old(store.db), w) && n == RecoveryCount(old(store.db), w)
    {
      if !w.wired {
        ProgressFromNothing(store.db);
        return 0;
      }
      n := RepriceWindow(Quotes(w.pricing, store.db.rows), w.fetched, w.applied);
    }

    /** One round over the three lanes, in their fixed order. */
    method ConsumeBatch(w: RoundWeather) returns (n: nat, ghost r: Round)
      requires Valid()
      modifies store, bal`snap, balanceCtl, fefoCtl, this`quarantined
      ensures Valid() && Progress(old(store.db), store.db, n)
      ensures bal.snap.Keys == old(bal.snap).Keys && (old(Agrees()) ==> Agrees())
      ensures RoundDone(old(At()), w, r, At()) && r.n == n
      ensures balanceCtl.cur < old(balanceCtl.cur) ==> TimedOut(r.balance.trace.calls)
      ensures fefoCtl.cur < old(fefoCtl.cur) ==> TimedOut(r.temp.trace.calls)
      ensures n == 0 ==> store.db == old(store.db)
      ensures n == 0 && AllAnswered(r) ==>
                AllCharged(store.db.rows)
                && forall lane, b :: 0 <= b < BUCKETS ==> Batch(store.db, lane, BUCKETS, b, 1) == {}
    {
      var a, first := SettleLaneParallel(BalanceLane, balanceCtl, w.balance);
      var b, second := SettleLaneParallel(TempLane, fefoCtl, w.temp);
      ProgressTransitive(old(store.db), first.now, second.now, a, b);
      var c := SweepZeroCost(w);
      ProgressTransitive(old(store.db), second.now, store.db, a + b, c);
      n := a + b + c;
      r := Round(first, second, n);
      if n == 0 {
        ZeroRoundIsStill(old(At()), w, r, At());
        if AllAnswered(r) {
          ZeroRoundMeansDone(old(At()), w, r, At());
        }
      }
    }

    /** Round i of a drain loop. */
    method DrainRound(w: DrainWeather, i: nat, ghost trail: seq<Point>, ghost rounds: seq<Round>)
      returns (n: nat, ghost trail': seq<Point>, ghost rounds': seq<Round>)
      requires Valid() && Chain(w, trail, rounds) && i == |rounds| && trail[i] == At() && w.alive(i)
      requires rounds != [] ==> WentOn(w, rounds, i - 1)
      modifies store, bal`snap, balanceCtl, fefoCtl, this`quarantined
      ensures Valid() && Progress(old(store.db), store.db, n)
      ensures bal.snap.Keys == old(bal.snap).Keys && (old(Agrees()) ==> Agrees())
      ensures Chain(w, trail', rounds') && |rounds'| == i + 1 && trail'[0] == trail[0] && trail'[i + 1] == At()
      ensures Progressed(rounds') == Progressed(rounds) + n && (WentOn(w, rounds', i) <==> n > 0 && !w.late(i))
    {
      ghost var r;
      n, r := ConsumeBatch(w.round(i));
      ghost var q := At();
      ChainExtends(w, trail, rounds, r, q);
      ProgressedExtends(rounds, r);
      trail', rounds' := trail + [q], rounds + [r];
    }

    /**
      Rounds until one makes no progress, the loop is late, or it is cancelled. Every round that reports progress
      shrinks the measure, so the loop ends even without its clock.
     */
    method DrainLoop(w: DrainWeather) returns (drained: nat, ghost trail: seq<Point>, ghost rounds: seq<Round>)
      requires Valid()
      modifies store, bal`snap, balanceCtl, fefoCtl, this`quarantined
      ensures Valid() && Progress(old(store.db), store.db, drained)
      ensures bal.snap.Keys == old(bal.snap).Keys && (old(Agrees()) ==> Agrees())
      ensures DrainDone(old(At()), w, trail, rounds, At()) && drained == Progressed(rounds)
      ensures |store.db.rows| == |old(store.db).rows|
      ensures RanDry(rounds) ==>
                && AllCharged(store.db.rows)
                && forall i :: 0 <= i < |old(store.db.rows)| && Open(old(store.db.rows[i])) ==> store.db.rows[i].billed
    {
      drained, trail, rounds := 0, [At()], [];
      ProgressFromNothing(store.db);
      var i: nat := 0;
      while w.alive(i)
        invariant i == |rounds| && Chain(w, trail, rounds) && trail[0] == old(At()) && trail[i] == At()
        invariant rounds != [] ==> WentOn(w, rounds, i - 1)
        invariant drained == Progressed(rounds)
        invariant Valid() && Progress(old(store.db), store.db, drained)
        invariant bal.snap.Keys == old(bal.snap).Keys && (old(Agrees()) ==> Agrees())
        decreases Measure(store.db.rows)
      {
        ghost var before := store.db;
        var n;
        n, trail, rounds := DrainRound(w, i, trail, rounds);
        ProgressTransitive(old(store.db), before, store.db, drained, n);
        drained := drained + n;
        if n == 0 || w.late(i) {
          break;
        }
        i := i + 1;
      }
      ChainKeepsRows(w, trail, rounds, |rounds|);
      if RanDry(rounds) {
        DryDrainChargesAll(old(At()), w, trail, rounds, At());
      }
    }

    /** One cycle: without the session lock nothing is touched; with it recovery comes first, then the drain loop. */
    method ConsumeCycle(w: CycleWeather) returns (marked: nat, ghost c: Cycle)
      requires Valid()
      modifies store, bal`snap, balanceCtl, fefoCtl, this`quarantined
      ensures Valid() && Progress(old(store.db), store.db, marked)
      ensures bal.snap.Keys == old(bal.snap).Keys && (old(Agrees()) ==> Agrees())
      ensures CycleDone(old(At()), w, c, At()) && marked == c.n
      ensures !w.locked ==> marked == 0 && At() == old(At())
    {
      ProgressFromNothing(store.db);
      marked, c := 0, Cycle(store.db, [], [], 0);
      if w.locked {
        var a := RepriceNoPrice(w);
        ghost var repriced := store.db;
        var b, trail, rounds := DrainLoop(w.drain);
        ProgressTransitive(old(store.db), repriced, store.db, a, b);
        marked := a + b;
        c := Cycle(repriced, trail, rounds, marked);
      }
    }

    /** Cycle i of a shutdown. */
    method CloseCycle(w: CloseWeather, i: nat, ghost trail: seq<Point>, ghost cycles: seq<Cycle>)
      returns (n: nat, ghost trail': seq<Point>, ghost cycles': seq<Cycle>)
      requires Valid() && Cycles(w, trail, cycles) && i == |cycles| && trail[i] == At() && !w.expired(i)
      requires cycles != [] ==> CycleMoved(cycles, i - 1)
      modifies store, bal`snap, balanceCtl, fefoCtl, this`quarantined
      ensures Valid() && Progress(old(store.db), store.db, n)
      ensures bal.snap.Keys == old(bal.snap).Keys && (old(Agrees()) ==> Agrees())
      ensures Cycles(w, trail', cycles') && |cycles'| == i + 1 && trail'[0] == trail[0] && trail'[i + 1] == At()
      ensures Flushed(cycles') == Flushed(cycles) + n && (CycleMoved(cycles', i) <==> n > 0)
    {
      ghost var c;
      n, c := ConsumeCycle(w.cycle(i));
      ghost var q := At();
      CyclesExtend(w, trail, cycles, c, q);
      FlushedExtends(cycles, c);
      trail', cycles' := trail + [q], cycles + [c];
    }

    /** Close's drain: cycle by cycle, with the weather of each, until one makes no progress or the budget is spent. */
    method CloseDrain(w: CloseWeather) returns (flushed: nat, ghost trail: seq<Point>, ghost cycles: seq<Cycle>)
      requires Valid()
      modifies store, bal`snap, balanceCtl, fefoCtl, this`quarantined
      ensures Valid() && Progress(old(store.db), store.db, flushed)
      ensures bal.snap.Keys == old(bal.snap).Keys && (old(Agrees()) ==> Agrees())
      ensures CloseDone(old(At()), w, trail, cycles, At()) && flushed == Flushed(cycles)
    {
      flushed, trail, cycles := 0, [At()], [];
      ProgressFromNothing(store.db);
      var i: nat := 0;
      while !w.expired(i)
        invariant i == |cycles| && Cycles(w, trail, cycles) && trail[0] == old(At()) && trail[i] == At()
        invariant cycles != [] ==> CycleMoved(cycles, i - 1)
        invariant flushed == Flushed(cycles)
        invariant Valid() && Progress(old(store.db), store.db, flushed)
        invariant bal.snap.Keys == old(bal.snap).Keys && (old(Agrees()) ==> Agrees())
        decreases Measure(store.db.rows)
      {
        ghost var before := store.db;
        var n;
        n, trail, cycles := CloseCycle(w, i, trail, cycles);
        ProgressTransitive(old(store.db), before, store.db, flushed, n);
        flushed := flushed + n;
        if n == 0 {
          return;
        }
        i := i + 1;
      }
    }
  }
}
