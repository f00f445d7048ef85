/**
  Rounds, cycles and shutdown of the billing consumer (internal/billing/drain.go and flusher.go) as relations
  between the states they start from and end in, and what follows for the rows of the ledger.
 */
module DrainRounds {
  import opened Arithmetic
  import opened Ledger
  import opened Drain
  import opened Batching
  import opened LaneMerge
  import opened LedgerParallel
  import opened UserBalances
  import opened Reprice
  import opened SettleCalls
  import Marker

  /** fetchBatchLimit. */
  const FETCH_LIMIT := 2000

  // ----- Sweep and recovery -----

  /** What the sweep may take out of its fetch window. */
  function ZeroIds(rows: seq<Row>): (ids: set<nat>)
    ensures forall i :: i in ids ==> i < |rows| && !rows[i].billed
  {
    set i | i in UnbilledBatch(rows, FETCH_LIMIT) && Sweepable(rows[i])
  }

  /**
    What RepriceUsage is called with for each row: its usage columns, and the pricing and
    multiplier snapshots in force at that moment, which others may swap between two rows.
   */
  datatype Pricing = Pricing(columns: nat -> Usage, resolver: nat -> Resolver, mult: nat -> Option<Multipliers>)

  function RepriceRow(p: Pricing, r: Row, i: nat): Option<Repriced> {
    RepriceUsage(p.columns(i).(billingTier := r.tier), Some(p.resolver(i)),
                 EffectiveRate(p.mult(i), r.user, p.columns(i).groupId))
  }

  /** The recovered charge of a row, if it can be priced now. */
  function Price(p: Pricing, r: Row, i: nat): Option<nat> {
    var out := RepriceRow(p, r, i);
    if out.None? then None
    else
      RecoveryArithmetic(p.columns(i).(billingTier := r.tier), Some(p.resolver(i)),
                         EffectiveRate(p.mult(i), r.user, p.columns(i).groupId));
      Some(out.value.money.cost)
  }

  function Quotes(p: Pricing, rows: seq<Row>): nat -> Option<nat> {
    (i: nat) => if i < |rows| then Price(p, rows[i], i) else None
  }

  /** The rows of the recovery window that have a quote now. */
  function Recoverable(rows: seq<Row>, quote: nat -> Option<nat>): (costs: map<nat, nat>)
    ensures forall i :: i in costs ==> i < |rows| && Unpriced(rows[i])
  {
    map i | i in UnpricedBatch(rows, FETCH_LIMIT) && quote(i).Some? :: quote(i).value
  }

  lemma PriceIsRepriced(p: Pricing, r: Row, i: nat)
    ensures Price(p, r, i).Some? <==> RepriceRow(p, r, i).Some?
    ensures RepriceRow(p, r, i).Some? ==>
      var out := RepriceRow(p, r, i).value;
      Price(p, r, i) == Some(out.money.cost) && out.billingTier == Marker.RecoveryTier(r.tier)
  {
  }

  /** Recovery writes the tier and the charge RepriceUsage computed, and leaves every other row alone. */
  lemma RecoveredAsRepriced(db: Db, p: Pricing, i: nat)
    requires i < |db.rows|
    ensures var r, r' := db.rows[i], Recovered(db, Quotes(p, db.rows)).rows[i];
            if i in UnpricedBatch(db.rows, FETCH_LIMIT) && RepriceRow(p, r, i).Some?
            then var out := RepriceRow(p, r, i).value; r' == r.(tier := out.billingTier, cost := out.money.cost)
            else r' == r
  {
    PriceIsRepriced(p, db.rows[i], i);
    var costs := Recoverable(db.rows, Quotes(p, db.rows));
    assert i in costs ==> Unpriced(db.rows[i]) && Some(costs[i]) == Price(p, db.rows[i], i);
  }

  /** The rows ApplyRepricedBatch really changes. */
  function Updated(rows: seq<Row>, costs: map<nat, nat>): set<nat> {
    set i | i in costs && i < |rows| && Unpriced(rows[i])
  }

  function Swept(db: Db): Db { db.(rows := MarkRows(db.rows, ZeroIds(db.rows))) }

  function Recovered(db: Db, quote: nat -> Option<nat>): Db {
    db.(rows := RepriceRows(db.rows, Recoverable(db.rows, quote)))
  }

  lemma SweepProgress(db: Db)
    requires RowsOk(db.rows)
    ensures Progress(db, Swept(db), |ZeroIds(db.rows)|)
  {
    MarkProgress(db, ZeroIds(db.rows));
  }

  lemma RecoveryProgress(db: Db, quote: nat -> Option<nat>)
    requires RowsOk(db.rows)
    ensures Progress(db, Recovered(db, quote), |Recoverable(db.rows, quote).Keys|)
  {
    RepriceProgress(db, Recoverable(db.rows, quote));
  }

  /** The sweep's window skips no unbilled billable row, and the recovery window none that waits for a price. */
  lemma FetchSkipsNothing(rows: seq<Row>, limit: nat, i: nat)
    requires i < |rows| && rows[i].billable && !rows[i].billed
    ensures i !in UnbilledBatch(rows, limit) ==>
              |UnbilledBatch(rows, limit)| == limit && forall j :: j in UnbilledBatch(rows, limit) ==> j < i
    ensures Marker.IsNoPrice(rows[i].tier) && i !in UnpricedBatch(rows, limit) ==>
              |UnpricedBatch(rows, limit)| == limit && forall j :: j in UnpricedBatch(rows, limit) ==> j < i
  {
    if i !in UnbilledBatch(rows, limit) {
      FirstIsFirst(seq(|rows|, j requires 0 <= j < |rows| => !rows[j].billed && rows[j].billable), limit, 0, i);
    }
    if Marker.IsNoPrice(rows[i].tier) && i !in UnpricedBatch(rows, limit) {
      FirstIsFirst(seq(|rows|, j requires 0 <= j < |rows| => Unpriced(rows[j]) && rows[j].billable), limit, 0, i);
    }
  }

  // ----- One round -----

  /** Everything the consumer works on: ledger, batch sizes, balance snapshot and quarantine counter. */
  datatype Point = Point(db: Db, balanceSize: int, tempSize: int, snap: map<nat, int>, quarantined: nat)

  /** What a round meets: the calls of both lanes, and whether the sweep's fetch and mark succeed. */
  datatype RoundWeather = RoundWeather(balance: Skies, temp: Skies, fetched: bool, marked: bool)

  /** What a lane left behind. */
  datatype LaneRun = LaneRun(now: Db, total: Summary, trace: Trace)

  datatype Round = Round(balance: LaneRun, temp: LaneRun, n: nat)

  ghost predicate Ran(start: Db, lane: Lane, skies: Skies, before: int, after: int, r: LaneRun) {
    && LaneDone(start, lane, r.now, r.trace.calls, r.total)
    && Sizing(start, lane, skies, before, after, r.trace)
  }

  function AfterSweep(db: Db, w: RoundWeather): Db { if w.fetched && w.marked then Swept(db) else db }

  function SweepCount(db: Db, w: RoundWeather): nat { if w.fetched && w.marked then |ZeroIds(db.rows)| else 0 }

  /** The balance lane, then the temporary lane on what it left, then the sweep on what that left. */
  ghost predicate RoundDone(p: Point, w: RoundWeather, r: Round, q: Point) {
    && Ran(p.db, BalanceLane, w.balance, p.balanceSize, q.balanceSize, r.balance)
    && Ran(r.balance.now, TempLane, w.temp, p.tempSize, q.tempSize, r.temp)
    && q.db == AfterSweep(r.temp.now, w)
    && r.n == r.balance.total.marked + r.temp.total.marked + SweepCount(r.temp.now, w)
    && q.snap == Refreshed(Refreshed(p.snap, r.balance.total.balances), r.temp.total.balances)
    && q.quarantined == p.quarantined + r.balance.total.quarantined + r.temp.total.quarantined
  }

  /** Every bucket's call came back without an error. */
  predicate Answered(calls: Calls) {
    forall b :: 0 <= b < |calls| ==> calls[b].Some? && calls[b].value.err == NoErr
  }

  predicate AllAnswered(r: Round) { Answered(r.balance.trace.calls) && Answered(r.temp.trace.calls) }

  /** Every attempt of every call commits. */
  predicate Clear(skies: Skies) { forall b :: 0 <= b < BUCKETS ==> skies[b].replies[0] == Committed }

  lemma ClearSkiesAnswer(start: Db, lane: Lane, skies: Skies, before: int, after: int, r: LaneRun)
    requires Ran(start, lane, skies, before, after, r) && Clear(skies)
    ensures Answered(r.trace.calls)
  {
    forall b | 0 <= b < |r.trace.calls|
      ensures r.trace.calls[b].Some? && r.trace.calls[b].value.err == NoErr
    {
      assert skies[b].Valid() && Asked(start, lane, b, r.trace.calls[b], skies[b], r.trace.sizes);
    }
  }

  // ----- A round without progress -----

  lemma {:induction false} NoneAdds(results: seq<Option<Summary>>, c: Counter, b: nat)
    requires SumBy(results, c) == 0 && b < |results| && results[b].Some?
    ensures Count(results[b].value, c) == 0
  {
    var n := |results| - 1;
    if b < n {
      NoneAdds(results[..n], c, b);
    }
  }

  /** An empty batch of any size means that no row of the lane and bucket is left. */
  lemma EmptyBatch(db: Db, lane: Lane, b: nat, limit: nat, i: nat)
    requires limit > 0 && Batch(db, lane, BUCKETS, b, limit) == {} && i < |db.rows|
    ensures !(Open(db.rows[i]) && lane == LaneOf(db, db.rows[i]) && b == db.rows[i].user % BUCKETS)
  {
    BatchHolds(db, lane, BUCKETS, b, limit, i);
  }

  lemma EmptyWindow(db: Db, lane: Lane, b: nat)
    ensures Batch(db, lane, BUCKETS, b, 0) == {} && SettleDb(db, db.rows, {}, lane) == db
  {
    forall u | u in db.accounts ensures Billed(db.accounts[u], db.rows, {}, u, lane) == db.accounts[u] {
      BilledNothing(db.accounts[u], db.rows, {}, u, lane);
    }
    assert SettleRows(db.rows, {}, db.accounts.Keys) == db.rows;
  }

  /** A lane that marked nothing: bucket b changed nothing, and if its call came back it found nothing. */
  lemma QuietBucket(start: Db, lane: Lane, now: Db, calls: Calls, total: Summary, b: nat)
    requires LaneDone(start, lane, now, calls, total) && total.marked == 0 && b < BUCKETS
    ensures Perform(start, lane, BUCKETS, b, ActOf(calls[b].value)) == start
    ensures calls[b].value.err == NoErr ==> Batch(start, lane, BUCKETS, b, calls[b].value.limit) == {}
  {
    var act := ActOf(calls[b].value);
    if calls[b].value.err == NoErr {
      var answers := Answers(start, lane, calls);
      assert Count(total, Marked) == SumBy(answers, Marked);
      assert answers[b] == Some(ActSummary(start, lane, BUCKETS, b, act));
      NoneAdds(answers, Marked, b);
      EmptyWindow(start, lane, b);
    }
  }

  lemma QuietLane(start: Db, lane: Lane, now: Db, calls: Calls, total: Summary)
    requires LaneDone(start, lane, now, calls, total) && total.marked == 0
    ensures now == start
  {
    forall i | 0 <= i < |start.rows| ensures now.rows[i] == start.rows[i] {
      var b := start.rows[i].user % BUCKETS;
      QuietBucket(start, lane, now, calls, total, b);
      assert Acts(calls)[b] == ActOf(calls[b].value);
    }
    forall u | u in start.accounts ensures now.accounts[u] == start.accounts[u] {
      var b := u % BUCKETS;
      QuietBucket(start, lane, now, calls, total, b);
      assert Acts(calls)[b] == ActOf(calls[b].value);
    }
    assert now.rows == start.rows && now.accounts == start.accounts;
  }

  /** If moreover every call came back, no open row of that lane is left. */
  lemma QuietLaneIsDone(start: Db, lane: Lane, now: Db, calls: Calls, total: Summary, i: nat)
    requires LaneDone(start, lane, now, calls, total) && total.marked == 0 && Answered(calls) && i < |start.rows|
    ensures !(Open(start.rows[i]) && lane == LaneOf(start, start.rows[i]))
  {
    var b := start.rows[i].user % BUCKETS;
    QuietBucket(start, lane, now, calls, total, b);
    EmptyBatch(start, lane, b, calls[b].value.limit, i);
  }

  /** Nothing waits to be charged. */
  ghost predicate AllCharged(rows: seq<Row>) {
    forall i {:trigger rows[i]} :: 0 <= i < |rows| ==> !Open(rows[i])
  }

  /** A round that reports 0 left the ledger as it was. */
  lemma ZeroRoundIsStill(p: Point, w: RoundWeather, r: Round, q: Point)
    requires RoundDone(p, w, r, q) && r.n == 0
    ensures q.db == p.db == r.balance.now == r.temp.now
    ensures w.fetched && w.marked ==> ZeroIds(q.db.rows) == {}
  {
    QuietLane(p.db, BalanceLane, r.balance.now, r.balance.trace.calls, r.balance.total);
    QuietLane(r.balance.now, TempLane, r.temp.now, r.temp.trace.calls, r.temp.total);
    if w.fetched && w.marked {
      assert MarkRows(p.db.rows, {}) == p.db.rows;
    }
  }

  /** If every call came back, it means that there is nothing to charge in either lane and any bucket. */
  lemma ZeroRoundMeansDone(p: Point, w: RoundWeather, r: Round, q: Point)
    requires RoundDone(p, w, r, q) && r.n == 0 && AllAnswered(r)
    ensures AllCharged(q.db.rows)
    ensures forall lane, b :: 0 <= b < BUCKETS ==> Batch(q.db, lane, BUCKETS, b, 1) == {}
  {
    ZeroRoundIsStill(p, w, r, q);
    forall i | 0 <= i < |q.db.rows| ensures !Open(q.db.rows[i]) {
      QuietLaneIsDone(p.db, BalanceLane, r.balance.now, r.balance.trace.calls, r.balance.total, i);
      QuietLaneIsDone(p.db, TempLane, r.temp.now, r.temp.trace.calls, r.temp.total, i);
    }
    forall lane, b | 0 <= b < BUCKETS ensures Batch(q.db, lane, BUCKETS, b, 1) == {} {
      assert forall i :: i in Batch(q.db, lane, BUCKETS, b, 1) ==> Open(q.db.rows[i]);
    }
  }

  /** And if the sweep got through, what it still sees waits for a price; it sees all unless its window is full. */
  lemma ZeroRoundLeavesUnpriced(p: Point, w: RoundWeather, r: Round, q: Point, i: nat)
    requires RoundDone(p, w, r, q) && r.n == 0 && AllAnswered(r) && w.fetched && w.marked
    requires i < |q.db.rows| && q.db.rows[i].billable && !q.db.rows[i].billed
    requires |UnbilledBatch(q.db.rows, FETCH_LIMIT)| < FETCH_LIMIT
    ensures Unpriced(q.db.rows[i])
  {
    ZeroRoundIsStill(p, w, r, q);
    ZeroRoundMeansDone(p, w, r, q);
    FetchSkipsNothing(q.db.rows, FETCH_LIMIT, i);
    assert i !in ZeroIds(q.db.rows);
    assert !Open(q.db.rows[i]);
  }

  // ----- What rounds keep -----

  /** The row's identity and charge are fixed, and a billed row stays billed. */
  predicate SameRow(r: Row, s: Row) {
    && s.user == r.user && s.group == r.group && s.cost == r.cost && s.tier == r.tier && s.billable == r.billable
    && (r.billed ==> s.billed)
  }

  ghost predicate SameRows(a: Db, b: Db) {
    |a.rows| == |b.rows| && forall i {:trigger b.rows[i]} :: 0 <= i < |a.rows| ==> SameRow(a.rows[i], b.rows[i])
  }

  lemma CallKeepsRow(start: Db, lane: Lane, b: nat, act: Act, i: nat)
    requires i < |start.rows|
    ensures var now := Perform(start, lane, BUCKETS, b, act);
            |now.rows| == |start.rows| && SameRow(start.rows[i], now.rows[i])
  {
  }

  lemma LaneKeepsRows(start: Db, lane: Lane, now: Db, calls: Calls, total: Summary)
    requires LaneDone(start, lane, now, calls, total)
    ensures SameRows(start, now)
  {
    forall i | 0 <= i < |start.rows| ensures SameRow(start.rows[i], now.rows[i]) {
      var b := start.rows[i].user % BUCKETS;
      CallKeepsRow(start, lane, b, Acts(calls)[b], i);
      assert now.rows[i] == JoinedRow(start, lane, BUCKETS, Acts(calls), i);
    }
  }

  lemma RoundKeepsRows(p: Point, w: RoundWeather, r: Round, q: Point)
    requires RoundDone(p, w, r, q)
    ensures SameRows(p.db, q.db)
  {
    LaneKeepsRows(p.db, BalanceLane, r.balance.now, r.balance.trace.calls, r.balance.total);
    LaneKeepsRows(r.balance.now, TempLane, r.temp.now, r.temp.trace.calls, r.temp.total);
    forall i | 0 <= i < |p.db.rows| ensures SameRow(p.db.rows[i], q.db.rows[i]) {
      assert SameRow(p.db.rows[i], r.balance.now.rows[i]) && SameRow(r.balance.now.rows[i], r.temp.now.rows[i]);
    }
  }

  // ----- The drain loop -----

  /** What a drain loop meets: before round i it is alive or cancelled, after round i it is late or not. */
  datatype DrainWeather = DrainWeather(alive: nat -> bool, late: nat -> bool, round: nat -> RoundWeather)

  function Progressed(rounds: seq<Round>): nat {
    if rounds == [] then 0 else Progressed(rounds[..|rounds| - 1]) + rounds[|rounds| - 1].n
  }

  /** Round i ran from one point of the trail to the next. */
  ghost predicate Link(w: DrainWeather, trail: seq<Point>, rounds: seq<Round>, i: nat) {
    i < |rounds| && i + 1 < |trail| && w.alive(i) && RoundDone(trail[i], w.round(i), rounds[i], trail[i + 1])
  }

  /** Round i made progress, in time. */
  predicate WentOn(w: DrainWeather, rounds: seq<Round>, i: nat) { i < |rounds| && rounds[i].n > 0 && !w.late(i) }

  /** Rounds one after the other, each but the last with progress and in time. */
  ghost predicate Chain(w: DrainWeather, trail: seq<Point>, rounds: seq<Round>) {
    && |trail| == |rounds| + 1
    && (forall i {:trigger Link(w, trail, rounds, i)} :: 0 <= i < |rounds| ==> Link(w, trail, rounds, i))
    && (forall i {:trigger WentOn(w, rounds, i)} :: 0 <= i < |rounds| - 1 ==> WentOn(w, rounds, i))
  }

  /** The loop ends for exactly one of these reasons. */
  predicate Ended(w: DrainWeather, rounds: seq<Round>) {
    if rounds != [] && !WentOn(w, rounds, |rounds| - 1) then true else !w.alive(|rounds|)
  }

  ghost predicate DrainDone(p: Point, w: DrainWeather, trail: seq<Point>, rounds: seq<Round>, q: Point) {
    Chain(w, trail, rounds) && trail[0] == p && trail[|rounds|] == q && Ended(w, rounds)
  }

  lemma ChainExtends(w: DrainWeather, trail: seq<Point>, rounds: seq<Round>, r: Round, q: Point)
    requires Chain(w, trail, rounds) && w.alive(|rounds|)
    requires RoundDone(trail[|rounds|], w.round(|rounds|), r, q)
    requires rounds != [] ==> WentOn(w, rounds, |rounds| - 1)
    ensures Chain(w, trail + [q], rounds + [r])
  {
    var ts, rs := trail + [q], rounds + [r];
    forall i | 0 <= i < |rs| ensures Link(w, ts, rs, i) {
      if i < |rounds| {
        assert Link(w, trail, rounds, i);
        assert ts[i] == trail[i] && ts[i + 1] == trail[i + 1] && rs[i] == rounds[i];
      } else {
        assert ts[i] == trail[i] && ts[i + 1] == q && rs[i] == r;
      }
    }
    forall i | 0 <= i < |rs| - 1 ensures WentOn(w, rs, i) {
      assert WentOn(w, rounds, i) && rounds[i] == rs[i];
    }
  }

  lemma {:induction false} ChainKeepsRows(w: DrainWeather, trail: seq<Point>, rounds: seq<Round>, k: nat)
    requires Chain(w, trail, rounds) && k <= |rounds|
    ensures SameRows(trail[0].db, trail[k].db)
  {
    if k > 0 {
      ChainKeepsRows(w, trail, rounds, k - 1);
      var r := rounds[k - 1];
      assert Link(w, trail, rounds, k - 1);
      RoundKeepsRows(trail[k - 1], w.round(k - 1), r, trail[k]);
      forall i | 0 <= i < |trail[0].db.rows| ensures SameRow(trail[0].db.rows[i], trail[k].db.rows[i]) {
        assert SameRow(trail[0].db.rows[i], trail[k - 1].db.rows[i]);
      }
    }
  }

  lemma ProgressedExtends(rounds: seq<Round>, r: Round)
    ensures Progressed(rounds + [r]) == Progressed(rounds) + r.n
  {
    assert (rounds + [r])[..|rounds|] == rounds;
  }

  /** The loop stopped on its own account, and its last round heard from every bucket. */
  predicate RanDry(rounds: seq<Round>) {
    rounds != [] && rounds[|rounds| - 1].n == 0 && AllAnswered(rounds[|rounds| - 1])
  }

  /** Then every row that was open when it began has left the cursor. */
  lemma DryDrainChargesAll(p: Point, w: DrainWeather, trail: seq<Point>, rounds: seq<Round>, q: Point)
    requires DrainDone(p, w, trail, rounds, q) && RanDry(rounds)
    ensures SameRows(p.db, q.db) && AllCharged(q.db.rows)
    ensures forall i :: 0 <= i < |p.db.rows| && Open(p.db.rows[i]) ==> q.db.rows[i].billed
  {
    var n := |rounds| - 1;
    ChainKeepsRows(w, trail, rounds, |rounds|);
    assert Link(w, trail, rounds, n);
    ZeroRoundMeansDone(trail[n], w.round(n), rounds[n], q);
    forall i | 0 <= i < |p.db.rows| && Open(p.db.rows[i]) ensures q.db.rows[i].billed {
      assert SameRow(p.db.rows[i], q.db.rows[i]) && !Open(q.db.rows[i]);
    }
  }

  /** Nobody cancels it, it is never late, and every attempt commits. */
  ghost predicate Fair(w: DrainWeather) {
    forall i {:trigger w.round(i)} :: w.alive(i) && !w.late(i) && Clear(w.round(i).balance) && Clear(w.round(i).temp)
  }

  lemma ClearRoundAnswers(p: Point, w: RoundWeather, r: Round, q: Point)
    requires RoundDone(p, w, r, q) && Clear(w.balance) && Clear(w.temp)
    ensures AllAnswered(r)
  {
    ClearSkiesAnswer(p.db, BalanceLane, w.balance, p.balanceSize, q.balanceSize, r.balance);
    ClearSkiesAnswer(r.balance.now, TempLane, w.temp, p.tempSize, q.tempSize, r.temp);
  }

  /** In fair weather the loop always runs dry. */
  lemma FairDrainRunsDry(p: Point, w: DrainWeather, trail: seq<Point>, rounds: seq<Round>, q: Point)
    requires DrainDone(p, w, trail, rounds, q) && Fair(w)
    ensures RanDry(rounds)
  {
    var last := |rounds|;
    assert Clear(w.round(last).balance);
    if rounds != [] {
      var n := |rounds| - 1;
      var r := rounds[n];
      assert Clear(w.round(n).balance) && Link(w, trail, rounds, n);
      ClearRoundAnswers(trail[n], w.round(n), r, trail[n + 1]);
    }
  }

  // ----- One cycle -----

  /** What a cycle meets: the session lock, the recovery's fetch and write, its pricing, and the drain loop. */
  datatype CycleWeather = CycleWeather(locked: bool, wired: bool, fetched: bool, applied: bool, pricing: Pricing,
                                       drain: DrainWeather)

  datatype Cycle = Cycle(repriced: Db, trail: seq<Point>, rounds: seq<Round>, n: nat)

  /** The recovery pass works: it is wired, and its fetch and its write succeed. */
  predicate Recovers(w: CycleWeather) { w.wired && w.fetched && w.applied }

  function AfterRecovery(db: Db, w: CycleWeather): Db {
    if Recovers(w) then Recovered(db, Quotes(w.pricing, db.rows)) else db
  }

  function RecoveryCount(db: Db, w: CycleWeather): nat {
    if Recovers(w) then |Recoverable(db.rows, Quotes(w.pricing, db.rows)).Keys| else 0
  }

  /** Without the lock nothing happens; with it, recovery first and then the drain loop on what it left. */
  ghost predicate CycleDone(p: Point, w: CycleWeather, c: Cycle, q: Point) {
    if !w.locked then q == p && c.n == 0
    else
      && c.repriced == AfterRecovery(p.db, w)
      && DrainDone(p.(db := c.repriced), w.drain, c.trail, c.rounds, q)
      && c.n == RecoveryCount(p.db, w) + Progressed(c.rounds)
  }

  /**
    A locked cycle that ran dry billed every row that was open, and every row of its recovery window that its
    pricing gave a positive charge; the latter is billed at that charge.
   */
  lemma DryCycleCollects(p: Point, w: CycleWeather, c: Cycle, q: Point, i: nat)
    requires CycleDone(p, w, c, q) && w.locked && RanDry(c.rounds) && i < |p.db.rows|
    ensures |q.db.rows| == |p.db.rows| && AllCharged(q.db.rows)
    ensures Open(p.db.rows[i]) && !Unpriced(p.db.rows[i]) ==> q.db.rows[i].billed
    ensures var out := RepriceRow(w.pricing, p.db.rows[i], i);
            Recovers(w) && i in UnpricedBatch(p.db.rows, FETCH_LIMIT) && out.Some? && out.value.money.cost > 0 ==>
              q.db.rows[i].billed && q.db.rows[i].cost == out.value.money.cost
  {
    DryDrainChargesAll(p.(db := c.repriced), w.drain, c.trail, c.rounds, q);
    RecoveredAsRepriced(p.db, w.pricing, i);
    assert SameRow(c.repriced.rows[i], q.db.rows[i]);
  }

  // ----- Shutdown -----

  /** What Close meets: before cycle i its budget has expired or not, and the weather of cycle i. */
  datatype CloseWeather = CloseWeather(expired: nat -> bool, cycle: nat -> CycleWeather)

  function Flushed(cycles: seq<Cycle>): nat {
    if cycles == [] then 0 else Flushed(cycles[..|cycles| - 1]) + cycles[|cycles| - 1].n
  }

  /** Cycle i ran from one point of the trail to the next. */
  ghost predicate CycleLink(w: CloseWeather, trail: seq<Point>, cycles: seq<Cycle>, i: nat) {
    i < |cycles| && i + 1 < |trail| && !w.expired(i) && CycleDone(trail[i], w.cycle(i), cycles[i], trail[i + 1])
  }

  predicate CycleMoved(cycles: seq<Cycle>, i: nat) { i < |cycles| && cycles[i].n > 0 }

  ghost predicate Cycles(w: CloseWeather, trail: seq<Point>, cycles: seq<Cycle>) {
    && |trail| == |cycles| + 1
    && (forall i {:trigger CycleLink(w, trail, cycles, i)} :: 0 <= i < |cycles| ==> CycleLink(w, trail, cycles, i))
    && (forall i {:trigger CycleMoved(cycles, i)} :: 0 <= i < |cycles| - 1 ==> CycleMoved(cycles, i))
  }

  /** Cycle after cycle until one makes no progress or the budget is spent. */
  ghost predicate CloseDone(p: Point, w: CloseWeather, trail: seq<Point>, cycles: seq<Cycle>, q: Point) {
    && Cycles(w, trail, cycles) && trail[0] == p && trail[|cycles|] == q
    && (if cycles != [] && !CycleMoved(cycles, |cycles| - 1) then true else w.expired(|cycles|))
  }

  lemma CyclesExtend(w: CloseWeather, trail: seq<Point>, cycles: seq<Cycle>, c: Cycle, q: Point)
    requires Cycles(w, trail, cycles) && !w.expired(|cycles|)
    requires CycleDone(trail[|cycles|], w.cycle(|cycles|), c, q)
    requires cycles != [] ==> CycleMoved(cycles, |cycles| - 1)
    ensures Cycles(w, trail + [q], cycles + [c])
  {
    var ts, cs := trail + [q], cycles + [c];
    forall i | 0 <= i < |cs| ensures CycleLink(w, ts, cs, i) {
      if i < |cycles| {
        assert CycleLink(w, trail, cycles, i);
        assert ts[i] == trail[i] && ts[i + 1] == trail[i + 1] && cs[i] == cycles[i];
      } else {
        assert ts[i] == trail[i] && ts[i + 1] == q && cs[i] == c;
      }
    }
    forall i | 0 <= i < |cs| - 1 ensures CycleMoved(cs, i) {
      assert CycleMoved(cycles, i) && cycles[i] == cs[i];
    }
  }

  lemma FlushedExtends(cycles: seq<Cycle>, c: Cycle)
    ensures Flushed(cycles + [c]) == Flushed(cycles) + c.n
  {
    assert (cycles + [c])[..|cycles|] == cycles;
  }

  /** A locked cycle of fair weather that reports 0 found every row charged and nothing it could price. */
  lemma IdleFairCycle(p: Point, w: CycleWeather, c: Cycle, q: Point)
    requires CycleDone(p, w, c, q) && w.locked && Fair(w.drain) && c.n == 0
    ensures AllCharged(q.db.rows)
    ensures Recovers(w) ==> Recoverable(p.db.rows, Quotes(w.pricing, p.db.rows)) == map[]
  {
    FairDrainRunsDry(p.(db := c.repriced), w.drain, c.trail, c.rounds, q);
    DryDrainChargesAll(p.(db := c.repriced), w.drain, c.trail, c.rounds, q);
    if Recovers(w) {
      assert Recoverable(p.db.rows, Quotes(w.pricing, p.db.rows)).Keys == {};
    }
  }

  /** A shutdown within its budget, with the lock and in fair weather, leaves nothing to charge. */
  lemma FairCloseChargesAll(p: Point, w: CloseWeather, trail: seq<Point>, cycles: seq<Cycle>, q: Point)
    requires CloseDone(p, w, trail, cycles, q)
    requires forall i {:trigger w.cycle(i)} :: !w.expired(i) && w.cycle(i).locked && Fair(w.cycle(i).drain)
    ensures AllCharged(q.db.rows)
  {
    var k := |cycles|;
    assert w.cycle(k).locked;
    if cycles != [] {
      var c := cycles[k - 1];
      assert w.cycle(k - 1).locked && CycleLink(w, trail, cycles, k - 1);
      IdleFairCycle(trail[k - 1], w.cycle(k - 1), c, q);
    }
  }
}
