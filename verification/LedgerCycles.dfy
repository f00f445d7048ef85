/**
  internal/billing/flusher.go and drain.go, the course of a cycle: each instance takes the session lock,
  recovers prices, then goes round the balance lane, the temp lane and the sweep, and releases. Its bucket
  goroutines work in parallel inside a lane. Instances, their buckets and the outside world interleave freely.
 */
module LedgerCycles {
  import opened Arithmetic
  import opened Ledger
  import opened LedgerRuns

  /** settleParallelism. */
  const BUCKETS: nat := 4

  datatype Stage = InRecovery | InLane(lane: Lane) | InSweep

  /** Where an instance stands; open are its units of work in flight, with the bucket each belongs to. */
  datatype Pc = Off | On(stage: Stage, open: map<nat, nat>)

  datatype Fleet = Fleet(sys: Sys, pcs: map<nat, Pc>)

  datatype Move =
    | World(e: Event)
    | TakeLock(i: nat)
    | Recover(i: nat, t: nat, limit: nat, costs: map<nat, nat>)
    | Settle(i: nat, t: nat, bucket: nat, limit: nat)
    | Probe(i: nat, t: nat, bucket: nat, head: nat)
    | Sweep(i: nat, t: nat, limit: nat)
    | Finish(i: nat, t: nat, commits: bool)
    | NextStage(i: nat)
    | GiveLock(i: nat)

  function PcOf(f: Fleet, i: nat): Pc { if i in f.pcs then f.pcs[i] else Off }

  /** Rows arrive and funds change whatever the flushers do. */
  predicate Outside(e: Event) { e.Arrive? || e.Credit? || e.Regrant? }

  predicate Idle(pc: Pc) { pc.On? && pc.open == map[] }

  /** The lane goroutine of a bucket is between two of its statements. */
  predicate BucketFree(pc: Pc, bucket: nat) {
    pc.On? && pc.stage.InLane? && bucket < BUCKETS && forall t :: t in pc.open ==> pc.open[t] != bucket
  }

  /** The ledger event a move performs, if the instance's program allows it now. */
  function Emit(f: Fleet, m: Move): Option<Event> {
    match m
    case World(e) => if Outside(e) then Some(e) else None
    case TakeLock(i) => if PcOf(f, i).Off? && f.sys.holder.None? then Some(Acquire(i)) else None
    case Recover(i, t, limit, costs) =>
      if Idle(PcOf(f, i)) && PcOf(f, i).stage == InRecovery && t !in f.sys.tasks
        && costs.Keys <= UnpricedBatch(f.sys.db.rows, limit)
      then Some(FetchReprice(t, i, limit, costs)) else None
    case Settle(i, t, bucket, limit) =>
      if BucketFree(PcOf(f, i), bucket) && t !in f.sys.tasks
      then Some(FetchSettle(t, i, PcOf(f, i).stage.lane, BUCKETS, bucket, limit)) else None
    case Probe(i, t, bucket, head) =>
      if BucketFree(PcOf(f, i), bucket) && t !in f.sys.tasks
         && head in Batch(f.sys.db, PcOf(f, i).stage.lane, BUCKETS, bucket, 1)
      then Some(ProbeHead(t, i, PcOf(f, i).stage.lane, BUCKETS, bucket, head)) else None
    case Sweep(i, t, limit) =>
      if Idle(PcOf(f, i)) && PcOf(f, i).stage == InSweep
        && t !in f.sys.tasks then Some(FetchSweep(t, i, limit)) else None
    case Finish(i, t, commits) =>
      if PcOf(f, i).On? && t in PcOf(f, i).open then Some(if commits then Commit(t) else Rollback(t)) else None
    case NextStage(_) => None
    case GiveLock(i) => if Idle(PcOf(f, i)) then Some(Release(i)) else None
  }

  function After(s: Stage): Stage {
    match s
    case InRecovery => InLane(BalanceLane)
    case InLane(BalanceLane) => InLane(TempLane)
    case InLane(TempLane) => InSweep
    case InSweep => InLane(BalanceLane)
  }

  /** The program counter of the moving instance once its event has happened. */
  function Moved(f: Fleet, m: Move): map<nat, Pc> {
    match m
    case World(_) => f.pcs
    case TakeLock(i) => f.pcs[i := On(InRecovery, map[])]
    case Recover(i, t, _, _) => if PcOf(f, i).On? then f.pcs[i := PcOf(f, i).(open := PcOf(f, i).open[t := 0])]
      else f.pcs
    case Settle(i, t, b, _) => if PcOf(f, i).On? then f.pcs[i := PcOf(f, i).(open := PcOf(f, i).open[t := b])]
      else f.pcs
    case Probe(i, t, b, _) => if PcOf(f, i).On? then f.pcs[i := PcOf(f, i).(open := PcOf(f, i).open[t := b])] else f.pcs
    case Sweep(i, t, _) => if PcOf(f, i).On? then f.pcs[i := PcOf(f, i).(open := PcOf(f, i).open[t := 0])] else f.pcs
    case Finish(i, t, _) => if PcOf(f, i).On? then f.pcs[i := PcOf(f, i).(open := PcOf(f, i).open - {t})] else f.pcs
    case NextStage(i) => f.pcs
    case GiveLock(i) => f.pcs[i := Off]
  }

  function Do(f: Fleet, m: Move): Fleet {
    var e := Emit(f, m);
    if e.Some? then Fleet(Next(f.sys, e.value), Moved(f, m))
    else if m.NextStage? && Idle(PcOf(f, m.i)) then f.(pcs := f.pcs[m.i := On(After(PcOf(f, m.i).stage), map[])])
    else f
  }

  function DoAll(ms: seq<Move>): Fleet {
    if ms == [] then Fleet(Init(), map[]) else Do(DoAll(ms[..|ms| - 1]), ms[|ms| - 1])
  }

  /** The ledger events of a run of the fleet. */
  function Trace(ms: seq<Move>): seq<Event> {
    if ms == [] then []
    else
      var before, e := ms[..|ms| - 1], Emit(DoAll(ms[..|ms| - 1]), ms[|ms| - 1]);
      Trace(before) + if e.Some? then [e.value] else []
  }

  // ----- Every run of the fleet keeps the lock's discipline -----

  /** A unit of work fits the stage of the instance that opened it. */
  ghost predicate WorkFits(w: Work, stage: Stage, bucket: nat) {
    match stage
    case InRecovery => w.Repricing?
    case InLane(lane) => LaneTask(w) && w.lane == lane && w.k == BUCKETS && w.bucket == bucket
    case InSweep => w.Sweeping?
  }

  /** The instance under way holds the lock, and its open work is all the work there is. */
  ghost predicate PcOk(f: Fleet, i: nat) {
    var pc := PcOf(f, i);
    && (pc.On? <==> f.sys.holder == Some(i))
    && (pc.On? ==>
          && f.sys.tasks.Keys == pc.open.Keys
          && (forall t :: t in pc.open ==> WorkFits(f.sys.tasks[t].work, pc.stage, pc.open[t]))
          && (pc.stage.InLane? ==> forall t, t' :: t in pc.open && t' in pc.open && pc.open[t] == pc.open[t'] ==>
                t == t'))
  }

  ghost predicate FleetOk(f: Fleet) {
    && (f.sys.holder.None? ==> f.sys.tasks == map[])
    && forall i {:trigger PcOk(f, i)} :: PcOk(f, i)
  }

  /** What the program allows is what the discipline allows. */
  lemma EmitsLocked(f: Fleet, m: Move)
    requires FleetOk(f) && Emit(f, m).Some?
    ensures Locked(f.sys, Emit(f, m).value)
  {
    match m
    case World(_) =>
    case TakeLock(_) =>
    case Finish(_, _, _) =>
    case _ =>
      assert PcOk(f, m.i);
      assert Idle(PcOf(f, m.i)) ==> f.sys.tasks == map[];
  }

  lemma OpeningKeepsMover(f: Fleet, m: Move)
    requires FleetOk(f) && (m.Recover? || m.Settle? || m.Probe? || m.Sweep?)
    ensures PcOk(Do(f, m), m.i)
  {
    assert PcOk(f, m.i);
  }

  lemma ClosingKeepsMover(f: Fleet, m: Move)
    requires FleetOk(f) && (m.Finish? || m.NextStage?)
    ensures PcOk(Do(f, m), m.i)
  {
    assert PcOk(f, m.i);
  }

  lemma DoKeepsHolder(f: Fleet, m: Move)
    requires !m.World? && !m.TakeLock? && !m.GiveLock?
    ensures Do(f, m).sys.holder == f.sys.holder
    ensures forall j :: j != m.i ==> PcOf(Do(f, m), j) == PcOf(f, j)
  {
  }

  lemma WorkMoveKeeps(f: Fleet, m: Move)
    requires FleetOk(f) && !m.World? && !m.TakeLock? && !m.GiveLock?
    ensures FleetOk(Do(f, m))
  {
    var f' := Do(f, m);
    DoKeepsHolder(f, m);
    if m.Finish? || m.NextStage? { ClosingKeepsMover(f, m); } else { OpeningKeepsMover(f, m); }
    assert PcOk(f, m.i);
    forall j ensures PcOk(f', j) {
      assert PcOk(f, j);
    }
  }

  lemma LockMoveKeeps(f: Fleet, m: Move)
    requires FleetOk(f) && (m.World? || m.TakeLock? || m.GiveLock?)
    ensures FleetOk(Do(f, m))
  {
    var f' := Do(f, m);
    assert !m.World? ==> PcOk(f, m.i);
    forall j ensures PcOk(f', j) {
      assert PcOk(f, j);
    }
  }

  /** A move changes the ledger by the event it performs and by nothing else. */
  lemma DoSys(f: Fleet, m: Move)
    ensures Do(f, m).sys == if Emit(f, m).Some? then Next(f.sys, Emit(f, m).value) else f.sys
  {
  }

  lemma RunSnoc(es: seq<Event>, e: Event)
    ensures Run(es + [e]) == Next(Run(es), e)
  {
    assert (es + [e])[..|es|] == es;
  }

  lemma TraceStep(ms: seq<Move>, f: Fleet, m: Move)
    requires ms != [] && f == DoAll(ms[..|ms| - 1]) && m == ms[|ms| - 1] && f.sys == Run(Trace(ms[..|ms| - 1]))
    ensures Do(f, m).sys == Run(Trace(ms))
  {
    var es, e := Trace(ms[..|ms| - 1]), Emit(f, m);
    DoSys(f, m);
    if e.Some? {
      assert Trace(ms) == es + [e.value];
      RunSnoc(es, e.value);
    } else {
      assert Trace(ms) == es;
    }
  }

  lemma LockedAppend(es: seq<Event>, e: Event)
    requires LockedRun(es) && Locked(Run(es), e)
    ensures LockedRun(es + [e])
  {
    var more := es + [e];
    forall n | 0 <= n < |more| ensures Locked(Run(more[..n]), more[n]) {
      if n < |es| {
        assert more[..n] == es[..n] && more[n] == es[n];
      } else {
        assert more[..n] == es;
      }
    }
  }

  /** Every run of the fleet is a locked run of the ledger. */
  lemma {:induction false} FleetIsLocked(ms: seq<Move>)
    ensures FleetOk(DoAll(ms)) && DoAll(ms).sys == Run(Trace(ms)) && LockedRun(Trace(ms))
  {
    if ms != [] {
      var before, m := ms[..|ms| - 1], ms[|ms| - 1];
      var f := DoAll(before);
      FleetIsLocked(before);
      TraceStep(ms, f, m);
      if m.World? || m.TakeLock? || m.GiveLock? { LockMoveKeeps(f, m); } else { WorkMoveKeeps(f, m); }
      if Emit(f, m).Some? {
        EmitsLocked(f, m);
        LockedAppend(Trace(before), Emit(f, m).value);
      } else {
        assert Trace(ms) == Trace(before);
      }
    }
  }

  /** So in a fleet no settlement ever meets a row somebody else has marked. */
  lemma FleetNeverMarksTwice(ms: seq<Move>, t: nat)
    ensures var s := DoAll(ms).sys;
            t in s.tasks && s.tasks[t].work.Settling? ==> StillUnbilled(s.db.rows, s.tasks[t].work.ids)
  {
    FleetIsLocked(ms);
    if t in DoAll(ms).sys.tasks && DoAll(ms).sys.tasks[t].work.Settling? {
      LockPreventsConcurrentMarks(Trace(ms), t);
    }
  }

  // ----- The course of a cycle -----

  /** Whoever finds the lock free gets it, goes through recovery, balance lane, temp lane and sweep, and round again. */
  lemma CourseOfCycle(f: Fleet, i: nat)
    requires f.sys.holder.None? && PcOf(f, i).Off?
    ensures var f1 := Do(f, TakeLock(i));
            var f2 := Do(f1, NextStage(i));
            var f3 := Do(f2, NextStage(i));
            var f4 := Do(f3, NextStage(i));
            && f1.sys.holder == Some(i) && PcOf(f1, i) == On(InRecovery, map[])
            && PcOf(f2, i) == On(InLane(BalanceLane), map[]) && PcOf(f3, i) == On(InLane(TempLane), map[])
            && PcOf(f4, i) == On(InSweep, map[]) && PcOf(Do(f4, NextStage(i)), i) == On(InLane(BalanceLane), map[])
  {
    var f1 := Do(f, TakeLock(i));
    assert PcOf(f1, i) == On(InRecovery, map[]);
    var f2 := Do(f1, NextStage(i));
    assert PcOf(f2, i) == On(InLane(BalanceLane), map[]);
    var f3 := Do(f2, NextStage(i));
    assert PcOf(f3, i) == On(InLane(TempLane), map[]);
  }

  /** An idle instance can always stop, and then the lock is free. */
  lemma EndOfCycle(f: Fleet, i: nat)
    requires FleetOk(f) && Idle(PcOf(f, i))
    ensures Do(f, GiveLock(i)).sys.holder == None && PcOf(Do(f, GiveLock(i)), i) == Off
  {
    assert PcOk(f, i);
  }

  /** In a lane every bucket's batch can be read and committed, whatever other buckets have open. */
  lemma LaneSettles(f: Fleet, i: nat, t: nat, b: nat, limit: nat)
    requires BucketFree(PcOf(f, i), b) && t !in f.sys.tasks
    ensures var lane := PcOf(f, i).stage.lane;
            var f' := Do(Do(f, Settle(i, t, b, limit)), Finish(i, t, true));
            && |f'.sys.db.rows| == |f.sys.db.rows| && f'.sys.tasks == f.sys.tasks
            && forall r :: r in Batch(f.sys.db, lane, BUCKETS, b, limit) ==> f'.sys.db.rows[r].billed
  {
    var lane := PcOf(f, i).stage.lane;
    var f1 := Do(f, Settle(i, t, b, limit));
    assert Emit(f, Settle(i, t, b, limit)) == Some(FetchSettle(t, i, lane, BUCKETS, b, limit));
    assert PcOf(f1, i).On? && t in PcOf(f1, i).open;
    assert Emit(f1, Finish(i, t, true)) == Some(Commit(t));
    SettleTakesEffect(f.sys, t, i, lane, BUCKETS, b, limit);
  }

  /** The sweep stage takes the free rows of its window, and the recovery stage writes the charges it found. */
  lemma SweepAndRecoveryWork(f: Fleet, i: nat, t: nat, limit: nat, costs: map<nat, nat>)
    requires Idle(PcOf(f, i)) && t !in f.sys.tasks && costs.Keys <= UnpricedBatch(f.sys.db.rows, limit)
    ensures PcOf(f, i).stage == InSweep ==>
              Do(Do(f, Sweep(i, t, limit)), Finish(i, t, true)).sys
              == Next(Next(f.sys, FetchSweep(t, i, limit)), Commit(t))
    ensures PcOf(f, i).stage == InRecovery ==>
              Do(Do(f, Recover(i, t, limit, costs)), Finish(i, t, true)).sys
              == Next(Next(f.sys, FetchReprice(t, i, limit, costs)), Commit(t))
  {
    if PcOf(f, i).stage == InSweep {
      var f1 := Do(f, Sweep(i, t, limit));
      assert Emit(f1, Finish(i, t, true)) == Some(Commit(t));
    } else if PcOf(f, i).stage == InRecovery {
      var f1 := Do(f, Recover(i, t, limit, costs));
      assert Emit(f1, Finish(i, t, true)) == Some(Commit(t));
    }
  }
}
