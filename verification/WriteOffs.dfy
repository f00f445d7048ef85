/**
  internal/repository/billing_settle.go: where the concurrent marks of the poison-row ladder come from.
  With the session lock there are none; without it a sound row can be written off.
 */
module WriteOffs {
  import opened Arithmetic
  import opened Ledger
  import opened LedgerRuns
  import Fefo
  import SettleCalls
  import LedgerCycles
  import Marker

  // ----- Under the lock -----

  /** A concurrent mark is reported when, as the statement commits, a row of its batch has been marked by somebody. */
  ghost predicate Explained(r: SettleCalls.Reply, ms: seq<LedgerCycles.Move>, t: nat) {
    var s := LedgerCycles.DoAll(ms).sys;
    r == SettleCalls.ConcurrentMark ==>
        t in s.tasks && s.tasks[t].work.Settling? && !StillUnbilled(s.db.rows, s.tasks[t].work.ids)
  }

  /** In a fleet that keeps the lock, only three data errors write a row off. */
  lemma FleetWritesOffOnlyBadData(db: Db, lane: Lane, k: nat, b: nat, w: SettleCalls.Weather,
                                  when: seq<(seq<LedgerCycles.Move>, nat)>)
    requires k > 0 && w.Valid() && |when| == |w.replies| && SettleCalls.WritesOff(db, lane, k, b, w)
    requires forall j :: 0 <= j < |when| ==> Explained(w.replies[j], when[j].0, when[j].1)
    ensures forall j :: 0 <= j < |w.replies| ==> w.replies[j] == SettleCalls.DataError
  {
    forall j | 0 <= j < |w.replies| ensures w.replies[j] == SettleCalls.DataError {
      assert Explained(w.replies[j], when[j].0, when[j].1);
      LedgerCycles.FleetNeverMarksTwice(when[j].0, when[j].1);
      assert SettleCalls.Retried(w.replies[j]);
    }
  }

  // ----- Without it -----

  const ROW := Row(1, None, 5, "auto", true, false, false, 0)

  /** Four rows of one solvent user, the first n of them charged. */
  function RowsAfter(n: nat): seq<Row> { seq(4, i => if i < n then SettleRow(ROW, true) else ROW) }

  function After(n: nat): Sys {
    Sys(Db(RowsAfter(n), map[1 := Account(100 - 5 * n, [], [])]), map[1 := 100], map[], None)
  }

  const SETUP := [Credit(1, 100), Arrive(ROW), Arrive(ROW), Arrive(ROW), Arrive(ROW)]

  /** Instances 0 and 1 both read the head; 1 commits first. */
  const ROUND := [FetchSettle(0, 0, BalanceLane, 1, 0, 1), FetchSettle(1, 1, BalanceLane, 1, 0, 1), Commit(1),
                  Commit(0)]

  function Rounds(n: nat): seq<Event> { if n == 0 then SETUP else Rounds(n - 1) + ROUND }

  lemma Snoc(es: seq<Event>, e: Event)
    ensures Run(es + [e]) == Next(Run(es), e)
  {
    assert (es + [e])[..|es|] == es;
  }

  lemma RowIsWellBorn()
    ensures WellBorn(ROW) && !Marker.IsNoPrice(ROW.tier)
  {
    assert "auto"[0] != Marker.NO_PRICE[0];
  }

  lemma SetupReaches()
    ensures Run(SETUP) == After(0)
  {
    RowIsWellBorn();
    var es := [Credit(1, 100)];
    assert es[..0] == [] && Run(es) == Next(Init(), Credit(1, 100));
    Snoc(es, Arrive(ROW));
    Snoc(es + [Arrive(ROW)], Arrive(ROW));
    Snoc(es + [Arrive(ROW)] + [Arrive(ROW)], Arrive(ROW));
    Snoc(es + [Arrive(ROW)] + [Arrive(ROW)] + [Arrive(ROW)], Arrive(ROW));
    assert SETUP == es + [Arrive(ROW)] + [Arrive(ROW)] + [Arrive(ROW)] + [Arrive(ROW)];
    assert Run(SETUP).db.rows == RowsAfter(0);
  }

  lemma {:induction false} FirstOne(flags: seq<bool>, from: nat, n: nat)
    requires from <= n < |flags| && flags[n] && forall j :: from <= j < n ==> !flags[j]
    ensures First(flags, 1, from) == {n}
    decreases n - from
  {
    if from < n {
      FirstOne(flags, from + 1, n);
    }
  }

  lemma NoTemp(n: nat, j: nat)
    requires j < 4
    ensures !TempActive(After(n).db, RowsAfter(n)[j])
  {
    assert Fefo.Sum(After(n).db.accounts[1].temp) == 0;
  }

  lemma HeadIs(n: nat)
    requires n < 4
    ensures Batch(After(n).db, BalanceLane, 1, 0, 1) == {n}
  {
    var flags := Flags(After(n).db, BalanceLane, 1, 0);
    forall j | 0 <= j <= n ensures flags[j] == (j == n) {
      NoTemp(n, j);
      assert flags[j] == Settleable(After(n).db, BalanceLane, 1, 0, j);
      assert RowsAfter(n)[j] == if j < n then SettleRow(ROW, true) else ROW;
    }
    FirstOne(flags, 0, n);
  }

  lemma {:induction false} TotalOfOne(rows: seq<Row>, n: nat)
    requires n < |rows|
    ensures Total(rows, {n}, rows[n].user) == rows[n].cost
  {
    if n == |rows| - 1 {
      TotalDrops(rows[..n], {n}, n, rows[n].user);
      assert {n} - {n} == {};
      TotalOfOthers(rows[..n], {}, rows[n].user);
    } else {
      TotalOfOne(rows[..|rows| - 1], n);
    }
  }

  lemma SettlesHead(n: nat)
    requires n < 4
    ensures SettleDb(After(n).db, RowsAfter(n), {n}, BalanceLane) == After(n + 1).db
  {
    TotalOfOne(RowsAfter(n), n);
    var db := SettleDb(After(n).db, RowsAfter(n), {n}, BalanceLane);
    assert db.rows == RowsAfter(n + 1);
    assert db.accounts == After(n + 1).db.accounts;
  }

  function Head(n: nat): Work { Settling(BalanceLane, 1, 0, RowsAfter(n), {n}) }

  /** Both instances hold the same batch. */
  lemma BothFetch(n: nat, es: seq<Event>)
    requires n < 4 && Run(es) == After(n)
    ensures Run(es + ROUND[..2]) == Both(n)
  {
    HeadIs(n);
    Snoc(es, ROUND[0]);
    Snoc(es + [ROUND[0]], ROUND[1]);
    assert es + ROUND[..2] == es + [ROUND[0]] + [ROUND[1]];
  }

  function Both(n: nat): Sys { After(n).(tasks := map[0 := Task(0, Head(n)), 1 := Task(1, Head(n))]) }

  function Lost(n: nat): Sys { After(n + 1).(tasks := map[0 := Task(0, Head(n))]) }

  lemma FirstCommits(n: nat)
    requires n < 4
    ensures Next(Both(n), Commit(1)) == Lost(n)
  {
    SettlesHead(n);
    assert RowsAfter(n)[n] == ROW && StillUnbilled(RowsAfter(n), {n});
    assert CommitWork(After(n).db, Head(n)) == After(n + 1).db;
    assert Both(n).tasks - {1} == Lost(n).tasks;
  }

  /** The state of a round before instance 0 commits: its batch has been marked by instance 1. */
  lemma RoundLoses(n: nat, es: seq<Event>)
    requires n < 4 && Run(es) == After(n)
    ensures Run(es + ROUND[..3]) == Lost(n) && !StillUnbilled(RowsAfter(n + 1), {n})
  {
    BothFetch(n, es);
    FirstCommits(n);
    Snoc(es + ROUND[..2], ROUND[2]);
    assert es + ROUND[..3] == es + ROUND[..2] + [ROUND[2]];
    assert RowsAfter(n + 1)[n].billed;
  }

  /** Instance 0's transaction rolls back, and the round ends as if it had not tried. */
  lemma RoundReaches(n: nat, es: seq<Event>)
    requires n < 4 && Run(es) == After(n)
    ensures Run(es + ROUND) == After(n + 1)
  {
    RoundLoses(n, es);
    assert es + ROUND == es + ROUND[..3] + [ROUND[3]];
    Snoc(es + ROUND[..3], ROUND[3]);
    assert Run(es + ROUND).tasks == map[];
  }

  lemma {:induction false} RoundsReach(n: nat)
    requires n <= 4
    ensures Run(Rounds(n)) == After(n)
  {
    if n == 0 {
      SetupReaches();
    } else {
      RoundsReach(n - 1);
      RoundReaches(n - 1, Rounds(n - 1));
    }
  }

  /** What instance 0 does after its third rollback. */
  const GIVE_UP := [ProbeHead(0, 0, BalanceLane, 1, 0, 3), Commit(0)]

  /** The ledger after it: the head row is billed, and no money has moved. */
  function WrittenOff(): Db { After(3).db.(rows := RowsAfter(3)[3 := ROW.(billed := true, uncharged := true)]) }

  function Probed(): Sys { After(3).(tasks := map[0 := Task(0, Isolating(BalanceLane, 1, 0, 3))]) }

  lemma ProbesHead()
    ensures Next(After(3), GIVE_UP[0]) == Probed()
  {
    HeadIs(3);
  }

  lemma MarksHead()
    ensures Next(Probed(), GIVE_UP[1]).db == WrittenOff()
  {
    assert RowsAfter(3)[3] == ROW;
    assert MarkRows(RowsAfter(3), {3}) == WrittenOff().rows;
  }

  lemma GiveUpReaches(es: seq<Event>)
    requires Run(es) == After(3)
    ensures Run(es + GIVE_UP).db == WrittenOff()
  {
    ProbesHead();
    MarksHead();
    Snoc(es, GIVE_UP[0]);
    Snoc(es + [GIVE_UP[0]], GIVE_UP[1]);
    assert es + GIVE_UP == es + [GIVE_UP[0]] + [GIVE_UP[1]];
  }

  /** In round n the guard fires against instance 0. */
  ghost predicate GuardFires(n: nat) {
    var s := Run(Rounds(n) + ROUND[..3]);
    0 in s.tasks && s.tasks[0].work.Settling? && !StillUnbilled(s.db.rows, s.tasks[0].work.ids)
  }

  /**
    Two instances without the lock: three times instance 0's batch is marked under it, so its attempt is rolled
    back as a concurrent mark; then it writes off the head row, whose user exists and can pay, and nobody is
    charged for it.
   */
  lemma LostLockWritesOffSoundRow()
    ensures GuardFires(0) && GuardFires(1) && GuardFires(2)
    ensures Run(Rounds(3) + GIVE_UP).db == WrittenOff()
    ensures var r := WrittenOff().rows[3];
            r.billed && r.cost > 0 && r.charges == 0 && WrittenOff().accounts[r.user].balance >= r.cost
  {
    forall n | 0 <= n < 3 ensures GuardFires(n) {
      RoundsReach(n);
      RoundLoses(n, Rounds(n));
    }
    RoundsReach(3);
    GiveUpReaches(Rounds(3));
  }
}
