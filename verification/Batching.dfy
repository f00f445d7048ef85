/** The adaptive batch size of internal/billing/batch_controller.go. */
module Batching {
  const BATCH_SEED := 8000
  const BATCH_MAX := 64000
  const BATCH_MIN := 500
  /** Nanoseconds, as time.Duration. */
  const TIME_BUDGET := 8_000_000_000

  datatype Err = NoErr | DeadlineExceeded | OtherErr

  datatype Observation = Observation(duration: int, err: Err, subscribed: bool)

  predicate InRange(cur: int) { BATCH_MIN <= cur <= BATCH_MAX }

  predicate Saturated(o: Observation) { o.err == NoErr && o.duration < TIME_BUDGET / 3 && o.subscribed }

  function Clamp(cur: int): int {
    if cur < BATCH_MIN then BATCH_MIN else if cur > BATCH_MAX then BATCH_MAX else cur
  }

  function Adjust(cur: int, o: Observation): int {
    Clamp(if o.err == DeadlineExceeded then cur / 2 else if Saturated(o) then cur * 2 else cur)
  }

  function AdjustAll(cur: int, os: seq<Observation>): int {
    if os == [] then cur else Adjust(AdjustAll(cur, os[..|os| - 1]), os[|os| - 1])
  }

  class BatchController {
    var cur: int

    ghost predicate Valid() reads this { InRange(cur) }

    constructor ()
      ensures Valid() && cur == BATCH_SEED
    {
      cur := BATCH_SEED;
    }

    /** Shrinks only on a timeout, grows only on a fast full batch, and never leaves its range. */
    method Observe(o: Observation)
      requires Valid()
      modifies this
      ensures Valid() && cur == Adjust(old(cur), o)
      ensures cur < old(cur) ==> o.err == DeadlineExceeded
      ensures cur > old(cur) ==> Saturated(o)
    {
      if o.err == DeadlineExceeded {
        cur := cur / 2;
      } else if o.err == NoErr && o.duration < TIME_BUDGET / 3 && o.subscribed {
        cur := cur * 2;
      }
      if cur < BATCH_MIN {
        cur := BATCH_MIN;
      } else if cur > BATCH_MAX {
        cur := BATCH_MAX;
      }
    }
  }

  /** Whatever the buckets report and in whatever order, the size stays in range and shrinks only on timeouts. */
  lemma {:induction false} RangeAndShrink(cur: int, os: seq<Observation>)
    requires InRange(cur)
    ensures InRange(AdjustAll(cur, os))
    ensures AdjustAll(cur, os) < cur ==> exists o :: o in os && o.err == DeadlineExceeded
    ensures AdjustAll(cur, os) > cur ==> exists o :: o in os && Saturated(o)
  {
    if os != [] {
      var init, last := os[..|os| - 1], os[|os| - 1];
      RangeAndShrink(cur, init);
      assert last in os && forall o :: o in init ==> o in os;
    }
  }

  function Doubled(x: int, n: nat): int { if n == 0 then x else 2 * Doubled(x, n - 1) }

  /** n timeouts in a row divide the size by 2^n or reach the floor. */
  lemma {:induction false} TimeoutsShrink(cur: int, os: seq<Observation>)
    requires InRange(cur) && forall o :: o in os ==> o.err == DeadlineExceeded
    ensures AdjustAll(cur, os) == BATCH_MIN || Doubled(AdjustAll(cur, os), |os|) <= cur
  {
    if os != [] {
      var init, last := os[..|os| - 1], os[|os| - 1];
      assert last in os && forall o :: o in init ==> o in os;
      TimeoutsShrink(cur, init);
      RangeAndShrink(cur, init);
      var x := AdjustAll(cur, init);
      DoubledMonotone(2 * (x / 2), x, |init|);
      DoubledShift(x / 2, |init|);
      if x == BATCH_MIN {
        assert AdjustAll(cur, os) == BATCH_MIN;
      }
    }
  }

  /** n fast full batches in a row multiply the size by 2^n or reach the ceiling. */
  lemma {:induction false} FastFullBatchesGrow(cur: int, os: seq<Observation>)
    requires InRange(cur)
    requires forall o :: o in os ==> o.err == NoErr && o.duration < 2_666_666_666 && o.subscribed
    ensures AdjustAll(cur, os) == BATCH_MAX || AdjustAll(cur, os) == Doubled(cur, |os|)
  {
    if os != [] {
      var init, last := os[..|os| - 1], os[|os| - 1];
      assert last in os && forall o :: o in init ==> o in os;
      FastFullBatchesGrow(cur, init);
      RangeAndShrink(cur, init);
    }
  }

  /** Everything else leaves the size alone: other errors, slow batches, and batches that are not full. */
  lemma {:induction false} OthersKeepSize(cur: int, os: seq<Observation>)
    requires InRange(cur)
    requires forall o :: o in os ==>
               o.err == OtherErr || (o.err == NoErr && (o.duration >= 2_666_666_666 || !o.subscribed))
    ensures AdjustAll(cur, os) == cur
  {
    if os != [] {
      var init, last := os[..|os| - 1], os[|os| - 1];
      assert last in os && forall o :: o in init ==> o in os;
      OthersKeepSize(cur, init);
    }
  }

  lemma {:induction false} DoubledMonotone(x: int, y: int, n: nat)
    requires x <= y
    ensures Doubled(x, n) <= Doubled(y, n)
  {
    if n > 0 {
      DoubledMonotone(x, y, n - 1);
    }
  }

  lemma {:induction false} DoubledShift(x: int, n: nat)
    ensures Doubled(2 * x, n) == Doubled(x, n + 1)
  {
    if n > 0 {
      DoubledShift(x, n - 1);
    }
  }

  /** Self-healing: seven timeouts bring every reachable size down to the floor. */
  lemma SevenTimeoutsReachFloor(cur: int, os: seq<Observation>)
    requires InRange(cur) && |os| == 7 && forall o :: o in os ==> o.err == DeadlineExceeded
    ensures AdjustAll(cur, os) == BATCH_MIN
  {
    TimeoutsShrink(cur, os);
    RangeAndShrink(cur, os);
    var x := AdjustAll(cur, os);
    assert Doubled(x, 7) == 128 * x by {
      assert Doubled(x, 1) == 2 * x;
      assert Doubled(x, 3) == 8 * x;
      assert Doubled(x, 5) == 32 * x;
    }
  }
}
