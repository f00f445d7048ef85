/**
  The settle calls of one lane: what each bucket's call meets, what it therefore does, and how the lane's batch
  controller moves. Clock, network and SQL outcomes are inputs.
 */
module SettleCalls {
  import opened Arithmetic
  import opened Ledger
  import opened Drain
  import opened Batching
  import opened LaneMerge
  import opened LedgerParallel

  /** settleMaxAttempts. */
  const MAX_ATTEMPTS := 3

  /** How one settlement transaction ended. */
  datatype Reply = Committed | Stopped(deadline: bool) | Transient | DataError | ConcurrentMark

  /** The replies the ladder retries. */
  predicate Retried(r: Reply) { r == DataError || r == ConcurrentMark }

  /** How the probe or the mark of a write-off ends. */
  datatype Fate = Fine | Late | Broken

  function FateErr(f: Fate): Err {
    match f
    case Fine => NoErr
    case Late => DeadlineExceeded
    case Broken => OtherErr
  }

  /** What one settle call meets: the replies of its attempts, the fates of probe and mark, and the time it took. */
  datatype Weather = Weather(replies: seq<Reply>, probe: Fate, mark: Fate, took: int) {
    predicate Valid() { |replies| == MAX_ATTEMPTS }
  }

  /** The reply the ladder stops at: the first that is not retried, or the last. */
  function Final(replies: seq<Reply>): (r: Reply)
    requires replies != []
    ensures r in replies && (Retried(r) <==> forall j :: 0 <= j < |replies| ==> Retried(replies[j]))
    ensures Retried(r) ==> r == replies[|replies| - 1]
    ensures forall i :: 0 <= i < |replies| && !Retried(replies[i]) && (forall j :: 0 <= j < i ==> Retried(replies[j]))
              ==> r == replies[i]
  {
    if Retried(replies[0]) && |replies| > 1 then Final(replies[1..]) else replies[0]
  }

  /**
    Exactly when a head row is written off: every attempt met a data error or a concurrent mark,
    a head row was found, and it could be marked.
   */
  predicate WritesOff(db: Db, lane: Lane, k: nat, b: nat, w: Weather)
    requires k > 0
  {
    (forall j :: 0 <= j < |w.replies| ==> Retried(w.replies[j]))
    && w.probe == Fine && w.mark == Fine && Batch(db, lane, k, b, 1) != {}
  }

  /** The error of a write-off: the probe's, then that of an empty lane, then the mark's. */
  function WriteOffErr(db: Db, lane: Lane, k: nat, b: nat, w: Weather): Err
    requires k > 0
  {
    if w.probe != Fine then FateErr(w.probe)
    else if Batch(db, lane, k, b, 1) == {} then OtherErr
    else FateErr(w.mark)
  }

  /** The call as the lane sees it. */
  function CallIn(db: Db, lane: Lane, limit: nat, k: nat, b: nat, w: Weather): Call
    requires k > 0 && w.Valid()
  {
    match Final(w.replies)
    case Committed => Call(limit, NoErr, false)
    case Stopped(deadline) => Call(limit, if deadline then DeadlineExceeded else OtherErr, false)
    case Transient => Call(limit, OtherErr, false)
    case _ => Call(limit, WriteOffErr(db, lane, k, b, w), WriteOffErr(db, lane, k, b, w) == NoErr)
  }

  /** A call writes a head row off exactly in these weathers, and then there is one. */
  lemma WritesOffIff(db: Db, lane: Lane, limit: nat, k: nat, b: nat, w: Weather)
    requires k > 0 && w.Valid()
    ensures var act := ActOf(CallIn(db, lane, limit, k, b, w));
            && (act == HeadRow <==> WritesOff(db, lane, k, b, w)) && Possible(db, lane, k, b, act)
            && (ActSummary(db, lane, k, b, act) == ISOLATED <==> act == HeadRow)
  {
  }

  /**
    When a call reports a deadline, and when no error at all: read off its first reply that is not retried, or, if
    there is none, off probe, head row and mark in this order.
   */
  lemma ErrorsIff(db: Db, lane: Lane, limit: nat, k: nat, b: nat, w: Weather, i: nat)
    requires k > 0 && w.Valid() && i <= MAX_ATTEMPTS && forall j :: 0 <= j < i ==> Retried(w.replies[j])
    requires i < MAX_ATTEMPTS ==> !Retried(w.replies[i])
    ensures var err := CallIn(db, lane, limit, k, b, w).err;
            && (err == NoErr <==> if i < MAX_ATTEMPTS then w.replies[i] == Committed
                                  else w.probe == Fine && w.mark == Fine && Batch(db, lane, k, b, 1) != {})
            && (err == DeadlineExceeded <==>
                  if i < MAX_ATTEMPTS then w.replies[i] == Stopped(true)
                  else w.probe == Late || (w.probe == Fine && w.mark == Late && Batch(db, lane, k, b, 1) != {}))
  {
    if i < MAX_ATTEMPTS {
      assert Final(w.replies) == w.replies[i];
    } else {
      assert Retried(Final(w.replies));
    }
  }

  /** Three concurrent marks in a row also write a head row off, although its data are sound. */
  lemma ConcurrentMarksWriteOff(db: Db, lane: Lane, limit: nat, k: nat, b: nat, took: int)
    requires k > 0 && Batch(db, lane, k, b, 1) != {}
    ensures var w := Weather([ConcurrentMark, ConcurrentMark, ConcurrentMark], Fine, Fine, took);
            w.Valid() && ActOf(CallIn(db, lane, limit, k, b, w)) == HeadRow
  {
  }

  /** A call that goes well at once. */
  const CLEAR := Weather([Committed, Committed, Committed], Fine, Fine, 0)

  /** What the calls of the buckets of one lane meet. */
  type Skies = s: seq<Weather> | |s| == BUCKETS && forall b :: 0 <= b < BUCKETS ==> s[b].Valid()
    witness [CLEAR, CLEAR, CLEAR, CLEAR]

  /** On ledgers that agree for bucket b, its call ends alike. */
  lemma CallLocal(a: Db, c: Db, lane: Lane, limit: nat, k: nat, b: nat, w: Weather)
    requires k > 0 && w.Valid() && SameFor(a, c, k, b)
    ensures CallIn(a, lane, limit, k, b, w) == CallIn(c, lane, limit, k, b, w)
  {
    SameBatch(a, c, lane, k, b, 1);
  }

  /** So it ends as it would have on the ledger the lane started from. */
  lemma SettledAsOnStart(start: Db, lane: Lane, now: Db, ps: seq<Phase>, calls: Calls, total: Summary,
                         results: seq<Option<Summary>>, b: nat, limit: nat, w: Weather)
    requires LaneInv(start, lane, now, ps, calls, total, results) && b < BUCKETS && ps[b].Sized? && w.Valid()
    ensures CallIn(now, lane, limit, BUCKETS, b, w) == CallIn(start, lane, limit, BUCKETS, b, w)
  {
    assert BucketOk(start, lane, b, ps[b], calls[b], results[b]);
    JoinedSame(start, lane, BUCKETS, Acts(calls), now, b);
    CallLocal(start, now, lane, limit, BUCKETS, b, w);
  }

  // ----- The batch size while a lane runs -----

  /**
    What a lane leaves behind for the proof: the calls, the merged answers, the order in which the buckets
    reported to the controller, and the sizes it went through.
   */
  datatype Trace = Trace(calls: Calls, results: seq<Option<Summary>>, order: seq<nat>, sizes: seq<int>)

  /** What bucket b reports: its duration, its error, and whether it filled the size it had asked for. */
  function Report(start: Db, lane: Lane, b: nat, call: Call, w: Weather): Observation {
    Observation(w.took, call.err, ActSummary(start, lane, BUCKETS, b, ActOf(call)).batchRows >= call.limit)
  }

  /** The i-th report moved the size as the controller's rule says. */
  ghost predicate Moved(start: Db, lane: Lane, skies: Skies, t: Trace, i: nat)
    requires i < |t.order| && |t.sizes| == |t.order| + 1
  {
    var b := t.order[i];
    b < |t.calls| == BUCKETS && t.calls[b].Some?
    && t.sizes[i + 1] == Adjust(t.sizes[i], Report(start, lane, b, t.calls[b].value, skies[b]))
  }

  ghost predicate Reports(start: Db, lane: Lane, skies: Skies, t: Trace) {
    && |t.sizes| == |t.order| + 1
    && (forall i, j :: 0 <= i < j < |t.order| ==> t.order[i] != t.order[j])
    && forall i {:trigger t.order[i]} :: 0 <= i < |t.order| ==> Moved(start, lane, skies, t, i)
  }

  /** Bucket b asked for a size the controller had, and its call ended as its weather says. */
  ghost predicate Asked(start: Db, lane: Lane, b: nat, call: Option<Call>, w: Weather, sizes: seq<int>) {
    call.Some? ==>
      call.value.limit in sizes && w.Valid() && call.value == CallIn(start, lane, call.value.limit, BUCKETS, b, w)
  }

  /** One bucket's slot while the lane runs. */
  ghost predicate Slot(start: Db, lane: Lane, b: nat, p: Phase, w: Weather, t: Trace)
    requires b < |t.calls|
  {
    && (b in t.order <==> p.Observed? || p.Merged?)
    && (p.Sized? ==> p.limit in t.sizes)
    && Asked(start, lane, b, t.calls[b], w, t.sizes)
  }

  ghost predicate Steered(start: Db, lane: Lane, skies: Skies, cur: int, ps: seq<Phase>, t: Trace) {
    && |ps| == |t.calls| == BUCKETS
    && Reports(start, lane, skies, t) && t.sizes[|t.order|] == cur
    && forall b {:trigger ps[b]} :: 0 <= b < BUCKETS ==> Slot(start, lane, b, ps[b], skies[b], t)
  }

  /**
    A lane that ran: every bucket made the call its weather decides, with a size the controller had, and
    reported it once; the size moved report by report.
   */
  ghost predicate Sizing(start: Db, lane: Lane, skies: Skies, before: int, after: int, t: Trace) {
    && |t.calls| == BUCKETS
    && Reports(start, lane, skies, t) && t.sizes[0] == before && t.sizes[|t.order|] == after
    && forall b {:trigger skies[b]} :: 0 <= b < BUCKETS ==>
         b in t.order && Asked(start, lane, b, t.calls[b], skies[b], t.sizes)
  }

  lemma SteeringStarts(start: Db, lane: Lane, skies: Skies, cur: int, ps: seq<Phase>, t: Trace)
    requires |ps| == |t.calls| == BUCKETS && t.order == [] && t.sizes == [cur]
    requires forall b :: 0 <= b < BUCKETS ==> ps[b] == Ready && t.calls[b] == None
    ensures Steered(start, lane, skies, cur, ps, t)
  {
  }

  lemma SteeringSizes(start: Db, lane: Lane, skies: Skies, cur: int, ps: seq<Phase>, t: Trace, b: nat)
    requires Steered(start, lane, skies, cur, ps, t) && b < BUCKETS && ps[b] == Ready
    ensures Steered(start, lane, skies, cur, ps[b := Sized(cur)], t)
  {
    assert t.sizes[|t.order|] in t.sizes;
    forall c | 0 <= c < BUCKETS ensures Slot(start, lane, c, ps[b := Sized(cur)][c], skies[c], t) {
      assert Slot(start, lane, c, ps[c], skies[c], t);
    }
  }

  lemma SteeringCalls(start: Db, lane: Lane, skies: Skies, cur: int, ps: seq<Phase>, t: Trace, b: nat, p: Phase,
                      call: Call)
    requires Steered(start, lane, skies, cur, ps, t) && b < BUCKETS && ps[b].Sized? && p.Settled?
    requires call.limit == ps[b].limit && call == CallIn(start, lane, call.limit, BUCKETS, b, skies[b])
    ensures Steered(start, lane, skies, cur, ps[b := p], t.(calls := t.calls[b := Some(call)]))
  {
    var t' := t.(calls := t.calls[b := Some(call)]);
    assert Slot(start, lane, b, ps[b], skies[b], t);
    forall i | 0 <= i < |t'.order| ensures Moved(start, lane, skies, t', i) {
      assert t.order[i] != b && Moved(start, lane, skies, t, i);
    }
    forall c | 0 <= c < BUCKETS ensures Slot(start, lane, c, ps[b := p][c], skies[c], t') {
      assert Slot(start, lane, c, ps[c], skies[c], t);
    }
  }

  lemma SteeringReports(start: Db, lane: Lane, skies: Skies, cur: int, ps: seq<Phase>, t: Trace, b: nat, p: Phase,
                        next: int)
    requires Steered(start, lane, skies, cur, ps, t) && b < BUCKETS && ps[b].Settled? && p.Observed?
    requires t.calls[b].Some? && next == Adjust(cur, Report(start, lane, b, t.calls[b].value, skies[b]))
    ensures Steered(start, lane, skies, next, ps[b := p], t.(order := t.order + [b], sizes := t.sizes + [next]))
  {
    var t' := t.(order := t.order + [b], sizes := t.sizes + [next]);
    assert Slot(start, lane, b, ps[b], skies[b], t);
    forall i | 0 <= i < |t'.order| ensures Moved(start, lane, skies, t', i) {
      if i < |t.order| {
        assert t'.order[i] == t.order[i] && Moved(start, lane, skies, t, i);
      }
    }
    assert forall s :: s in t.sizes ==> s in t'.sizes;
    assert t'.order[|t.order|] == b;
    forall c | 0 <= c < BUCKETS ensures Slot(start, lane, c, ps[b := p][c], skies[c], t') {
      assert Slot(start, lane, c, ps[c], skies[c], t);
    }
  }

  lemma SteeringMerges(start: Db, lane: Lane, skies: Skies, cur: int, ps: seq<Phase>, t: Trace, b: nat,
                       results: seq<Option<Summary>>)
    requires Steered(start, lane, skies, cur, ps, t) && b < BUCKETS && ps[b].Observed?
    ensures Steered(start, lane, skies, cur, ps[b := Merged], t.(results := results))
  {
    var t' := t.(results := results);
    forall i | 0 <= i < |t'.order| ensures Moved(start, lane, skies, t', i) {
      assert Moved(start, lane, skies, t, i);
    }
    forall c | 0 <= c < BUCKETS ensures Slot(start, lane, c, ps[b := Merged][c], skies[c], t') {
      assert Slot(start, lane, c, ps[c], skies[c], t);
    }
  }

  lemma SteeringEnds(start: Db, lane: Lane, skies: Skies, cur: int, ps: seq<Phase>, t: Trace)
    requires Steered(start, lane, skies, cur, ps, t) && forall b :: 0 <= b < BUCKETS ==> ps[b] == Merged
    ensures Sizing(start, lane, skies, t.sizes[0], cur, t)
  {
    forall b | 0 <= b < BUCKETS ensures b in t.order && Asked(start, lane, b, t.calls[b], skies[b], t.sizes) {
      assert Slot(start, lane, b, ps[b], skies[b], t);
    }
  }

  /** A lane's batch size shrinks only if one of its calls timed out. */
  lemma SizeShrinksOnTimeout(start: Db, lane: Lane, skies: Skies, before: int, after: int, t: Trace)
    requires InRange(before) && Sizing(start, lane, skies, before, after, t) && after < before
    ensures TimedOut(t.calls)
  {
    ShrinksBy(start, lane, skies, t, |t.order|);
  }

  lemma {:induction false} ShrinksBy(start: Db, lane: Lane, skies: Skies, t: Trace, n: nat)
    requires Reports(start, lane, skies, t) && n <= |t.order| && InRange(t.sizes[0])
    ensures InRange(t.sizes[n]) && (t.sizes[n] < t.sizes[0] ==> TimedOut(t.calls))
  {
    if n > 0 {
      ShrinksBy(start, lane, skies, t, n - 1);
      var b := t.order[n - 1];
      assert Moved(start, lane, skies, t, n - 1);
    }
  }
}
