/**
  internal/discovery/discovery.go: heartbeat membership over one shared ZSET.

  Each Redis command of a tick is its own event, so pipelines of different
  instances interleave freely; clocks disagree by up to `skew`. A run is any
  sequence of events. Real time, in milliseconds, is only visible to the proofs.
 */
module Discovery {
  import opened Arithmetic

  const MEMBER_TTL: int := 15_000
  const KEY_TTL: int := 20_000
  const TICK_TIMEOUT: int := 1_000

  /**
    The environment: at real time t every clock reads between t + low and
    t + low + skew; no live registered instance goes longer than `gap` since the
    clock reading of its last completed tick.
   */
  datatype Env = Env(low: int, skew: nat, gap: nat)

  /** A ZSET score and the real time its clock was read. */
  datatype Entry = Entry(score: int, at: int)

  datatype Stage = Sent | Pruned | Added | Renewed | Counted(card: nat)

  /** A tick in flight: the clock reading it captured, when, and how far the server got. */
  datatype Pipeline = Pipeline(reading: int, at: int, stage: Stage)

  /** The atomics of one Discovery object. */
  datatype Local = Local(n: int, errs: nat, failed: bool)

  /**
    registered: a tick has completed; beat is the time its clock was read. Two marks of history:
    lapsed, no ZADD of its own since the key last expired; renewed, its own EXPIRE has run since then.
   */
  datatype Instance = Instance(
    live: bool, registered: bool, beat: int, lapsed: bool, renewed: bool, pipeline: Option<Pipeline>, local: Local)

  datatype Cluster = Cluster(time: int, zset: map<nat, Entry>, expiry: Option<int>, insts: map<nat, Instance>)

  datatype Event =
    | Advance(ms: nat)
    | Join(id: nat) | Crash(id: nat) | CloseBegin(id: nat) | ZRem(id: nat)
    | TickBegin(id: nat, reading: int)
    | ZRemRangeByScore(id: nat) | ZAdd(id: nat) | Expire(id: nat) | ZCard(id: nat)
    | TickOk(id: nat) | TickError(id: nat)

  // ----- The instance-local part -----

  /** Go's int32(x) conversion. */
  function ToInt32(x: int): (r: int)
    ensures -0x8000_0000 <= r < 0x8000_0000
    ensures -0x8000_0000 <= x < 0x8000_0000 ==> r == x
  {
    (x + 0x8000_0000) % 0x1_0000_0000 - 0x8000_0000
  }

  function TickSucceeds(l: Local, card: nat): Local { Local(ToInt32(Max(card, 1)), 0, false) }

  /** The range in which the stored int32 is the count itself. */
  predicate Fits(card: nat) { card < 0x8000_0000 }

  function TickFails(l: Local): Local { Local(l.n, l.errs + 1, true) }

  function Reported(l: Local): (r: int)
    ensures r >= 1
  {
    if l.n > 0 then l.n else 1
  }

  class Discovery {
    var n: int
    var errs: nat
    var failed: bool

    ghost function View(): Local
      reads this
    {
      Local(n, errs, failed)
    }

    constructor ()
      ensures View() == Local(0, 0, false)
    {
      n, errs, failed := 0, 0, false;
    }

    /** The pipeline returned: store the clamped count and clear the error state. */
    method OnTickOk(card: nat)
      modifies this
      ensures View() == TickSucceeds(old(View()), card)
      ensures Fits(card) ==> Reported(View()) == n == Max(card, 1)
      ensures errs == 0 && !failed
    {
      var clamped := if card < 1 then 1 else card;
      n := ToInt32(clamped);
      errs := 0;
      if failed {
        failed := false;
      }
    }

    /** Freeze the last count. */
    method OnTickError()
      modifies this
      ensures View() == TickFails(old(View()))
      ensures Reported(View()) == Reported(old(View())) && failed && errs == old(errs) + 1 && n == old(n)
    {
      errs := errs + 1;
      failed := true;
    }

    method ClusterInstances() returns (r: int)
      ensures r == Reported(View()) && r >= 1
    {
      r := if n > 0 then n else 1;
    }
  }

  // ----- The shared protocol -----

  function Init(time: int): Cluster { Cluster(time, map[], None, map[]) }

  /** Commands stop with the tick's one-second context; registered instances keep their gap. */
  predicate Timely(env: Env, c: Cluster, t: int) {
    forall id :: id in c.insts ==>
      && (c.insts[id].pipeline.Some? ==> t - c.insts[id].pipeline.value.at <= TICK_TIMEOUT)
      && (c.insts[id].live && c.insts[id].registered ==> t - c.insts[id].beat <= env.gap)
  }

  /** Redis drops the key, and with it its expiry, when the set becomes empty. */
  function WithZset(c: Cluster, z: map<nat, Entry>): Cluster {
    c.(zset := z, expiry := if z == map[] then None else c.expiry)
  }

  /** What a tick that reads `reading` leaves in the set when it prunes. */
  function Kept(z: map<nat, Entry>, reading: int): map<nat, Entry> {
    map m | m in z && z[m].score > reading - MEMBER_TTL :: z[m]
  }

  function WithStage(c: Cluster, id: nat, stage: Stage): Cluster
    requires id in c.insts && c.insts[id].pipeline.Some?
  {
    c.(insts := c.insts[id := c.insts[id].(pipeline := Some(c.insts[id].pipeline.value.(stage := stage)))])
  }

  predicate AtStage(c: Cluster, id: nat, stage: Stage) {
    id in c.insts && c.insts[id].pipeline.Some? && c.insts[id].pipeline.value.stage == stage
  }

  /** Time passes and takes the whole key with it. */
  predicate KeyExpires(env: Env, c: Cluster, e: Event) {
    e.Advance? && Timely(env, c, c.time + e.ms) && c.expiry.Some? && c.expiry.value <= c.time + e.ms
  }

  function AfterExpiry(insts: map<nat, Instance>): map<nat, Instance> {
    map id | id in insts :: insts[id].(lapsed := true, renewed := false)
  }

  const NEWCOMER := Local(0, 0, false)

  function Next(env: Env, c: Cluster, e: Event): Cluster {
    match e
    case Advance(ms) =>
      if !Timely(env, c, c.time + ms) then c
      else if KeyExpires(env, c, e) then Cluster(c.time + ms, map[], None, AfterExpiry(c.insts))
      else c.(time := c.time + ms)
    case Join(id) =>
      if id in c.insts then c else c.(insts := c.insts[id := Instance(true, false, c.time, true, false, None,
                                                                      NEWCOMER)])
    case Crash(id) =>
      if id !in c.insts then c else c.(insts := c.insts[id := c.insts[id].(live := false, pipeline := None)])
    case CloseBegin(id) =>
      if id !in c.insts then c else c.(insts := c.insts[id := c.insts[id].(live := false)])
    case ZRem(id) =>
      if id !in c.insts || c.insts[id].live then c else WithZset(c, c.zset - {id})
    case TickBegin(id, reading) =>
      if id !in c.insts || !c.insts[id].live || c.insts[id].pipeline.Some?
         || !(c.time + env.low <= reading <= c.time + env.low + env.skew) then c
      else c.(insts := c.insts[id := c.insts[id].(pipeline := Some(Pipeline(reading, c.time, Sent)))])
    case ZRemRangeByScore(id) =>
      if !AtStage(c, id, Sent) then c
      else
        WithStage(WithZset(c, Kept(c.zset, c.insts[id].pipeline.value.reading)), id, Pruned)
    case ZAdd(id) =>
      if !AtStage(c, id, Pruned) then c
      else
        var p := c.insts[id].pipeline.value;
        var c1 := WithStage(WithZset(c, c.zset[id := Entry(p.reading, p.at)]), id, Added);
        c1.(insts := c1.insts[id := c1.insts[id].(lapsed := false)])
    case Expire(id) =>
      if !AtStage(c, id, Added) then c
      else
        var c1 := WithStage(c.(expiry := if c.zset == map[] then None else Some(c.time + KEY_TTL)), id, Renewed);
        c1.(insts := c1.insts[id := c1.insts[id].(renewed := !c1.insts[id].lapsed)])
    case ZCard(id) =>
      if !AtStage(c, id, Renewed) then c else WithStage(c, id, Counted(|c.zset|))
    case TickOk(id) =>
      if id !in c.insts || c.insts[id].pipeline.None? || !c.insts[id].pipeline.value.stage.Counted? then c
      else
        var i := c.insts[id];
        var p := i.pipeline.value;
        c.(insts := c.insts[id := i.(registered := true, beat := p.at, pipeline := None,
                                     local := TickSucceeds(i.local, p.stage.card))])
    case TickError(id) =>
      if id !in c.insts || c.insts[id].pipeline.None? then c
      else c.(insts := c.insts[id := c.insts[id].(pipeline := None, local := TickFails(c.insts[id].local))])
  }

  function Run(env: Env, c: Cluster, es: seq<Event>): Cluster {
    if es == [] then c else Next(env, Run(env, c, es[..|es| - 1]), es[|es| - 1])
  }

  // ----- Invariant -----

  predicate PastAdd(s: Stage) { s.Added? || s.Renewed? || s.Counted? }
  predicate PastExpire(s: Stage) { s.Renewed? || s.Counted? }

  /** Scores are honest clock readings from the past. */
  ghost predicate EntryOk(env: Env, c: Cluster, m: nat)
    requires m in c.zset
  {
    var x := c.zset[m];
    x.at <= c.time && x.at + env.low <= x.score <= x.at + env.low + env.skew
  }

  /** Everything in the set outlives the cutoff of every pipeline that has pruned. */
  ghost predicate PipelineOk(env: Env, c: Cluster, id: nat, p: Pipeline)
    requires id in c.insts
  {
    var i := c.insts[id];
    && p.at <= c.time <= p.at + TICK_TIMEOUT
    && p.at + env.low <= p.reading <= p.at + env.low + env.skew
    && (!p.stage.Sent? ==> forall m :: m in c.zset ==> c.zset[m].score > p.reading - MEMBER_TTL)
    && (i.live && PastAdd(p.stage) ==> (id in c.zset <==> !i.lapsed) && (id in c.zset ==> c.zset[id].at >= p.at))
    && (i.live && PastExpire(p.stage) ==> (i.renewed <==> !i.lapsed))
    && (i.live && PastExpire(p.stage) && i.renewed ==> c.expiry.Some? && c.expiry.value >= p.at + KEY_TTL)
    && (i.live && i.registered ==> i.beat <= p.at)
  }

  /** A live registered instance is in the set unless the key expired, and once renewed the key outlives it. */
  ghost predicate MemberOk(env: Env, c: Cluster, id: nat)
    requires id in c.insts
  {
    var i := c.insts[id];
    i.live && i.registered ==>
      && i.beat <= c.time <= i.beat + MaxAge(env)
      && (id in c.zset <==> !i.lapsed) && (id in c.zset ==> c.zset[id].at >= i.beat)
      && (i.renewed ==> !i.lapsed && c.expiry.Some? && c.expiry.value >= i.beat + KEY_TTL)
  }

  ghost predicate InstanceOk(env: Env, c: Cluster, id: nat)
    requires id in c.insts
  {
    MemberOk(env, c, id) && (c.insts[id].pipeline.Some? ==> PipelineOk(env, c, id, c.insts[id].pipeline.value))
  }

  ghost predicate Inv(env: Env, c: Cluster) {
    && (forall m {:trigger EntryOk(env, c, m)} :: m in c.zset ==> EntryOk(env, c, m))
    && (forall id {:trigger InstanceOk(env, c, id)} :: id in c.insts ==> InstanceOk(env, c, id))
  }

  /** The oldest a live member's entry can get: a heartbeat gap, or a tick that uses its whole timeout. */
  function MaxAge(env: Env): nat { Max(env.gap, TICK_TIMEOUT) }

  /** The stated operating range: age plus pairwise skew stays below the member TTL. */
  predicate WithinBudget(env: Env) {
    MaxAge(env) + env.skew < MEMBER_TTL
  }

  lemma AdvanceInv(env: Env, c: Cluster, e: Event)
    requires WithinBudget(env) && Inv(env, c) && (e.Advance?)
    ensures Inv(env, Next(env, c, e))
  {
    var c' := Next(env, c, e);
    forall m | m in c'.zset ensures EntryOk(env, c', m) { assert m in c.zset ==> EntryOk(env, c, m); }
    forall id | id in c'.insts ensures InstanceOk(env, c', id) {
      assert id in c.insts ==> InstanceOk(env, c, id);
    }
  }

  lemma PruneInv(env: Env, c: Cluster, e: Event)
    requires WithinBudget(env) && Inv(env, c) && (e.ZRemRangeByScore?)
    ensures Inv(env, Next(env, c, e))
  {
    var c' := Next(env, c, e);
    assert e.id in c.insts ==> InstanceOk(env, c, e.id);
    forall m | m in c'.zset ensures EntryOk(env, c', m) { assert m in c.zset ==> EntryOk(env, c, m); }
    forall id | id in c'.insts ensures InstanceOk(env, c', id) {
      assert id in c.insts ==> InstanceOk(env, c, id);
      assert id in c.zset ==> EntryOk(env, c, id);
    }
  }

  lemma AddInv(env: Env, c: Cluster, e: Event)
    requires WithinBudget(env) && Inv(env, c) && (e.ZAdd?)
    ensures Inv(env, Next(env, c, e))
  {
    var c' := Next(env, c, e);
    assert e.id in c.insts ==> InstanceOk(env, c, e.id);
    forall m | m in c'.zset ensures EntryOk(env, c', m) { assert m in c.zset ==> EntryOk(env, c, m); }
    forall id | id in c'.insts ensures InstanceOk(env, c', id) {
      assert id in c.insts ==> InstanceOk(env, c, id);
    }
  }

  lemma ExpireInv(env: Env, c: Cluster, e: Event)
    requires WithinBudget(env) && Inv(env, c) && (e.Expire?)
    ensures Inv(env, Next(env, c, e))
  {
    var c' := Next(env, c, e);
    assert e.id in c.insts ==> InstanceOk(env, c, e.id);
    forall m | m in c'.zset ensures EntryOk(env, c', m) { assert m in c.zset ==> EntryOk(env, c, m); }
    forall id | id in c'.insts ensures InstanceOk(env, c', id) {
      assert id in c.insts ==> InstanceOk(env, c, id);
    }
  }

  lemma CountInv(env: Env, c: Cluster, e: Event)
    requires WithinBudget(env) && Inv(env, c) && (e.ZCard? || e.TickError?)
    ensures Inv(env, Next(env, c, e))
  {
    var c' := Next(env, c, e);
    assert e.id in c.insts ==> InstanceOk(env, c, e.id);
    forall m | m in c'.zset ensures EntryOk(env, c', m) { assert m in c.zset ==> EntryOk(env, c, m); }
    forall id | id in c'.insts ensures InstanceOk(env, c', id) {
      assert id in c.insts ==> InstanceOk(env, c, id);
    }
  }

  lemma TickOkInv(env: Env, c: Cluster, e: Event)
    requires WithinBudget(env) && Inv(env, c) && (e.TickOk?)
    ensures Inv(env, Next(env, c, e))
  {
    var c' := Next(env, c, e);
    assert e.id in c.insts ==> InstanceOk(env, c, e.id);
    forall m | m in c'.zset ensures EntryOk(env, c', m) { assert m in c.zset ==> EntryOk(env, c, m); }
    forall id | id in c'.insts ensures InstanceOk(env, c', id) {
      assert id in c.insts ==> InstanceOk(env, c, id);
    }
  }

  lemma JoinInv(env: Env, c: Cluster, e: Event)
    requires WithinBudget(env) && Inv(env, c) && (e.Join? || e.TickBegin?)
    ensures Inv(env, Next(env, c, e))
  {
    var c' := Next(env, c, e);
    assert e.id in c.insts ==> InstanceOk(env, c, e.id);
    forall m | m in c'.zset ensures EntryOk(env, c', m) { assert m in c.zset ==> EntryOk(env, c, m); }
    forall id | id in c'.insts ensures InstanceOk(env, c', id) {
      assert id in c.insts ==> InstanceOk(env, c, id);
    }
  }

  lemma LeaveInv(env: Env, c: Cluster, e: Event)
    requires WithinBudget(env) && Inv(env, c) && (e.Crash? || e.CloseBegin? || e.ZRem?)
    ensures Inv(env, Next(env, c, e))
  {
    var c' := Next(env, c, e);
    assert e.id in c.insts ==> InstanceOk(env, c, e.id);
    forall m | m in c'.zset ensures EntryOk(env, c', m) { assert m in c.zset ==> EntryOk(env, c, m); }
    forall id | id in c'.insts ensures InstanceOk(env, c', id) {
      assert id in c.insts ==> InstanceOk(env, c, id);
    }
  }

  lemma NextInv(env: Env, c: Cluster, e: Event)
    requires WithinBudget(env) && Inv(env, c)
    ensures Inv(env, Next(env, c, e))
  {
    match e
    case Advance(_) => AdvanceInv(env, c, e);
    case ZRemRangeByScore(_) => PruneInv(env, c, e);
    case ZAdd(_) => AddInv(env, c, e);
    case Expire(_) => ExpireInv(env, c, e);
    case ZCard(_) => CountInv(env, c, e);
    case TickError(_) => CountInv(env, c, e);
    case TickOk(_) => TickOkInv(env, c, e);
    case Join(_) => JoinInv(env, c, e);
    case TickBegin(_, _) => JoinInv(env, c, e);
    case _ => LeaveInv(env, c, e);
  }

  lemma {:induction false} RunInv(env: Env, time: int, es: seq<Event>)
    requires WithinBudget(env)
    ensures Inv(env, Run(env, Init(time), es))
  {
    if es != [] {
      RunInv(env, time, es[..|es| - 1]);
      NextInv(env, Run(env, Init(time), es[..|es| - 1]), es[|es| - 1]);
    }
  }

  // ----- Membership -----

  /** Live instances with a completed tick. */
  function Alive(c: Cluster): set<nat> {
    set id | id in c.insts && c.insts[id].live && c.insts[id].registered
  }

  /** Those the key has not expired under since their last ZADD. */
  function Held(c: Cluster): set<nat> {
    set id | id in Alive(c) && !c.insts[id].lapsed
  }

  /** The clock of the ticking instance minus the member TTL. */
  function Cutoff(p: Pipeline): int { p.reading - MEMBER_TTL }

  /** Members that are dead, closing or without a completed tick, still within the TTL of the ticker's clock. */
  function Recent(c: Cluster, p: Pipeline): set<nat> {
    set m | m in c.zset && m !in Alive(c) && c.zset[m].score > Cutoff(p)
  }

  /**
    However pipelines interleave, no live instance with a completed tick is ever pruned:
    it is missing from the set exactly when the key has expired since its last ZADD.
   */
  lemma LiveNeverLost(env: Env, time: int, es: seq<Event>)
    requires WithinBudget(env)
    ensures var c := Run(env, Init(time), es);
            forall id :: id in Alive(c) ==> (id in c.zset <==> !c.insts[id].lapsed)
  {
    RunInv(env, time, es);
    var c := Run(env, Init(time), es);
    forall id | id in Alive(c)
      ensures id in c.zset <==> !c.insts[id].lapsed
    {
      assert InstanceOk(env, c, id);
    }
  }

  /** In its own tick: between ZADD and EXPIRE, when the key may still carry a predecessor's deadline. */
  predicate BetweenAddAndExpire(i: Instance) { i.pipeline.Some? && i.pipeline.value.stage.Added? }

  /**
    The key expires only under live instances that have not renewed it since they came into the set:
    one whose EXPIRE has run and which keeps its heartbeat, or is still in that tick, is safe.
   */
  lemma ExpiryFindsNobodyRenewed(env: Env, time: int, es: seq<Event>, e: Event, id: nat)
    requires WithinBudget(env)
    ensures var c := Run(env, Init(time), es);
            KeyExpires(env, c, e) && id in c.insts && c.insts[id].live && id in c.zset ==>
              && (c.insts[id].registered ==> !c.insts[id].renewed)
              && (c.insts[id].pipeline.Some? && PastAdd(c.insts[id].pipeline.value.stage) ==>
                    BetweenAddAndExpire(c.insts[id]))
  {
    RunInv(env, time, es);
    var c := Run(env, Init(time), es);
    if KeyExpires(env, c, e) && id in c.insts && c.insts[id].live && id in c.zset {
      assert InstanceOk(env, c, id);
    }
  }

  /** A completed tick that the key did not expire under has renewed it. */
  lemma CompletedTickRenews(env: Env, time: int, es: seq<Event>, id: nat, card: nat)
    requires WithinBudget(env)
    ensures var c := Run(env, Init(time), es);
            AtStage(c, id, Counted(card)) && c.insts[id].live && !c.insts[id].lapsed ==>
              var c' := Next(env, c, TickOk(id)); id in Alive(c') && c'.insts[id].renewed && id in c'.zset
  {
    var c := Run(env, Init(time), es);
    RunInv(env, time, es);
    if AtStage(c, id, Counted(card)) {
      assert InstanceOk(env, c, id);
    }
  }

  /** From then on it stays in the set for as long as it lives, whatever anybody does. */
  lemma RenewedStays(env: Env, time: int, es: seq<Event>, e: Event, id: nat)
    requires WithinBudget(env)
    ensures var c, c' := Run(env, Init(time), es), Next(env, Run(env, Init(time), es), e);
            id in Alive(c) && c.insts[id].renewed && id in Alive(c') ==> id in c'.zset && c'.insts[id].renewed
  {
    var c := Run(env, Init(time), es);
    RunInv(env, time, es);
    NextInv(env, c, e);
    if id in Alive(c) && c.insts[id].renewed {
      assert InstanceOk(env, c, id);
      ExpiryFindsNobodyRenewed(env, time, es, e, id);
      if id in Alive(Next(env, c, e)) {
        assert InstanceOk(env, Next(env, c, e), id);
      }
    }
  }

  /**
    Once a live instance's ZADD has run, it leaves the set, and so its own count,
    exactly when the whole key expires.
   */
  lemma SelfStaysCountedIff(env: Env, time: int, es: seq<Event>, e: Event, id: nat)
    requires WithinBudget(env)
    ensures var c := Run(env, Init(time), es);
            id in c.insts && c.insts[id].live && c.insts[id].pipeline.Some? && PastAdd(c.insts[id].pipeline.value.stage)
              && id in c.zset
            ==> (id !in Next(env, c, e).zset <==> KeyExpires(env, c, e))
  {
    var c := Run(env, Init(time), es);
    RunInv(env, time, es);
    if id in c.insts && c.insts[id].live && c.insts[id].pipeline.Some? && PastAdd(c.insts[id].pipeline.value.stage)
      && id in c.zset {
      assert InstanceOk(env, c, id) && EntryOk(env, c, id);
      if e.ZRemRangeByScore? && AtStage(c, e.id, Sent) {
        assert InstanceOk(env, c, e.id);
      }
    }
  }

  /**
    A tick counts exactly the live members the key has not expired under, plus only others
    within 15 s of its own clock; a live ticker is in its own count iff the key did not
    expire since its ZADD.
   */
  lemma TickCountsLiveAndRecent(env: Env, time: int, es: seq<Event>, id: nat)
    requires WithinBudget(env) && AtStage(Run(env, Init(time), es), id, Renewed)
    ensures var c := Run(env, Init(time), es);
            var p := c.insts[id].pipeline.value;
            && AtStage(Next(env, c, ZCard(id)), id, Counted(|Held(c) + Recent(c, p)|))
            && (c.insts[id].live ==> (id in Held(c) + Recent(c, p) <==> !c.insts[id].lapsed))
  {
    RunInv(env, time, es);
    LiveNeverLost(env, time, es);
    var c := Run(env, Init(time), es);
    var p := c.insts[id].pipeline.value;
    assert InstanceOk(env, c, id);
    forall m ensures m in c.zset <==> m in Held(c) + Recent(c, p) {
      assert m in Alive(c) ==> InstanceOk(env, c, m);
    }
    assert c.zset.Keys == Held(c) + Recent(c, p);
    assert |c.zset| == |c.zset.Keys|;
  }

  /** A completed tick reports what it counted, and never less than one, exactly while the count fits an int32. */
  lemma TickReportsCount(env: Env, c: Cluster, id: nat, card: nat)
    requires AtStage(c, id, Counted(card))
    ensures Reported(Next(env, c, TickOk(id)).insts[id].local) == Max(card, 1) <==> Fits(card)
  {
  }

  /** Only a completed tick changes an instance's count: failed ones freeze it. */
  lemma CountFrozenOnError(env: Env, c: Cluster, e: Event, id: nat)
    requires id in c.insts && e != TickOk(id)
    ensures id in Next(env, c, e).insts && Reported(Next(env, c, e).insts[id].local) == Reported(c.insts[id].local)
  {
  }

  // ----- Reaching states -----

  /** A failed tick is counted and flagged, and leaves the number alone; a successful one clears both. */
  lemma TickOutcomes(env: Env, c: Cluster, id: nat)
    requires id in c.insts && c.insts[id].pipeline.Some?
    ensures var bad := Next(env, c, TickError(id)).insts[id];
            && bad.local.errs == c.insts[id].local.errs + 1 && bad.local.failed && bad.local.n == c.insts[id].local.n
            && bad.pipeline == None && bad.registered == c.insts[id].registered
    ensures c.insts[id].pipeline.value.stage.Counted? ==>
              var good := Next(env, c, TickOk(id)).insts[id];
              && good.local.errs == 0 && !good.local.failed && good.registered && good.pipeline == None
              && good.beat == c.insts[id].pipeline.value.at
  {
  }

  /** A closing instance's ZREM takes it out of the set and touches nobody else; an emptied key loses its deadline. */
  lemma ClosingLeaves(env: Env, c: Cluster, id: nat)
    requires id in c.insts && !c.insts[id].live
    ensures var c' := Next(env, c, ZRem(id));
            && id !in c'.zset
            && (forall m :: m != id ==> (m in c'.zset <==> m in c.zset) && (m in c.zset ==> c'.zset[m] == c.zset[m]))
            && c'.insts == c.insts && c'.time == c.time
            && ((exists m :: m in c.zset && m != id) ==> c'.expiry == c.expiry)
            && ((forall m :: m in c.zset ==> m == id) ==> c'.expiry == None)
  {
    var z := c.zset - {id};
    if m :| m in c.zset && m != id {
      assert m in z;
    }
  }

  /** Shutting down takes an instance out of the set, and with it out of everybody's next count. */
  lemma ShutdownLeaves(env: Env, c: Cluster, id: nat)
    requires id in c.insts
    ensures var c' := Next(env, Next(env, c, CloseBegin(id)), ZRem(id));
            id !in c'.zset && !c'.insts[id].live && forall m :: m != id ==> (m in c'.zset <==> m in c.zset)
  {
    ClosingLeaves(env, Next(env, c, CloseBegin(id)), id);
  }

  /** Stopped, out of the set, and without a tick in flight. */
  predicate Gone(c: Cluster, id: nat) {
    id in c.insts && !c.insts[id].live && c.insts[id].pipeline == None && id !in c.zset
  }

  lemma GoneStep(env: Env, c: Cluster, id: nat, e: Event)
    requires Gone(c, id)
    ensures Gone(Next(env, c, e), id)
  {
    match e
    case Advance(_) =>
    case Join(_) =>
    case Crash(_) =>
    case CloseBegin(_) =>
    case ZRem(_) =>
    case TickBegin(_, _) =>
    case ZRemRangeByScore(_) =>
    case ZAdd(_) =>
    case Expire(_) =>
    case ZCard(_) =>
    case TickOk(_) =>
    case TickError(_) =>
  }

  /** It never comes back, unless a tick of its own was still in flight. */
  lemma {:induction false} ClosedStaysOut(env: Env, c: Cluster, id: nat, es: seq<Event>)
    requires id in c.insts && !c.insts[id].live && c.insts[id].pipeline == None && id !in c.zset
    ensures id !in Run(env, c, es).zset && Gone(Run(env, c, es), id)
  {
    if es != [] {
      ClosedStaysOut(env, c, id, es[..|es| - 1]);
      GoneStep(env, Run(env, c, es[..|es| - 1]), id, es[|es| - 1]);
    }
  }

  /** With one in flight its ZADD can put the entry back after the ZREM, where only pruning removes it. */
  lemma TickInFlightReturns(env: Env, c: Cluster, id: nat)
    requires AtStage(c, id, Pruned) && !c.insts[id].live
    ensures id in Run(env, c, [ZRem(id), ZAdd(id)]).zset
  {
    var c1 := Next(env, c, ZRem(id));
    assert AtStage(c1, id, Pruned);
    assert [ZRem(id), ZAdd(id)][..1] == [ZRem(id)] && Run(env, c, []) == c;
    assert Run(env, c, [ZRem(id)]) == c1;
  }

  ghost predicate Reaches(env: Env, c: Cluster) {
    exists es :: Run(env, Init(0), es) == c
  }

  lemma Start(env: Env)
    ensures Reaches(env, Init(0))
  {
    assert Run(env, Init(0), []) == Init(0);
  }

  lemma Step(env: Env, c: Cluster, e: Event)
    requires Reaches(env, c)
    ensures Reaches(env, Next(env, c, e))
  {
    var es :| Run(env, Init(0), es) == c;
    assert (es + [e])[..|es|] == es;
    assert Run(env, Init(0), es + [e]) == Next(env, c, e);
  }

  /** A newcomer joins and starts its first tick, on a clock that reads `reading`. */
  lemma JoinAndBegin(env: Env, c: Cluster, id: nat, reading: int) returns (c': Cluster)
    requires Reaches(env, c) && id !in c.insts && c.time + env.low <= reading <= c.time + env.low + env.skew
    ensures Reaches(env, c')
    ensures c' == c.(insts := c.insts[id := Instance(true, false, c.time, true, false,
                                                     Some(Pipeline(reading, c.time, Sent)), NEWCOMER)])
  {
    Step(env, c, Join(id));
    var c1 := Next(env, c, Join(id));
    Step(env, c1, TickBegin(id, reading));
    c' := Next(env, c1, TickBegin(id, reading));
  }

  /** Its pipeline prunes and adds. */
  lemma PruneAndAdd(env: Env, c: Cluster, id: nat) returns (c': Cluster)
    requires Reaches(env, c) && AtStage(c, id, Sent)
    ensures Reaches(env, c')
    ensures var i, p := c.insts[id], c.insts[id].pipeline.value;
            var kept := Kept(c.zset, p.reading);
            c' == Cluster(c.time, kept[id := Entry(p.reading, p.at)], if kept == map[] then None else c.expiry,
                          c.insts[id := i.(lapsed := false, pipeline := Some(p.(stage := Added)))])
  {
    var c1 := Prune(env, c, id);
    Step(env, c1, ZAdd(id));
    c' := Next(env, c1, ZAdd(id));
    assert c'.insts == c.insts[id := c'.insts[id]];
  }

  lemma Prune(env: Env, c: Cluster, id: nat) returns (c': Cluster)
    requires Reaches(env, c) && AtStage(c, id, Sent)
    ensures Reaches(env, c')
    ensures var i, p := c.insts[id], c.insts[id].pipeline.value;
            var kept := Kept(c.zset, p.reading);
            c' == Cluster(c.time, kept, if kept == map[] then None else c.expiry,
                          c.insts[id := i.(pipeline := Some(p.(stage := Pruned)))])
  {
    Step(env, c, ZRemRangeByScore(id));
    c' := Next(env, c, ZRemRangeByScore(id));
    assert c'.zset == Kept(c.zset, c.insts[id].pipeline.value.reading);
  }

  lemma JoinAndAdd(env: Env, c: Cluster, id: nat, reading: int) returns (c': Cluster)
    requires Reaches(env, c) && id !in c.insts && c.time + env.low <= reading <= c.time + env.low + env.skew
    ensures Reaches(env, c')
    ensures var kept := Kept(c.zset, reading);
            c' == Cluster(c.time, kept[id := Entry(reading, c.time)], if kept == map[] then None else c.expiry,
                          c.insts[id := Instance(true, false, c.time, false, false,
                                                 Some(Pipeline(reading, c.time, Added)), NEWCOMER)])
  {
    var c1 := JoinAndBegin(env, c, id, reading);
    c' := PruneAndAdd(env, c1, id);
  }

  /** The rest of a pipeline: EXPIRE, ZCARD and a successful return. */
  lemma CompleteTick(env: Env, c: Cluster, id: nat) returns (c': Cluster)
    requires Reaches(env, c) && AtStage(c, id, Added)
    ensures Reaches(env, c')
    ensures var i := c.insts[id];
            c' == Cluster(c.time, c.zset, if c.zset == map[] then None else Some(c.time + KEY_TTL),
                          c.insts[id := i.(registered := true, beat := i.pipeline.value.at, renewed := !i.lapsed,
                                           pipeline := None,
                                           local := TickSucceeds(i.local, |c.zset|))])
  {
    var c1 := Renew(env, c, id);
    Step(env, c1, ZCard(id));
    var c2 := Next(env, c1, ZCard(id));
    assert c2.insts[id].pipeline == Some(c.insts[id].pipeline.value.(stage := Counted(|c.zset|)));
    Step(env, c2, TickOk(id));
    c' := Next(env, c2, TickOk(id));
  }

  lemma Renew(env: Env, c: Cluster, id: nat) returns (c': Cluster)
    requires Reaches(env, c) && AtStage(c, id, Added)
    ensures Reaches(env, c')
    ensures var i := c.insts[id];
            c' == Cluster(c.time, c.zset, if c.zset == map[] then None else Some(c.time + KEY_TTL),
                          c.insts[id := i.(renewed := !i.lapsed,
                                           pipeline := Some(i.pipeline.value.(stage := Renewed)))])
  {
    Step(env, c, Expire(id));
    c' := Next(env, c, Expire(id));
  }

  // ----- The budget is exact -----

  /** A heartbeat gap that is too long: a second instance on the fastest clock prunes a live one. */
  lemma LongGapPrunes(env: Env) returns (c: Cluster)
    requires env.gap + env.skew >= MEMBER_TTL
    ensures Reaches(env, c) && 1 in Alive(c) && !c.insts[1].lapsed && 1 !in c.zset
  {
    Start(env);
    c := JoinAndAdd(env, Init(0), 1, env.low);
    c := CompleteTick(env, c, 1);
    var wait: nat := Min(env.gap, KEY_TTL - 1);
    Step(env, c, Advance(wait));
    c := Next(env, c, Advance(wait));
    c := JoinAndAdd(env, c, 2, wait + env.low + env.skew);
  }

  /** A tick that takes its whole timeout: it is pruned after its ZADD and still succeeds. */
  lemma SlowTickPrunes(env: Env) returns (c: Cluster)
    requires TICK_TIMEOUT + env.skew >= MEMBER_TTL
    ensures Reaches(env, c) && 1 in Alive(c) && !c.insts[1].lapsed && 1 !in c.zset
  {
    Start(env);
    c := JoinAndAdd(env, Init(0), 1, env.low);
    Step(env, c, Advance(TICK_TIMEOUT));
    c := Next(env, c, Advance(TICK_TIMEOUT));
    c := JoinAndAdd(env, c, 2, TICK_TIMEOUT + env.low + env.skew);
    c := CompleteTick(env, c, 1);
  }

  /** Outside the budget a live instance is pruned in some run, with the key intact. */
  lemma OverBudgetPrunes(env: Env) returns (c: Cluster)
    requires !WithinBudget(env)
    ensures Reaches(env, c) && 1 in Alive(c) && !c.insts[1].lapsed && 1 !in c.zset
  {
    if env.gap + env.skew >= MEMBER_TTL {
      c := LongGapPrunes(env);
    } else {
      c := SlowTickPrunes(env);
    }
  }

  /** Nobody alive is ever missing without the key having expired. */
  ghost predicate NeverPruned(env: Env) {
    forall time, es :: var c := Run(env, Init(time), es); forall id :: id in Alive(c) && !c.insts[id].lapsed ==>
        id in c.zset
  }

  /**
    Live members are never pruned, in any run, if and only if the longer of heartbeat gap and
    tick timeout, plus skew, is below 15 s.
   */
  lemma BudgetIsExact(env: Env)
    ensures Max(env.gap, TICK_TIMEOUT) + env.skew < MEMBER_TTL <==> NeverPruned(env)
  {
    if WithinBudget(env) {
      forall time, es
        ensures var c := Run(env, Init(time), es); forall id :: id in Alive(c) && !c.insts[id].lapsed ==> id in c.zset
      {
        LiveNeverLost(env, time, es);
      }
    } else {
      var c := OverBudgetPrunes(env);
      var es :| Run(env, Init(0), es) == c;
    }
  }

  // ----- The key can expire under a live instance -----

  predicate AllDead(c: Cluster) { forall id :: id in c.insts ==> !c.insts[id].live && c.insts[id].pipeline == None }

  /** Time passes over a dead cluster whose key is not due yet. */
  lemma Wait(env: Env, c: Cluster, ms: nat) returns (c': Cluster)
    requires Reaches(env, c) && AllDead(c) && (c.expiry.Some? ==> c.time + ms < c.expiry.value)
    ensures Reaches(env, c') && c' == c.(time := c.time + ms)
  {
    Step(env, c, Advance(ms));
    c' := Next(env, c, Advance(ms));
  }

  lemma Die(env: Env, c: Cluster, id: nat) returns (c': Cluster)
    requires Reaches(env, c) && id in c.insts
    ensures Reaches(env, c') && c' == c.(insts := c.insts[id := c.insts[id].(live := false, pipeline := None)])
  {
    Step(env, c, Crash(id));
    c' := Next(env, c, Crash(id));
  }

  /** A lone instance ticks once and dies. */
  lemma FirstDies(env: Env) returns (c: Cluster)
    ensures Reaches(env, c) && c.time == 0 && c.expiry == Some(KEY_TTL) && c.zset == map[1 := Entry(env.low, 0)]
    ensures c.insts.Keys == {1} && AllDead(c)
  {
    Start(env);
    c := JoinAndAdd(env, Init(0), 1, env.low);
    c := CompleteTick(env, c, 1);
    c := Die(env, c, 1);
  }

  /** A heartbeat that dies right after its ZADD leaves an entry but no new deadline. */
  lemma DeadEntryKeepsOldDeadline(env: Env) returns (c: Cluster)
    ensures Reaches(env, c) && c.time == 14_000 && c.expiry == Some(KEY_TTL) && c.insts.Keys == {1, 3}
    ensures c.zset == map[1 := Entry(env.low, 0), 3 := Entry(14_000 + env.low, 14_000)]
    ensures AllDead(c)
  {
    c := FirstDies(env);
    c := Wait(env, c, 14_000);
    assert Kept(c.zset, 14_000 + env.low) == c.zset && 1 in c.zset;
    c := JoinAndAdd(env, c, 3, 14_000 + env.low);
    c := Die(env, c, 3);
  }

  /** Readable at ZADD: the key carries no deadline within a tick's timeout of the clock reading. */
  predicate FarDeadline(c: Cluster, p: Pipeline) { c.expiry.Some? ==> c.expiry.value > p.at + TICK_TIMEOUT }

  /** The tick that read its clock at `at` is past its ZADD, and its instance lives. */
  predicate Ticking(c: Cluster, id: nat, at: int) {
    id in c.insts && c.insts[id].live && c.insts[id].pipeline.Some?
    && PastAdd(c.insts[id].pipeline.value.stage) && c.insts[id].pipeline.value.at == at
  }

  /** The tick counts itself so far, and no deadline threatens it before its own EXPIRE. */
  predicate Safe(c: Cluster, id: nat, at: int) {
    && Ticking(c, id, at) && !c.insts[id].lapsed
    && (BetweenAddAndExpire(c.insts[id]) ==> FarDeadline(c, c.insts[id].pipeline.value))
  }

  /** While the deadline is far the key cannot expire, and it stays far up to the tick's own EXPIRE. */
  lemma SafeStays(env: Env, time: int, es: seq<Event>, e: Event, id: nat, at: int)
    requires WithinBudget(env) && Safe(Run(env, Init(time), es), id, at)
    requires Ticking(Next(env, Run(env, Init(time), es), e), id, at)
    ensures Safe(Next(env, Run(env, Init(time), es), e), id, at)
  {
    var c := Run(env, Init(time), es);
    RunInv(env, time, es);
    assert InstanceOk(env, c, id);
    ExpiryFindsNobodyRenewed(env, time, es, e, id);
  }

  lemma SafeIsCounted(env: Env, time: int, es: seq<Event>, id: nat, at: int)
    requires WithinBudget(env) && Safe(Run(env, Init(time), es), id, at)
    ensures id in Run(env, Init(time), es).zset
  {
    RunInv(env, time, es);
    assert InstanceOk(env, Run(env, Init(time), es), id);
  }

  /** The tick is still the same one after every step of `more`. */
  predicate TicksOn(env: Env, time: int, es: seq<Event>, more: seq<Event>, id: nat, at: int) {
    forall n :: 0 <= n <= |more| ==> Ticking(Run(env, Init(time), es + more[..n]), id, at)
  }

  /** From a ZADD with a far deadline on, whatever anybody does, the tick stays in its own count to its end. */
  lemma {:induction false} FarDeadlineIsCounted(env: Env, time: int, es: seq<Event>, more: seq<Event>, id: nat, at: int)
    requires WithinBudget(env) && Safe(Run(env, Init(time), es), id, at) && TicksOn(env, time, es, more, id, at)
    ensures Safe(Run(env, Init(time), es + more), id, at) && id in Run(env, Init(time), es + more).zset
  {
    if more == [] {
      assert es + more == es;
    } else {
      var before, e := more[..|more| - 1], more[|more| - 1];
      TicksOnBefore(env, time, es, more, id, at);
      FarDeadlineIsCounted(env, time, es, before, id, at);
      RunLast(env, time, es, more);
      SafeStays(env, time, es + before, e, id, at);
    }
    SafeIsCounted(env, time, es + more, id, at);
  }

  lemma TicksOnBefore(env: Env, time: int, es: seq<Event>, more: seq<Event>, id: nat, at: int)
    requires more != [] && TicksOn(env, time, es, more, id, at)
    ensures TicksOn(env, time, es, more[..|more| - 1], id, at) && Ticking(Run(env, Init(time), es + more), id, at)
  {
    var before := more[..|more| - 1];
    assert more[..|more|] == more;
    forall n | 0 <= n <= |before| ensures Ticking(Run(env, Init(time), es + before[..n]), id, at) {
      assert before[..n] == more[..n];
    }
  }

  lemma RunLast(env: Env, time: int, es: seq<Event>, more: seq<Event>)
    requires more != []
    ensures Run(env, Init(time), es + more)
            == Next(env, Run(env, Init(time), es + more[..|more| - 1]), more[|more| - 1])
  {
    assert (es + more)[..|es + more| - 1] == es + more[..|more| - 1];
  }

  /** A newcomer's ZADD into a set that is not empty leaves the old deadline standing. */
  lemma NewcomerKeepsDeadline(env: Env, c: Cluster, id: nat, reading: int, other: nat) returns (c': Cluster)
    requires Reaches(env, c) && id !in c.insts && c.time + env.low <= reading <= c.time + env.low + env.skew
    requires other in c.zset && c.zset[other].score > reading - MEMBER_TTL
    ensures Reaches(env, c') && c'.time == c.time && c'.expiry == c.expiry
    ensures c'.insts == c.insts[id := Instance(true, false, c.time, false, false,
                                               Some(Pipeline(reading, c.time, Added)), NEWCOMER)]
  {
    assert other in Kept(c.zset, reading);
    c' := JoinAndAdd(env, c, id, reading);
  }

  /** A newcomer's ZADD lands `early` milliseconds before the dead cluster's key runs out. */
  lemma LateNewcomer(env: Env, early: nat) returns (c: Cluster)
    requires 0 < early <= TICK_TIMEOUT
    ensures Reaches(env, c) && c.time == KEY_TTL - early && c.expiry == Some(KEY_TTL) && 2 in c.insts
    ensures var t := KEY_TTL - early;
            c.insts[2] == Instance(true, false, t, false, false, Some(Pipeline(t + env.low, t, Added)), NEWCOMER)
    ensures forall id :: id in c.insts && id != 2 ==> !c.insts[id].live && c.insts[id].pipeline == None
  {
    c := DeadEntryKeepsOldDeadline(env);
    c := Wait(env, c, 6_000 - early);
    assert 3 in c.zset && c.zset[3].score == 14_000 + env.low;
    c := NewcomerKeepsDeadline(env, c, 2, KEY_TTL - early + env.low, 3);
  }

  /**
    And that margin is exact, within any budget: a newcomer that reads its clock any time up to a tick's
    timeout before a dead cluster's key runs out can lose its entry. Its tick succeeds and counts nobody,
    it reports 1, and it is not in the set.
   */
  lemma ExpiryLosesLiveInstance(env: Env, early: nat) returns (c: Cluster)
    requires 0 < early <= TICK_TIMEOUT
    ensures Reaches(env, c) && 2 in Alive(c) && 2 !in c.zset && c.insts[2].lapsed
            && c.insts[2].local == Local(1, 0, false)
  {
    c := LateNewcomer(env, early);
    Step(env, c, Advance(early));
    assert KeyExpires(env, c, Advance(early));
    c := Next(env, c, Advance(early));
    c := CompleteTick(env, c, 2);
  }
}
