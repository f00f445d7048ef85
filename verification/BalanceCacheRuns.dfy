/**
  internal/billing/provider_balance.go under concurrency. Every critical section
  of Get, and every invalidation, is one event; a run is any sequence of events,
  so fetches, waiters, evictions and invalidations interleave freely. Clock
  readings are arbitrary: nothing below assumes they are ordered.
 */
module BalanceCacheRuns {
  import opened Arithmetic
  import opened Text
  import opened BalanceSnapshot

  /** A validated success of a fetch: which entry it wrote (None: uncached), and when it started. */
  datatype Success = Success(key: Key, entry: Option<nat>, started: nat, amount: string, currency: string, at: int)

  datatype Phase =
    | Looking
    | Waiting(channel: nat)
    | Fetching(entry: nat, previous: Snapshot, started: nat)
    | Uncached(started: nat, configured: bool)
    | Returned(snapshot: Snapshot, now: int)

  /** floor is the stamp of the last invalidation of the account before this Get began. */
  datatype Get = Get(key: Key, floor: nat, phase: Phase)

  /** What an invalidation names. */
  datatype Scope = OfAccount(accountId: int) | OfProvider(provider: string, accountId: int)

  predicate Covers(scope: Scope, k: Key) {
    scope == OfAccount(k.accountId) || scope == OfProvider(k.provider, k.accountId)
  }

  datatype State = State(
    cfg: Config, cache: Cache, gets: map<nat, Get>, closed: set<nat>,
    log: set<Success>, invalidated: map<Scope, nat>, clock: nat)

  datatype Event =
    | Begin(g: nat, key: Key)
    | Look(g: nat, victim: Option<Key>, now: int, configured: bool)
    | WaitOver(g: nat)
    | WaitCancelled(g: nat, now: int, code: ErrorCode)
    | Finish(g: nat, now: int, outcome: Outcome)
    | FinishUncached(g: nat, now: int, outcome: Outcome)
    | InvalidateAccount(accountId: int)
    | InvalidateProvider(provider: string, accountId: int)

  function Init(cfg: Config): State {
    State(cfg, Cache(map[], map[], 0), map[], {}, {}, map[], 1)
  }

  function Stamp(s: State, scope: Scope): nat {
    if scope in s.invalidated then s.invalidated[scope] else 0
  }

  /** The last invalidation that covers a key. */
  function LastInvalidated(s: State, k: Key): nat {
    Max(Stamp(s, OfAccount(k.accountId)), Stamp(s, OfProvider(k.provider, k.accountId)))
  }

  function WithPhase(s: State, g: nat, p: Phase): State
    requires g in s.gets
  {
    s.(gets := s.gets[g := s.gets[g].(phase := p)])
  }

  function Record(s: State, key: Key, entry: Option<nat>, started: nat, o: Outcome, now: int): State {
    if ValidAmount(o) then s.(log := s.log + {Success(key, entry, started, Trim(o.amount), Trim(o.currency), now)})
      else s
  }

  /** Each event also advances the logical clock that stamps entries, fetches and invalidations. */
  function Next(s: State, e: Event): State {
    Step(s, e).(clock := s.clock + 1)
  }

  function Step(s: State, e: Event): State {
    match e
    case Begin(g, key) =>
      if g in s.gets then s
      else s.(gets := s.gets[g := Get(key, LastInvalidated(s, key), Looking)])
    case Look(g, victim, now, configured) =>
      if g in s.gets && s.gets[g].phase.Looking?
         && (s.gets[g].key !in s.cache.entries && |s.cache.entries| >= s.cfg.maxEntries ==> VictimOk(s.cache, victim))
      then
        var (c, d) := Lookup(s.cfg, s.cache, s.gets[g].key, victim, now, configured, g, s.clock);
        WithPhase(s.(cache := c), g, Decided(d, s.clock, now, configured))
      else s
    case WaitOver(g) =>
      if g in s.gets && s.gets[g].phase.Waiting?
        && s.gets[g].phase.channel in s.closed then WithPhase(s, g, Looking) else s
    case WaitCancelled(g, now, code) =>
      if g in s.gets && s.gets[g].phase.Waiting?
      then WithPhase(s, g, Returned(UnavailableSnapshot(s.gets[g].key.accountId, s.gets[g].key.provider, now, code),
                                    now)) else s
    case Finish(g, now, o) =>
      if g in s.gets && s.gets[g].phase.Fetching? && s.gets[g].phase.entry in s.cache.arena && Sensible(o) then
        var key, i := s.gets[g].key, s.gets[g].phase.entry;
        var (entry, answer) := Settle(s.cfg, s.cache.arena[i], key, s.gets[g].phase.previous, o, now);
        var s1 := Record(s, key, Some(i), s.gets[g].phase.started, o, now);
        WithPhase(s1.(cache := s.cache.(arena := s.cache.arena[i := entry]), closed := s.closed + {g}), g,
                  Returned(answer, now))
      else s
    case FinishUncached(g, now, o) =>
      if g in s.gets && s.gets[g].phase.Uncached? && Sensible(o) then
        var key, p := s.gets[g].key, s.gets[g].phase;
        if !p.configured then WithPhase(s, g,
                                        Returned(UnavailableSnapshot(key.accountId, key.provider, now, NoEndpoint),
                                                 now))
        else WithPhase(Record(s, key, None, p.started, o, now), g, Returned(SettleUncached(s.cfg, key, o, now), now))
      else s
    case InvalidateAccount(id) =>
      s.(cache := DropAccount(s.cache, id), invalidated := s.invalidated[OfAccount(id) := s.clock])
    case InvalidateProvider(provider, id) =>
      s.(cache := DropProvider(s.cache, Trim(provider), id),
         invalidated := s.invalidated[OfProvider(Trim(provider), id) := s.clock])
  }

  function Decided(d: Decision, stamp: nat, now: int, configured: bool): Phase {
    match d
    case Answer(snapshot) => Returned(snapshot, now)
    case Wait(channel) => Waiting(channel)
    case Fetch(entry, previous) => Fetching(entry, previous, stamp)
    case Bypass => Uncached(stamp, configured)
  }

  function Run(s: State, es: seq<Event>): State {
    if es == [] then s else Next(Run(s, es[..|es| - 1]), es[|es| - 1])
  }

  // ----- Invariants -----

  /** The value in a snapshot is that of fetch f on entry i, with f's own deadlines. */
  ghost predicate From(cfg: Config, s: Snapshot, f: Success) {
    && s.amount == f.amount && s.currency == f.currency && s.amount != ""
    && s.checkedAt == Some(f.at) && s.expiresAt == Some(f.at + cfg.ttl)
      && s.staleUntil == Some(f.at + cfg.ttl + cfg.staleFor)
  }

  /** A snapshot either carries a validated value of entry i fetched no earlier than its birth, or no value at all. */
  ghost predicate Honest(s: State, x: Snapshot, i: nat, e: Entry) {
    if x.status == Fresh || x.status == Stale
    then exists f :: f in s.log && f.entry == Some(i) && f.started >= e.born && f.key == e.home && From(s.cfg, x, f)
    else x.amount == "" && x.checkedAt == None
  }

  ghost predicate EntryOk(s: State, i: nat)
    requires i in s.cache.arena
  {
    var e := s.cache.arena[i];
    && Honest(s, e.snapshot, i, e)
    && (e.snapshot.status == Fresh || e.snapshot.status == Empty ==> e.retryAt == None)
    && e.born < s.clock
    && (e.fetching ==> e.wait in s.gets && s.gets[e.wait].phase.Fetching? && s.gets[e.wait].phase.entry == i)
  }

  /** A resident entry belongs to its key's account and was created after the account's last invalidation. */
  ghost predicate ResidentOk(s: State, k: Key)
    requires k in s.cache.entries
  {
    var i := s.cache.entries[k];
    i in s.cache.arena && s.cache.arena[i].home == k && s.cache.arena[i].accountId == k.accountId
    && s.cache.arena[i].provider == k.provider && s.cache.arena[i].born > LastInvalidated(s, k)
  }

  /** The value a finished Get handed out. */
  ghost predicate GoodAnswer(s: State, get: Get, x: Snapshot, now: int) {
    && x.status != Empty
    && (x.status == Fresh || x.status == Stale ==>
          exists f :: f in s.log && f.key == get.key && f.started > get.floor && From(s.cfg, x, f))
    && (x.status == Fresh ==> x.expiresAt.Some? && now < x.expiresAt.value)
    && (x.status == Stale ==> x.staleUntil.Some? && now < x.staleUntil.value)
    && (x.status == Unavailable || x.status == Unconfigured ==> x.amount == "" && x.checkedAt == None)
  }

  ghost predicate GetOk(s: State, g: nat)
    requires g in s.gets
  {
    var get := s.gets[g];
    && get.floor <= LastInvalidated(s, get.key)
    && match get.phase
       case Looking => true
       case Waiting(ch) => ch in s.gets && (ch in s.closed || s.gets[ch].phase.Fetching?)
       case Fetching(i, previous, started) =>
         && i in s.cache.arena && s.cache.arena[i].fetching && s.cache.arena[i].wait == g
         && s.cache.arena[i].home == get.key
         && get.floor < s.cache.arena[i].born <= started
         && Honest(s, previous, i, s.cache.arena[i])
       case Uncached(started, _) => started > get.floor
       case Returned(x, now) => GoodAnswer(s, get, x, now)
  }

  ghost predicate Inv(s: State) {
    && s.cfg.Valid() && CacheOk(s.cfg, s.cache) && s.clock > 0
    && (forall i {:trigger EntryOk(s, i)} :: i in s.cache.arena ==> EntryOk(s, i))
    && (forall k {:trigger ResidentOk(s, k)} :: k in s.cache.entries ==> ResidentOk(s, k))
    && (forall g {:trigger GetOk(s, g)} :: g in s.gets ==> GetOk(s, g))
    && (forall a :: a in s.invalidated ==> s.invalidated[a] < s.clock)
  }

  // ----- Evidence only accumulates -----

  ghost predicate LogGrows(s: State, s': State) {
    s.cfg == s'.cfg && s.log <= s'.log
  }

  lemma HonestGrows(s: State, s': State, x: Snapshot, i: nat, e: Entry, e': Entry)
    requires LogGrows(s, s') && Honest(s, x, i, e) && e'.born == e.born && e'.home == e.home
    ensures Honest(s', x, i, e')
  {
    if x.status == Fresh || x.status == Stale {
      var f :| f in s.log && f.entry == Some(i) && f.started >= e.born && f.key == e.home && From(s.cfg, x, f);
      assert f in s'.log;
    }
  }

  lemma GoodAnswerGrows(s: State, s': State, get: Get, x: Snapshot, now: int)
    requires LogGrows(s, s') && GoodAnswer(s, get, x, now)
    ensures GoodAnswer(s', get, x, now)
  {
    if x.status == Fresh || x.status == Stale {
      var f :| f in s.log && f.key == get.key && f.started > get.floor && From(s.cfg, x, f);
      assert f in s'.log;
    }
  }

  /** A value an entry vouches for is a good answer to a Get that began before the entry's last invalidation. */
  lemma HonestIsGoodAnswer(s: State, get: Get, x: Snapshot, i: nat, e: Entry, now: int)
    requires Honest(s, x, i, e) && e.home == get.key && e.born > get.floor && x.status != Empty
    requires x.status == Fresh ==> x.expiresAt.Some? && now < x.expiresAt.value
    requires x.status == Stale ==> x.staleUntil.Some? && now < x.staleUntil.value
    ensures GoodAnswer(s, get, x, now)
  {
    if x.status == Fresh || x.status == Stale {
      var f :| f in s.log && f.entry == Some(i) && f.started >= e.born && f.key == e.home && From(s.cfg, x, f);
      assert f.started > get.floor;
    }
  }

  // ----- Preservation -----

  /** s' differs from s in Get g and entry i only, and nobody else's fetch is disturbed. */
  ghost predicate Touches(s: State, s': State, g: nat, i: nat) {
    && LogGrows(s, s') && s'.clock == s.clock + 1 && s.closed <= s'.closed && s'.invalidated == s.invalidated
    && g in s'.gets && s'.gets == s.gets[g := s'.gets[g]]
    && (i in s'.cache.arena ==> s'.cache.arena == s.cache.arena[i := s'.cache.arena[i]])
    && (i !in s'.cache.arena ==> s'.cache.arena == s.cache.arena)
    && (i in s.cache.arena ==>
          && s'.cache.arena[i].born == s.cache.arena[i].born
            && s'.cache.arena[i].accountId == s.cache.arena[i].accountId
          && s'.cache.arena[i].provider == s.cache.arena[i].provider && s'.cache.arena[i].home == s.cache.arena[i].home)
    && (i in s.cache.arena && s.cache.arena[i].fetching && s.cache.arena[i].wait != g ==>
          s'.cache.arena[i].fetching && s'.cache.arena[i].wait == s.cache.arena[i].wait)
    && (g in s.gets && s.gets[g].phase.Fetching? ==>
          s.gets[g].phase.entry == i && (s'.gets[g].phase.Fetching? || g in s'.closed))
  }

  lemma TouchesKeepsEntry(s: State, s': State, g: nat, i: nat, j: nat)
    requires Inv(s) && Touches(s, s', g, i) && j in s'.cache.arena && j != i
    ensures EntryOk(s', j)
  {
    assert EntryOk(s, j);
    var e := s.cache.arena[j];
    HonestGrows(s, s', e.snapshot, j, e, e);
    if e.fetching {
      assert GetOk(s, e.wait);
    }
  }

  lemma TouchesKeepsGet(s: State, s': State, g: nat, i: nat, h: nat)
    requires Inv(s) && Touches(s, s', g, i) && h in s.gets && h != g
    ensures GetOk(s', h)
  {
    assert GetOk(s, h);
    var get := s.gets[h];
    match get.phase
    case Fetching(j, previous, started) =>
      HonestGrows(s, s', previous, j, s.cache.arena[j], s'.cache.arena[j]);
    case Returned(x, now) => GoodAnswerGrows(s, s', get, x, now);
    case _ =>
  }

  lemma TouchesKeepsInv(s: State, s': State, g: nat, i: nat)
    requires Inv(s) && Touches(s, s', g, i) && CacheOk(s'.cfg, s'.cache)
    requires i in s'.cache.arena ==> EntryOk(s', i)
    requires GetOk(s', g)
    requires forall k :: k in s'.cache.entries ==>
               (k in s.cache.entries && s'.cache.entries[k] == s.cache.entries[k]) || ResidentOk(s', k)
    ensures Inv(s')
  {
    forall j | j in s'.cache.arena ensures EntryOk(s', j) {
      if j != i { TouchesKeepsEntry(s, s', g, i, j); }
    }
    forall h | h in s'.gets ensures GetOk(s', h) {
      if h != g { TouchesKeepsGet(s, s', g, i, h); }
    }
    forall k | k in s'.cache.entries ensures ResidentOk(s', k) {
      if k in s.cache.entries && s'.cache.entries[k] == s.cache.entries[k] {
        assert ResidentOk(s, k);
      }
    }
  }

  /** Events that change one Get and leave the cache alone. */
  lemma GetOnlyKeeps(s: State, e: Event)
    requires Inv(s) && (e.Begin? || e.WaitOver? || e.WaitCancelled?)
    ensures Inv(Next(s, e))
  {
    var s' := Next(s, e);
    if Step(s, e) == s {
      ClockKeeps(s);
    } else {
      assert e.g in s.gets ==> GetOk(s, e.g);
      TouchesKeepsInv(s, s', e.g, s.cache.next);
    }
  }

  /** Time passes, invalidations happen: entries and Gets that did not change stay good. */
  lemma UnchangedKeeps(s: State, s': State)
    requires Inv(s) && s'.cfg == s.cfg && s'.log == s.log && s'.gets == s.gets && s'.closed == s.closed
    requires s'.cache.arena == s.cache.arena && s'.clock > s.clock
    requires forall k :: LastInvalidated(s, k) <= LastInvalidated(s', k)
    ensures forall i {:trigger EntryOk(s', i)} :: i in s'.cache.arena ==> EntryOk(s', i)
    ensures forall g {:trigger GetOk(s', g)} :: g in s'.gets ==> GetOk(s', g)
  {
    forall j | j in s'.cache.arena ensures EntryOk(s', j) {
      assert EntryOk(s, j);
      HonestGrows(s, s', s.cache.arena[j].snapshot, j, s.cache.arena[j], s.cache.arena[j]);
    }
    forall h | h in s'.gets ensures GetOk(s', h) {
      assert GetOk(s, h);
      match s.gets[h].phase
      case Fetching(j, previous, started) => HonestGrows(s, s', previous, j, s.cache.arena[j], s.cache.arena[j]);
      case Returned(x, now) => GoodAnswerGrows(s, s', s.gets[h], x, now);
      case _ =>
    }
  }

  lemma ClockKeeps(s: State)
    requires Inv(s)
    ensures Inv(s.(clock := s.clock + 1))
  {
    var s' := s.(clock := s.clock + 1);
    UnchangedKeeps(s, s');
    forall k | k in s'.cache.entries ensures ResidentOk(s', k) {
      assert ResidentOk(s, k);
    }
  }

  /** Relabelling a value stale keeps its provenance and deadline. */
  lemma StaleHonest(s: State, previous: Snapshot, i: nat, e: Entry, now: int, code: ErrorCode)
    requires Honest(s, previous, i, e) && StaleSnapshot(s.cfg, previous, now, code).Some?
    ensures var x := StaleSnapshot(s.cfg, previous, now, code).value;
            Honest(s, x, i, e) && x.status == Stale && x.staleUntil.Some? && now < x.staleUntil.value
  {
    var x := StaleSnapshot(s.cfg, previous, now, code).value;
    var f :| f in s.log && f.entry == Some(i) && f.started >= e.born && f.key == e.home && From(s.cfg, previous, f);
    assert From(s.cfg, x, f);
  }

  lemma FreshHonest(s: State, key: Key, started: nat, o: Outcome, i: nat, e: Entry, now: int)
    requires ValidAmount(o) && Sensible(o) && s.cfg.Valid() && started >= e.born && key == e.home
    requires Success(key, Some(i), started, Trim(o.amount), Trim(o.currency), now) in s.log
    ensures Honest(s, SuccessSnapshot(s.cfg, key.accountId, key.provider, o, now), i, e)
  {
    var f := Success(key, Some(i), started, Trim(o.amount), Trim(o.currency), now);
    assert f in s.log && From(s.cfg, SuccessSnapshot(s.cfg, key.accountId, key.provider, o, now), f);
  }

  /** Stored or answered, the outcome of a fetch is honest about the entry, and no refresh moves a deadline. */
  lemma SettleHonest(s: State, s': State, g: nat, i: nat, o: Outcome, now: int)
    requires Inv(s) && g in s.gets && s.gets[g].phase.Fetching? && s.gets[g].phase.entry == i && i in s.cache.arena
             && Sensible(o)
    requires LogGrows(s, s') && s'.log == Record(s, s.gets[g].key, Some(i), s.gets[g].phase.started, o, now).log
    ensures var (e, x) := Settle(s.cfg, s.cache.arena[i], s.gets[g].key, s.gets[g].phase.previous, o, now);
            && Honest(s', e.snapshot, i, e)
              && (e.snapshot.status == Fresh || e.snapshot.status == Empty ==> e.retryAt == None)
            && GoodAnswer(s', s.gets[g], x, now)
  {
    var get, e0 := s.gets[g], s.cache.arena[i];
    var (e, x) := Settle(s.cfg, e0, get.key, get.phase.previous, o, now);
    assert GetOk(s, g);
    HonestGrows(s, s', get.phase.previous, i, e0, e);
    if ValidAmount(o) {
      FreshHonest(s', get.key, get.phase.started, o, i, e, now);
    } else if !o.CallerCancelled? {
      var code := if o.Fetched? then InvalidValue else o.code;
      if StaleSnapshot(s.cfg, get.phase.previous, now, code).Some? {
        StaleHonest(s', get.phase.previous, i, e, now, code);
      }
    }
    if !o.CallerCancelled? {
      HonestIsGoodAnswer(s', get, x, i, e, now);
    }
  }

  lemma FinishInto(s: State, s': State, g: nat, i: nat, o: Outcome, now: int)
    requires Inv(s) && g in s.gets && s.gets[g].phase.Fetching? && s.gets[g].phase.entry == i && i in s.cache.arena
             && Sensible(o)
    requires var (e, x) := Settle(s.cfg, s.cache.arena[i], s.gets[g].key, s.gets[g].phase.previous, o, now);
             s' == State(s.cfg, s.cache.(arena := s.cache.arena[i := e]),
                         s.gets[g := s.gets[g].(phase := Returned(x, now))],
                         s.closed + {g}, Record(s, s.gets[g].key, Some(i), s.gets[g].phase.started, o, now).log,
                         s.invalidated, s.clock + 1)
    ensures Inv(s')
  {
    assert GetOk(s, g) && EntryOk(s, i);
    SettleHonest(s, s', g, i, o, now);
    var (e, x) := Settle(s.cfg, s.cache.arena[i], s.gets[g].key, s.gets[g].phase.previous, o, now);
    assert !e.fetching && e.born == s.cache.arena[i].born && e.accountId == s.cache.arena[i].accountId
           && e.provider == s.cache.arena[i].provider && e.home == s.cache.arena[i].home;
    assert GetOk(s', g);
    TouchesKeepsInv(s, s', g, i);
  }

  lemma FinishKeeps(s: State, e: Event)
    requires Inv(s) && e.Finish?
    ensures Inv(Next(s, e))
  {
    if e.g in s.gets && s.gets[e.g].phase.Fetching? && s.gets[e.g].phase.entry in s.cache.arena && Sensible(e.outcome) {
      FinishInto(s, Next(s, e), e.g, s.gets[e.g].phase.entry, e.outcome, e.now);
    } else {
      ClockKeeps(s);
    }
  }

  lemma FinishUncachedKeeps(s: State, e: Event)
    requires Inv(s) && e.FinishUncached?
    ensures Inv(Next(s, e))
  {
    var s', g := Next(s, e), e.g;
    if g in s.gets && s.gets[g].phase.Uncached? && Sensible(e.outcome) {
      assert GetOk(s, g);
      var get := s.gets[g];
      if get.phase.configured && ValidAmount(e.outcome) {
        var f := Success(get.key, None, get.phase.started, Trim(e.outcome.amount), Trim(e.outcome.currency), e.now);
        assert f in s'.log && From(s'.cfg, s'.gets[g].phase.snapshot, f);
      }
      TouchesKeepsInv(s, s', g, s.cache.next);
    } else {
      ClockKeeps(s);
    }
  }

  /** Admission keeps the bound, and the admitted entry is the key's own or a blank one. */
  lemma AdmitOk(cfg: Config, c: Cache, key: Key, victim: Option<Key>, stamp: nat)
    requires cfg.Valid() && CacheOk(cfg, c)
    requires key !in c.entries && |c.entries| >= cfg.maxEntries ==> VictimOk(c, victim)
    ensures var a := Admit(cfg, c, key, victim, stamp);
            a.Some? ==>
              && CacheOk(cfg, a.value) && key in a.value.entries
              && (key in c.entries ==> a.value == c)
              && (key !in c.entries ==>
                    a.value.entries[key] == c.next && a.value.arena == c.arena[c.next := Blank(key, stamp)])
              && forall k :: k in a.value.entries && k != key ==> k in c.entries && a.value.entries[k] == c.entries[k]
  {
    if key !in c.entries && (|c.entries| < cfg.maxEntries || victim.Some?) {
      var kept := if |c.entries| >= cfg.maxEntries then c.entries - {victim.value} else c.entries;
      if |c.entries| >= cfg.maxEntries {
        SmallerWithout(c.entries, victim.value);
      }
      LargerWith(kept, key, c.next);
    }
  }

  /** The decision on an honest entry of the right account: the entry stays honest and the Get gets what it may have. */
  lemma DecideOk(s: State, s': State, e0: Entry, i: nat, g: nat, now: int, configured: bool)
    requires Inv(s) && LogGrows(s, s') && g in s.gets && s.gets[g].phase.Looking?
    requires Honest(s, e0.snapshot, i, e0)
             && (e0.snapshot.status == Fresh || e0.snapshot.status == Empty ==> e0.retryAt == None)
    requires e0.home == s.gets[g].key && e0.born > s.gets[g].floor
    ensures var (e, d) := Decide(s.cfg, e0, i, s.gets[g].key, now, configured, g);
            && e.born == e0.born && e.accountId == e0.accountId && e.provider == e0.provider && e.home == e0.home
            && Honest(s', e.snapshot, i, e)
              && (e.snapshot.status == Fresh || e.snapshot.status == Empty ==> e.retryAt == None)
            && (d.Answer? ==>
                  GoodAnswer(s', s.gets[g], d.snapshot, now) && e.fetching == e0.fetching && e.wait == e0.wait)
            && (d.Wait? ==> e0.fetching && d.channel == e0.wait && e.fetching && e.wait == e0.wait)
            && (d.Fetch? ==> !e0.fetching && e.fetching && e.wait == g && d.entry == i && Honest(s', d.previous, i, e))
            && !d.Bypass?
  {
    var get := s.gets[g];
    var (e, d) := Decide(s.cfg, e0, i, get.key, now, configured, g);
    HonestGrows(s, s', e0.snapshot, i, e0, e);
    if d.Answer? && d.snapshot == e0.snapshot {
      HonestIsGoodAnswer(s', get, d.snapshot, i, e, now);
    }
  }

  /** s' is s after Get g decided on entry i of the admitted cache c. */
  ghost predicate Looked(s: State, s': State, g: nat, c: Cache, i: nat, now: int, configured: bool)
    requires g in s.gets && i in c.arena
  {
    var (e, d) := Decide(s.cfg, c.arena[i].(lastUsed := now), i, s.gets[g].key, now, configured, g);
    s' == State(s.cfg, c.(arena := c.arena[i := e]),
                s.gets[g := s.gets[g].(phase := Decided(d, s.clock, now, configured))],
                s.closed, s.log, s.invalidated, s.clock + 1)
  }

  ghost predicate Admitted(s: State, g: nat, c: Cache, i: nat)
    requires g in s.gets
  {
    var key := s.gets[g].key;
    && CacheOk(s.cfg, c) && key in c.entries && i == c.entries[key] && i in c.arena
    && (key in s.cache.entries ==> c == s.cache)
    && (key !in s.cache.entries ==> i == s.cache.next && c.arena == s.cache.arena[i := Blank(key, s.clock)])
    && forall k :: k in c.entries && k != key ==> k in s.cache.entries && c.entries[k] == s.cache.entries[k]
  }

  lemma LookedOk(s: State, s': State, g: nat, c: Cache, i: nat, now: int, configured: bool)
    requires Inv(s) && g in s.gets && s.gets[g].phase.Looking? && Admitted(s, g, c, i)
             && Looked(s, s', g, c, i, now, configured)
    ensures EntryOk(s', i) && GetOk(s', g) && ResidentOk(s', s.gets[g].key)
    ensures s'.cache.arena[i].born == c.arena[i].born && s'.cache.arena[i].accountId == c.arena[i].accountId
            && s'.cache.arena[i].provider == c.arena[i].provider
            && s'.cache.arena[i].home == c.arena[i].home
    ensures c.arena[i].fetching ==> s'.cache.arena[i].fetching && s'.cache.arena[i].wait == c.arena[i].wait
  {
    var key := s.gets[g].key;
    assert GetOk(s, g);
    if key in s.cache.entries {
      assert ResidentOk(s, key) && EntryOk(s, i);
    }
    DecideOk(s, s', c.arena[i].(lastUsed := now), i, g, now, configured);
  }

  lemma LookInto(s: State, s': State, g: nat, c: Cache, i: nat, now: int, configured: bool)
    requires Inv(s) && g in s.gets && s.gets[g].phase.Looking? && Admitted(s, g, c, i)
             && Looked(s, s', g, c, i, now, configured)
    ensures Inv(s')
  {
    LookedOk(s, s', g, c, i, now, configured);
    TouchesKeepsInv(s, s', g, i);
  }

  lemma LookKeeps(s: State, e: Event)
    requires Inv(s) && e.Look?
    ensures Inv(Next(s, e))
  {
    var g := e.g;
    if g in s.gets && s.gets[g].phase.Looking?
       && (s.gets[g].key !in s.cache.entries && |s.cache.entries| >= s.cfg.maxEntries ==> VictimOk(s.cache, e.victim)) {
      var key := s.gets[g].key;
      AdmitOk(s.cfg, s.cache, key, e.victim, s.clock);
      var a := Admit(s.cfg, s.cache, key, e.victim, s.clock);
      if a.None? {
        assert GetOk(s, g);
        TouchesKeepsInv(s, Next(s, e), g, s.cache.next);
      } else {
        LookInto(s, Next(s, e), g, a.value, a.value.entries[key], e.now, e.configured);
      }
    } else {
      ClockKeeps(s);
    }
  }

  lemma InvalidateKeeps(s: State, e: Event)
    requires Inv(s) && (e.InvalidateAccount? || e.InvalidateProvider?)
    ensures Inv(Next(s, e))
  {
    var s' := Next(s, e);
    UnchangedKeeps(s, s');
    forall k | k in s'.cache.entries ensures ResidentOk(s', k) {
      assert ResidentOk(s, k);
    }
    SubmapSize(s'.cache.entries, s.cache.entries);
  }

  lemma SubmapSize(a: map<Key, nat>, b: map<Key, nat>)
    requires a.Keys <= b.Keys
    ensures |a| <= |b|
  {
    SubsetSize(a.Keys, b.Keys);
  }

  lemma {:induction false} SubsetSize(a: set<Key>, b: set<Key>)
    requires a <= b
    ensures |a| <= |b|
  {
    if a != {} {
      var k :| k in a;
      SubsetSize(a - {k}, b - {k});
    }
  }

  lemma {:induction false} RunInv(cfg: Config, es: seq<Event>)
    requires cfg.Valid()
    ensures Inv(Run(Init(cfg), es))
  {
    if es != [] {
      var s, e := Run(Init(cfg), es[..|es| - 1]), es[|es| - 1];
      RunInv(cfg, es[..|es| - 1]);
      match e
      case Look(_, _, _, _) => LookKeeps(s, e);
      case Finish(_, _, _) => FinishKeeps(s, e);
      case FinishUncached(_, _, _) => FinishUncachedKeeps(s, e);
      case InvalidateAccount(_) => InvalidateKeeps(s, e);
      case InvalidateProvider(_, _) => InvalidateKeeps(s, e);
      case _ => GetOnlyKeeps(s, e);
    }
  }

  // ----- Provenance and deadlines -----

  /**
    Whatever the interleaving and however many refreshes failed, were invalid or
    were cancelled: a value handed out is that of one real validated fetch, fresh
    only before that fetch's time plus TTL, stale only before plus TTL plus
    stale-if-error; and an answer without a value carries none.
   */
  lemma ProvenanceAndDeadline(cfg: Config, es: seq<Event>, g: nat)
    requires cfg.Valid()
    requires g in Run(Init(cfg), es).gets && Run(Init(cfg), es).gets[g].phase.Returned?
    ensures var s := Run(Init(cfg), es);
            var x, now := s.gets[g].phase.snapshot, s.gets[g].phase.now;
            && x.status != Empty
            && (x.status == Fresh || x.status == Stale ==>
                  exists f :: f in s.log && f.key == s.gets[g].key && x.amount == f.amount != ""
                    && x.currency == f.currency && x.checkedAt == Some(f.at)
                              && now < f.at + cfg.ttl + (if x.status == Stale then cfg.staleFor else 0))
            && (x.status == Unavailable || x.status == Unconfigured ==> x.amount == "" && x.checkedAt == None)
  {
    RunInv(cfg, es);
    RunKeepsConfig(cfg, es);
    var s := Run(Init(cfg), es);
    assert GetOk(s, g);
    var x := s.gets[g].phase.snapshot;
    if x.status == Fresh || x.status == Stale {
      var f :| f in s.log && f.key == s.gets[g].key && f.started > s.gets[g].floor && From(s.cfg, x, f);
      assert f in s.log;
    }
  }

  lemma {:induction false} RunKeepsConfig(cfg: Config, es: seq<Event>)
    ensures Run(Init(cfg), es).cfg == cfg && Run(Init(cfg), es).clock == |es| + 1
  {
    if es != [] {
      RunKeepsConfig(cfg, es[..|es| - 1]);
    }
  }

  // ----- Invalidation -----

  lemma NextKeepsFloor(s: State, e: Event, scope: Scope, g: nat)
    requires forall b :: b in s.invalidated ==> s.invalidated[b] < s.clock
    ensures Stamp(s, scope) <= Stamp(Next(s, e), scope)
    ensures var s' := Next(s, e);
            g in s.gets ==> g in s'.gets && s'.gets[g].key == s.gets[g].key && s'.gets[g].floor == s.gets[g].floor
  {
  }

  lemma {:induction false} RunKeepsFloor(cfg: Config, es: seq<Event>, more: seq<Event>, scope: Scope, g: nat)
    requires cfg.Valid()
    ensures Stamp(Run(Init(cfg), es), scope) <= Stamp(Run(Init(cfg), es + more), scope)
    ensures var s, s' := Run(Init(cfg), es), Run(Init(cfg), es + more);
            g in s.gets ==> g in s'.gets && s'.gets[g].key == s.gets[g].key && s'.gets[g].floor == s.gets[g].floor
  {
    if more == [] {
      assert es + more == es;
    } else {
      var before := more[..|more| - 1];
      RunKeepsFloor(cfg, es, before, scope, g);
      assert (es + more)[..|es + more| - 1] == es + before;
      RunInv(cfg, es + before);
      NextKeepsFloor(Run(Init(cfg), es + before), more[|more| - 1], scope, g);
    }
  }

  /** The scope an invalidation names; Invalidate trims the provider it is given. */
  function ScopeOf(e: Event): Scope
    requires e.InvalidateAccount? || e.InvalidateProvider?
  {
    if e.InvalidateAccount? then OfAccount(e.accountId) else OfProvider(Trim(e.provider), e.accountId)
  }

  lemma InvalidationStamps(cfg: Config, es: seq<Event>, inv: Event)
    requires inv.InvalidateAccount? || inv.InvalidateProvider?
    ensures Stamp(Run(Init(cfg), es + [inv]), ScopeOf(inv)) == |es| + 1
  {
    assert (es + [inv])[..|es|] == es;
    RunKeepsConfig(cfg, es);
  }

  /** A Get takes its floor when it begins and keeps it. */
  lemma FloorAtBegin(cfg: Config, es: seq<Event>, g: nat, key: Key, more: seq<Event>, scope: Scope)
    requires cfg.Valid() && Covers(scope, key) && g !in Run(Init(cfg), es).gets
    ensures var s := Run(Init(cfg), es + [Begin(g, key)] + more);
            g in s.gets && s.gets[g].key == key && s.gets[g].floor >= Stamp(Run(Init(cfg), es), scope)
  {
    var begun := es + [Begin(g, key)];
    assert begun[..|es|] == es;
    assert Run(Init(cfg), begun) == Next(Run(Init(cfg), es), Begin(g, key));
    RunKeepsFloor(cfg, begun, more, scope, g);
  }

  /**
    A Get that begins after an invalidation of its account, or of its provider and account, never
    returns a value from a fetch that started before it, although that fetch may still be running:
    every value it returns comes from a fetch stamped after the invalidation.
   */
  lemma InvalidationSafety(cfg: Config, es: seq<Event>, inv: Event, es2: seq<Event>, g: nat, key: Key, es3: seq<Event>)
    requires cfg.Valid() && (inv.InvalidateAccount? || inv.InvalidateProvider?) && Covers(ScopeOf(inv), key)
    requires g !in Run(Init(cfg), es + [inv] + es2).gets
    ensures var s := Run(Init(cfg), es + [inv] + es2 + [Begin(g, key)] + es3);
            && g in s.gets
            && (s.gets[g].phase.Returned? && s.gets[g].phase.snapshot.status in {Fresh, Stale} ==>
                  exists f :: f in s.log && f.key == key && f.started > |es| + 1
                    && From(s.cfg, s.gets[g].phase.snapshot, f))
  {
    InvalidationStamps(cfg, es, inv);
    RunKeepsFloor(cfg, es + [inv], es2, ScopeOf(inv), g);
    FloorAtBegin(cfg, es + [inv] + es2, g, key, es3, ScopeOf(inv));
    RunInv(cfg, es + [inv] + es2 + [Begin(g, key)] + es3);
    var s := Run(Init(cfg), es + [inv] + es2 + [Begin(g, key)] + es3);
    assert GetOk(s, g);
    if s.gets[g].phase.Returned? && s.gets[g].phase.snapshot.status in {Fresh, Stale} {
      var f :| f in s.log && f.key == s.gets[g].key && f.started > s.gets[g].floor
               && From(s.cfg, s.gets[g].phase.snapshot, f);
      assert f.started > |es| + 1;
    }
  }

  // ----- Bound and single flight -----

  /** Both Gets are fetching for the same entry. */
  predicate SameFlight(s: State, g: nat, h: nat) {
    && g in s.gets && h in s.gets && s.gets[g].phase.Fetching? && s.gets[h].phase.Fetching?
    && s.gets[g].phase.entry == s.gets[h].phase.entry
  }

  /** The bound is hard, an entry has one fetch in flight at most, a waiter's channel is closed or has a live owner. */
  lemma BoundAndSingleFlight(cfg: Config, es: seq<Event>, g: nat, h: nat)
    requires cfg.Valid()
    ensures var s := Run(Init(cfg), es);
            && |s.cache.entries| <= cfg.maxEntries
            && (SameFlight(s, g, h) ==> g == h)
            && (g in s.gets && s.gets[g].phase.Waiting? ==>
                  var ch := s.gets[g].phase.channel; ch in s.closed || (ch in s.gets && s.gets[ch].phase.Fetching?))
  {
    RunInv(cfg, es);
    RunKeepsConfig(cfg, es);
    var s := Run(Init(cfg), es);
    if g in s.gets { assert GetOk(s, g); }
    if h in s.gets { assert GetOk(s, h); }
  }

  /** The owner's Finish closes the channel, so its waiters can go on. */
  lemma FinishReleasesWaiters(cfg: Config, es: seq<Event>, g: nat, now: int, o: Outcome, w: nat)
    requires cfg.Valid() && Sensible(o)
    ensures var s := Run(Init(cfg), es);
            g in s.gets && s.gets[g].phase.Fetching? && w in s.gets && s.gets[w].phase == Waiting(g) ==>
              Next(Next(s, Finish(g, now, o)), WaitOver(w)).gets[w].phase == Looking
  {
    RunInv(cfg, es);
    var s := Run(Init(cfg), es);
    if g in s.gets && s.gets[g].phase.Fetching? && w in s.gets && s.gets[w].phase == Waiting(g) {
      assert GetOk(s, g);
      var s1 := Next(s, Finish(g, now, o));
      assert g in s1.closed && s1.gets[w].phase == Waiting(g);
    }
  }

  /**
    A lookup that drops a resident entry drops the least recently used one that
    is not being fetched, and only from a full cache. Nothing else but an
    invalidation drops entries.
   */
  lemma EvictionIsLru(cfg: Config, es: seq<Event>, e: Event, k: Key)
    requires cfg.Valid()
    ensures var s := Run(Init(cfg), es);
            k in s.cache.entries && k !in Next(s, e).cache.entries ==>
              || e.InvalidateAccount? || e.InvalidateProvider?
              || (e.Look? && |s.cache.entries| == cfg.maxEntries && IsVictim(s.cache, k))
  {
    RunInv(cfg, es);
    RunKeepsConfig(cfg, es);
  }

  // ----- What a Get gets -----

  /** A Get that is about to look, on a key that is resident. */
  predicate LooksAt(s: State, h: nat, k: Key, i: nat) {
    && h in s.gets && s.gets[h].phase.Looking? && s.gets[h].key == k
    && k in s.cache.entries && s.cache.entries[k] == i && i in s.cache.arena
  }

  /** A fresh value is served, to everybody and without a fetch, until it expires. */
  lemma FreshIsServed(s: State, h: nat, k: Key, i: nat, victim: Option<Key>, now: int, configured: bool)
    requires LooksAt(s, h, k, i) && s.cache.arena[i].snapshot.status == Fresh
    requires s.cache.arena[i].snapshot.expiresAt.Some? && now < s.cache.arena[i].snapshot.expiresAt.value
    ensures var s' := Next(s, Look(h, victim, now, configured));
            s'.gets[h].phase == Returned(s.cache.arena[i].snapshot, now) && s'.cache.entries == s.cache.entries
            && s'.cache.arena[i].fetching == s.cache.arena[i].fetching
  {
  }

  /** What a validated fetch stores in its entry, resident or not. */
  lemma FinishStores(s: State, g: nat, now: int, o: Outcome)
    requires g in s.gets && s.gets[g].phase.Fetching? && s.gets[g].phase.entry in s.cache.arena
    requires Sensible(o) && ValidAmount(o)
    ensures var s', i := Next(s, Finish(g, now, o)), s.gets[g].phase.entry;
            && s'.cache.entries == s.cache.entries && !s'.cache.arena[i].fetching && g in s'.closed
            && s'.cache.arena[i].snapshot.status == Fresh && s'.cache.arena[i].snapshot.amount == Trim(o.amount)
            && s'.cache.arena[i].snapshot.expiresAt == Some(now + s.cfg.ttl)
            && s'.gets[g].phase == Returned(s'.cache.arena[i].snapshot, now)
  {
  }

  /**
    After any run: once a fetch for a resident key has succeeded at time t, a Get of that key that looks before
    t + TTL gets exactly that amount.
   */
  lemma SuccessIsServed(cfg: Config, es: seq<Event>, g: nat, t: int, o: Outcome, h: nat, victim: Option<Key>,
                        now: int, ready: bool)
    requires cfg.Valid() && Sensible(o) && ValidAmount(o) && now < t + cfg.ttl
    ensures var s := Run(Init(cfg), es);
            g in s.gets && s.gets[g].phase.Fetching? && LooksAt(s, h, s.gets[g].key, s.gets[g].phase.entry) ==>
              var s' := Next(Next(s, Finish(g, t, o)), Look(h, victim, now, ready));
              s'.gets[h].phase.Returned? && s'.gets[h].phase.snapshot.status == Fresh
              && s'.gets[h].phase.snapshot.amount == Trim(o.amount)
  {
    RunKeepsConfig(cfg, es);
    var s := Run(Init(cfg), es);
    if g in s.gets && s.gets[g].phase.Fetching? && LooksAt(s, h, s.gets[g].key, s.gets[g].phase.entry) {
      FinishStores(s, g, t, o);
      var s1 := Next(s, Finish(g, t, o));
      assert h != g && s1.gets[h] == s.gets[h];
      FreshIsServed(s1, h, s.gets[g].key, s.gets[g].phase.entry, victim, now, ready);
    }
  }

  /** What a failed or invalid fetch leaves in its entry. */
  lemma FailureStores(s: State, g: nat, now: int, o: Outcome)
    requires g in s.gets && s.gets[g].phase.Fetching? && s.gets[g].phase.entry in s.cache.arena && Sensible(o)
    requires !ValidAmount(o) && !o.CallerCancelled?
    ensures var s', i := Next(s, Finish(g, now, o)), s.gets[g].phase.entry;
            && s'.cache.entries == s.cache.entries && !s'.cache.arena[i].fetching
            && s'.cache.arena[i].snapshot.status in {Stale, Unavailable}
            && s'.cache.arena[i].retryAt == Some(now + s.cfg.failureFor)
  {
  }

  /** While an idle entry cools down nobody fetches for it. */
  lemma CoolingIsQuiet(s: State, h: nat, k: Key, i: nat, victim: Option<Key>, now: int, configured: bool)
    requires LooksAt(s, h, k, i) && !s.cache.arena[i].fetching && s.cache.arena[i].snapshot.status != Fresh
    requires s.cache.arena[i].retryAt.Some? && now < s.cache.arena[i].retryAt.value
    ensures var s' := Next(s, Look(h, victim, now, configured));
            s'.gets[h].phase.Returned? && !s'.cache.arena[i].fetching
  {
  }

  /** After any run: a failed fetch at time t keeps everybody from fetching that key again before t + cooldown. */
  lemma FailureCoolsDown(cfg: Config, es: seq<Event>, g: nat, t: int, o: Outcome, h: nat, victim: Option<Key>,
                         now: int, ready: bool)
    requires cfg.Valid() && Sensible(o) && !ValidAmount(o) && !o.CallerCancelled? && now < t + cfg.failureFor
    ensures var s := Run(Init(cfg), es);
            g in s.gets && s.gets[g].phase.Fetching? && LooksAt(s, h, s.gets[g].key, s.gets[g].phase.entry) ==>
              var s' := Next(Next(s, Finish(g, t, o)), Look(h, victim, now, ready));
              s'.gets[h].phase.Returned? && !s'.cache.arena[s.gets[g].phase.entry].fetching
  {
    RunKeepsConfig(cfg, es);
    var s := Run(Init(cfg), es);
    if g in s.gets && s.gets[g].phase.Fetching? && LooksAt(s, h, s.gets[g].key, s.gets[g].phase.entry) {
      FailureStores(s, g, t, o);
      var s1 := Next(s, Finish(g, t, o));
      assert h != g && s1.gets[h] == s.gets[h];
      CoolingIsQuiet(s1, h, s.gets[g].key, s.gets[g].phase.entry, victim, now, ready);
    }
  }

  /** An idle entry with neither a fresh value nor a cooldown is fetched by the first Get that looks, and only by it. */
  lemma IdleIsFetched(s: State, h: nat, k: Key, i: nat, victim: Option<Key>, now: int)
    requires LooksAt(s, h, k, i) && !Servable(s.cache.arena[i], now) && !Cooling(s.cache.arena[i], now)
    ensures var s' := Next(s, Look(h, victim, now, true));
            if s.cache.arena[i].fetching then s'.gets[h].phase == Waiting(s.cache.arena[i].wait)
            else s'.gets[h].phase == Fetching(i, s.cache.arena[i].snapshot, s.clock) && s'.cache.arena[i].fetching
  {
  }

  /** A key that is not resident gets a new entry and a fetch, as long as there is room or an idle entry to drop. */
  lemma MissIsFetched(s: State, h: nat, victim: Option<Key>, now: int)
    requires CacheOk(s.cfg, s.cache) && h in s.gets && s.gets[h].phase.Looking? && s.gets[h].key !in s.cache.entries
    requires |s.cache.entries| < s.cfg.maxEntries || (victim.Some? && IsVictim(s.cache, victim.value))
    ensures var s', k := Next(s, Look(h, victim, now, true)), s.gets[h].key;
            && k in s'.cache.entries && s'.gets[h].phase.Fetching? && s'.gets[h].phase.entry == s'.cache.entries[k]
            && s'.cache.entries[k] == s.cache.next
  {
  }

  /** A cancelled waiter returns with the caller's error, and a fetch outside the cache returns what it fetched. */
  lemma OthersReturn(s: State, g: nat, now: int, code: ErrorCode, o: Outcome)
    requires g in s.gets && Sensible(o)
    ensures s.gets[g].phase.Waiting? ==>
              var p := Next(s, WaitCancelled(g, now, code)).gets[g].phase;
              p.Returned? && p.snapshot.status == Unavailable && p.snapshot.amount == "" && p.snapshot.error == code
    ensures s.gets[g].phase.Uncached? && s.gets[g].phase.configured ==>
              var p := Next(s, FinishUncached(g, now, o)).gets[g].phase;
              && p.Returned? && (p.snapshot.status == Fresh <==> ValidAmount(o))
              && (ValidAmount(o) ==> p.snapshot.amount == Trim(o.amount))
    ensures s.gets[g].phase.Uncached? && !s.gets[g].phase.configured ==>
              var p := Next(s, FinishUncached(g, now, o)).gets[g].phase;
              p.Returned? && p.snapshot.status == Unavailable && p.snapshot.error == NoEndpoint
  {
  }
}
