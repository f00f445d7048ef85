/** internal/billing/provider_balance.go: cache entries, snapshots and the two critical sections of Get. */
module BalanceSnapshot {
  import opened Arithmetic
  import opened Text

  datatype Status = Empty | Fresh | Stale | Unavailable | Unconfigured

  datatype ErrorCode = NoError | NoEndpoint | Upstream | Auth | RateLimited | InvalidValue | Canceled | Timeout

  /** None stands for Go's zero time. */
  datatype Snapshot = Snapshot(
    accountId: int, provider: string, status: Status,
    amount: string, currency: string, low: bool,
    checkedAt: Option<int>, attemptedAt: Option<int>, expiresAt: Option<int>, staleUntil: Option<int>,
    error: ErrorCode)

  const BLANK := Snapshot(0, "", Empty, "", "", false, None, None, None, None, NoError)

  datatype Config = Config(ttl: int, staleFor: int, failureFor: int, maxEntries: int, threshold: Option<real>) {
    /** What NewBalanceCache accepts. */
    predicate Valid() {
      ttl > 0 && staleFor >= 0 && failureFor >= 0 && maxEntries >= 1 && (threshold.Some? ==> threshold.value >= 0.0)
    }
  }

  /** How adapter.Fetch ended. `parsed` is the exact rational value of the trimmed amount, if it is one. */
  datatype Outcome =
    | CallerCancelled(code: ErrorCode)
    | Fetched(amount: string, currency: string, parsed: Option<real>)
    | FetchFailed(code: ErrorCode)

  /** An empty amount never parses. */
  predicate Sensible(o: Outcome) { o.Fetched? && o.parsed.Some? ==> Trim(o.amount) != "" }

  predicate ValidAmount(o: Outcome) { o.Fetched? && o.parsed.Some? && o.parsed.value >= 0.0 }

  function UnavailableSnapshot(id: int, provider: string, now: int, code: ErrorCode): Snapshot {
    Snapshot(id, provider, Unavailable, "", "", false, None, Some(now), None, None, code)
  }

  function SuccessSnapshot(cfg: Config, id: int, provider: string, o: Outcome, now: int): Snapshot
    requires ValidAmount(o)
  {
    Snapshot(id, provider, Fresh, Trim(o.amount), Trim(o.currency),
             cfg.threshold.Some? && o.parsed.value < cfg.threshold.value,
             Some(now), Some(now), Some(now + cfg.ttl), Some(now + cfg.ttl + cfg.staleFor), NoError)
  }

  /** The previous value relabelled stale, while its deadline has not passed. */
  function StaleSnapshot(cfg: Config, previous: Snapshot, now: int, code: ErrorCode): Option<Snapshot> {
    if previous.amount == "" || previous.checkedAt.None? || cfg.staleFor <= 0
       || previous.staleUntil.None? || now >= previous.staleUntil.value
    then None
    else Some(previous.(status := Stale, attemptedAt := Some(now), error := code))
  }

  // ----- Entries -----

  /** The components of balanceCacheKey; see CacheKey for its string form. */
  datatype Key = Key(provider: string, accountId: int, baseUrl: string, identity: string, secret: string)

  /** wait is the channel of the current or last fetch, named after the Get that owns it; home and born are history. */
  datatype Entry = Entry(
    accountId: int, provider: string, snapshot: Snapshot,
    fetching: bool, wait: nat, retryAt: Option<int>, lastUsed: int, home: Key, born: nat)

  /** entries holds pointers into the arena; a removed entry stays reachable by the Get that fetches for it. */
  datatype Cache = Cache(entries: map<Key, nat>, arena: map<nat, Entry>, next: nat)

  /** Pointers are good and the resident set respects the bound. */
  ghost predicate CacheOk(cfg: Config, c: Cache) {
    && (forall k :: k in c.entries ==> c.entries[k] in c.arena)
    && (forall i :: i in c.arena ==> i < c.next)
    && |c.entries| <= cfg.maxEntries
  }

  predicate Evictable(c: Cache, k: Key) {
    k in c.entries && c.entries[k] in c.arena && !c.arena[c.entries[k]].fetching
  }

  /** Least recently used among the entries that are not being fetched. */
  predicate IsVictim(c: Cache, k: Key) {
    Evictable(c, k) && forall j :: j in c.entries && Evictable(c, j) ==>
        c.arena[c.entries[k]].lastUsed <= c.arena[c.entries[j]].lastUsed
  }

  /** What the first critical section decided. */
  datatype Decision =
    | Answer(snapshot: Snapshot)
    | Wait(channel: nat)
    | Fetch(entry: nat, previous: Snapshot)
    | Bypass

  /** Cooldown answer: a stale value past its deadline is withheld. */
  function CooldownAnswer(s: Snapshot, id: int, provider: string, now: int): Snapshot {
    if s.status == Stale && (s.staleUntil.None? || now >= s.staleUntil.value)
    then UnavailableSnapshot(id, provider, now, s.error)
    else if s.status == Empty then UnavailableSnapshot(id, provider, now, Upstream)
    else s
  }

  /** Get's decision on an entry whose lastUsed is already set. */
  function Decide(cfg: Config, e: Entry, i: nat, key: Key, now: int, configured: bool, g: nat): (Entry, Decision) {
    if e.snapshot.status == Fresh && e.snapshot.expiresAt.Some? && now < e.snapshot.expiresAt.value
    then (e, Answer(e.snapshot))
    else if e.fetching then (e, Wait(e.wait))
    else if e.retryAt.Some? && now < e.retryAt.value
    then (e, Answer(CooldownAnswer(e.snapshot, key.accountId, key.provider, now)))
    else if !configured then
      var s := Snapshot(key.accountId, key.provider, Unconfigured, "", "", false, None, Some(now), None, None,
                        NoEndpoint);
      (e.(snapshot := s, retryAt := Some(now + cfg.failureFor)), Answer(s))
    else (e.(fetching := true, wait := g), Fetch(i, e.snapshot))
  }

  /** The entry holds a fresh value. */
  predicate Servable(e: Entry, now: int) {
    e.snapshot.status == Fresh && e.snapshot.expiresAt.Some? && now < e.snapshot.expiresAt.value
  }

  /** A stale value within its deadline. */
  predicate StillStale(s: Snapshot, now: int) {
    s.status == Stale && s.staleUntil.Some? && now < s.staleUntil.value
  }

  /** A failed refresh is not tried again yet. */
  predicate Cooling(e: Entry, now: int) { e.retryAt.Some? && now < e.retryAt.value }

  function Blank(key: Key, stamp: nat): Entry {
    Entry(key.accountId, key.provider, BLANK, false, 0, None, 0, key, stamp)
  }

  /** Finds or makes room for an entry; victim is the evicted key when the cache is full. */
  function Admit(cfg: Config, c: Cache, key: Key, victim: Option<Key>, stamp: nat): Option<Cache> {
    if key in c.entries then Some(c)
    else if |c.entries| >= cfg.maxEntries && victim.None? then None
    else
      var kept := if |c.entries| >= cfg.maxEntries then c.entries - {victim.value} else c.entries;
      Some(Cache(kept[key := c.next], c.arena[c.next := Blank(key, stamp)], c.next + 1))
  }

  /** The victim of this lookup is legitimate: the LRU choice, or nobody when every entry is fetching. */
  predicate VictimOk(c: Cache, victim: Option<Key>) {
    if victim.Some? then IsVictim(c, victim.value) else forall j :: j in c.entries ==> !Evictable(c, j)
  }

  /** The first critical section of one loop iteration of Get. */
  function Lookup(cfg: Config, c: Cache, key: Key, victim: Option<Key>, now: int, configured: bool, g: nat, stamp: nat)
    : (Cache, Decision)
  {
    var admitted := Admit(cfg, c, key, victim, stamp);
    if admitted.None? || key !in admitted.value.entries
      || admitted.value.entries[key] !in admitted.value.arena then (c, Bypass)
    else
      var c1, i := admitted.value, admitted.value.entries[key];
      var (e, d) := Decide(cfg, c1.arena[i].(lastUsed := now), i, key, now, configured, g);
      (c1.(arena := c1.arena[i := e]), d)
  }

  /** The second critical section: store the outcome and answer the caller. */
  function Settle(cfg: Config, e: Entry, key: Key, previous: Snapshot, o: Outcome, now: int): (Entry, Snapshot) {
    var done := e.(fetching := false);
    match o
    case CallerCancelled(code) =>
      (done.(snapshot := previous, retryAt := None), UnavailableSnapshot(key.accountId, key.provider, now, code))
    case Fetched(_, _, _) =>
      if ValidAmount(o) then
        var s := SuccessSnapshot(cfg, key.accountId, key.provider, o, now);
        (done.(snapshot := s, retryAt := None), s)
      else
        var stale := StaleSnapshot(cfg, previous, now, InvalidValue);
        var s := if stale.Some? then stale.value
          else UnavailableSnapshot(key.accountId, key.provider, now, InvalidValue);
        (done.(snapshot := s, retryAt := Some(now + cfg.failureFor)), s)
    case FetchFailed(code) =>
      var stale := StaleSnapshot(cfg, previous, now, code);
      var s := if stale.Some? then stale.value else UnavailableSnapshot(key.accountId, key.provider, now, code);
      (done.(snapshot := s, retryAt := Some(now + cfg.failureFor)), s)
  }

  /** fetchWithoutCache after its fetch. */
  function SettleUncached(cfg: Config, key: Key, o: Outcome, now: int): Snapshot {
    match o
    case CallerCancelled(code) => UnavailableSnapshot(key.accountId, key.provider, now, code)
    case FetchFailed(code) => UnavailableSnapshot(key.accountId, key.provider, now, code)
    case Fetched(_, _, _) =>
      if ValidAmount(o) then SuccessSnapshot(cfg, key.accountId, key.provider, o, now)
      else UnavailableSnapshot(key.accountId, key.provider, now, InvalidValue)
  }

  /** Without a cache entry a fetch that returns a valid amount still answers with it, and any other does not. */
  lemma UncachedAnswers(cfg: Config, key: Key, o: Outcome, now: int)
    ensures var s := SettleUncached(cfg, key, o, now);
            && (s.status == Fresh <==> ValidAmount(o)) && (s.status != Fresh ==> s.status == Unavailable)
            && (ValidAmount(o) ==>
                  && s.amount == Trim(o.amount) && s.currency == Trim(o.currency) && s.checkedAt == Some(now)
                  && (s.low <==> cfg.threshold.Some? && o.parsed.value < cfg.threshold.value))
            && (!ValidAmount(o) ==> s.amount == "" && s.error == if o.Fetched? then InvalidValue else o.code)
  {
  }

  function DropAccount(c: Cache, accountId: int): Cache {
    c.(entries := map k | k in c.entries
       && !(c.entries[k] in c.arena && c.arena[c.entries[k]].accountId == accountId) :: c.entries[k])
  }

  predicate OfProviderAccount(e: Entry, provider: string, accountId: int) { e.provider == provider
                                                                           && e.accountId == accountId }

  function DropProvider(c: Cache, provider: string, accountId: int): Cache {
    c.(entries := map k | k in c.entries
       && !(c.entries[k] in c.arena && OfProviderAccount(c.arena[c.entries[k]], provider, accountId))
         :: c.entries[k])
  }

  // ----- The object: its methods run under `mu` -----

  class BalanceCache {
    const cfg: Config
    var entries: map<Key, nat>
    var arena: map<nat, Entry>
    var next: nat

    ghost function View(): Cache
      reads this
    {
      Cache(entries, arena, next)
    }

    ghost predicate Valid()
      reads this
    {
      cfg.Valid() && CacheOk(cfg, View())
    }

    constructor (cfg: Config)
      requires cfg.Valid()
      ensures Valid() && View() == Cache(map[], map[], 0) && this.cfg == cfg
    {
      this.cfg := cfg;
      entries, arena, next := map[], map[], 0;
    }

    /** Scans the resident entries in any order for the least recently used one that is not fetching. */
    method EvictOneLocked(exclude: Key) returns (ok: bool, victim: Option<Key>)
      requires Valid() && exclude !in entries
      modifies this`entries
      ensures Valid()
      ensures |old(entries)| < cfg.maxEntries ==> ok && victim == None && entries == old(entries)
      ensures |old(entries)| >= cfg.maxEntries ==> VictimOk(old(View()), victim)
      ensures |old(entries)| >= cfg.maxEntries ==>
                ok == victim.Some? && entries == if ok then old(entries) - {victim.value} else old(entries)
    {
      ok, victim := true, None;
      if |entries| < cfg.maxEntries {
        return;
      }
      var todo := entries.Keys;
      while todo != {}
        invariant todo <= entries.Keys && entries == old(entries)
        invariant victim.Some? ==> victim.value in entries.Keys - todo && Evictable(View(), victim.value)
        invariant forall j :: j in entries.Keys - todo && Evictable(View(), j) ==>
                    victim.Some? && arena[entries[victim.value]].lastUsed <= arena[entries[j]].lastUsed
        decreases todo
      {
        var key :| key in todo;
        todo := todo - {key};
        var e := arena[entries[key]];
        if key != exclude && !e.fetching && (victim.None? || e.lastUsed < arena[entries[victim.value]].lastUsed) {
          victim := Some(key);
        }
      }
      ok := victim.Some?;
      if ok {
        SmallerWithout(entries, victim.value);
        entries := entries - {victim.value};
      }
    }

    /** Finds the entry or makes room for a new one; not ok means every resident entry is fetching. */
    method AdmitLocked(key: Key, stamp: nat) returns (ok: bool, ghost victim: Option<Key>)
      requires Valid()
      modifies this
      ensures Valid() && (ok ==> key in entries)
      ensures key !in old(entries) && |old(entries)| >= cfg.maxEntries ==> VictimOk(old(View()), victim)
      ensures Admit(cfg, old(View()), key, victim, stamp) == if ok then Some(View()) else None
      ensures !ok ==> View() == old(View())
      ensures ok <==>
        || key in old(entries) || |old(entries)| < cfg.maxEntries
        || exists j :: j in old(entries) && !old(arena)[old(entries)[j]].fetching
      ensures key in old(entries) ==> View() == old(View())
      ensures ok && key !in old(entries) ==>
        && entries[key] !in old(arena) && !arena[entries[key]].fetching && arena[entries[key]].snapshot.status == Empty
        && arena[entries[key]].accountId == key.accountId && arena[entries[key]].provider == key.provider
        && (forall k :: k in entries && k != key ==> k in old(entries) && entries[k] == old(entries)[k])
    {
      ok, victim := true, None;
      if key !in entries {
        var evicted;
        ok, evicted := EvictOneLocked(key);
        victim := evicted;
        if ok {
          LargerWith(entries, key, next);
          arena := arena[next := Blank(key, stamp)];
          entries := entries[key := next];
          next := next + 1;
        }
      }
    }

    method LookupLocked(key: Key, now: int, configured: bool, g: nat, stamp: nat)
      returns (d: Decision, ghost victim: Option<Key>)
      requires Valid()
      modifies this
      ensures Valid()
      ensures key !in old(entries) && |old(entries)| >= cfg.maxEntries ==> VictimOk(old(View()), victim)
      ensures (View(), d) == Lookup(cfg, old(View()), key, victim, now, configured, g, stamp)
    {
      var ok;
      ok, victim := AdmitLocked(key, stamp);
      if !ok {
        return Bypass, victim;
      }
      var i := entries[key];
      var e, decision := Touch(arena[i], i, key, now, configured, g);
      arena := arena[i := e];
      d := decision;
    }

    /** The branches of Get under the lock, on the entry found. */
    method Touch(found: Entry, i: nat, key: Key, now: int, configured: bool, g: nat) returns (e: Entry, d: Decision)
      ensures (e, d) == Decide(cfg, found.(lastUsed := now), i, key, now, configured, g)
      ensures e.lastUsed == now && e.home == found.home && e.born == found.born && !d.Bypass?
      ensures Servable(found, now) ==> d == Answer(found.snapshot) && e == found.(lastUsed := now)
      ensures !Servable(found, now) && found.fetching ==> d == Wait(found.wait) && e == found.(lastUsed := now)
      ensures !Servable(found, now) && !found.fetching && Cooling(found, now) ==>
        && d.Answer? && e == found.(lastUsed := now)
        && (StillStale(found.snapshot, now) ==> d.snapshot == found.snapshot)
        && (found.snapshot.status in {Unavailable, Unconfigured} ==> d.snapshot == found.snapshot)
        && (found.snapshot.status == Stale && d.snapshot != found.snapshot ==>
              d.snapshot.status == Unavailable && d.snapshot.amount == "" && d.snapshot.error == found.snapshot.error)
        && (found.snapshot.status == Empty ==> d.snapshot.status == Unavailable && d.snapshot.error == Upstream)
      ensures !Servable(found, now) && !found.fetching && !Cooling(found, now) && !configured ==>
        d.Answer? && d.snapshot.status == Unconfigured && d.snapshot.amount == "" && e.snapshot == d.snapshot
        && e.retryAt == Some(now + cfg.failureFor)
      ensures d.Fetch? <==> !Servable(found, now) && !found.fetching && !Cooling(found, now) && configured
      ensures d.Fetch? <==> e.fetching && !found.fetching
      ensures d.Fetch? ==> configured && e.wait == g && d.entry == i && d.previous == found.snapshot == e.snapshot
      ensures d.Wait? ==> found.fetching && d.channel == found.wait
      ensures found.fetching && d.Answer? ==> d.snapshot == found.snapshot && d.snapshot.status == Fresh
      ensures d.Answer? ==> d.snapshot.status != Empty
      ensures d.Answer? && d.snapshot.status == Stale ==>
                d.snapshot.staleUntil.Some? && now < d.snapshot.staleUntil.value
      ensures d.Answer? && d.snapshot.status == Fresh && (found.snapshot.status == Fresh ==> found.retryAt == None) ==>
        d.snapshot.expiresAt.Some? && now < d.snapshot.expiresAt.value
    {
      e := found.(lastUsed := now);
      if e.snapshot.status == Fresh && e.snapshot.expiresAt.Some? && now < e.snapshot.expiresAt.value {
        return e, Answer(e.snapshot);
      }
      if e.fetching {
        return e, Wait(e.wait);
      }
      if e.retryAt.Some? && now < e.retryAt.value {
        var s := e.snapshot;
        if s.status == Stale && (s.staleUntil.None? || now >= s.staleUntil.value) {
          s := UnavailableSnapshot(key.accountId, key.provider, now, s.error);
        }
        if s.status == Empty {
          s := UnavailableSnapshot(key.accountId, key.provider, now, Upstream);
        }
        return e, Answer(s);
      }
      if !configured {
        var s := Snapshot(key.accountId, key.provider, Unconfigured, "", "", false, None, Some(now), None, None,
                          NoEndpoint);
        e := e.(snapshot := s, retryAt := Some(now + cfg.failureFor));
        return e, Answer(s);
      }
      var previous := e.snapshot;
      e := e.(fetching := true, wait := g);
      d := Fetch(i, previous);
    }

    /** Get after adapter.Fetch returned; the entry may have been removed from the map meanwhile. */
    method SettleLocked(i: nat, key: Key, previous: Snapshot, o: Outcome, now: int) returns (answer: Snapshot)
      requires Valid() && i in arena
      modifies this`arena
      ensures Valid() && i in arena && (arena[i], answer) == Settle(cfg, old(arena[i]), key, previous, o, now)
      ensures arena == old(arena)[i := arena[i]]
      ensures !arena[i].fetching && arena[i].wait == old(arena[i]).wait && arena[i].lastUsed == old(arena[i]).lastUsed
      ensures o.CallerCancelled? ==> arena[i].snapshot == previous && arena[i].retryAt == None && answer.amount == ""
      ensures answer.status == Fresh <==> ValidAmount(o)
      ensures ValidAmount(o) ==>
        && answer == arena[i].snapshot && answer.amount == Trim(o.amount) && answer.currency == Trim(o.currency)
        && answer.checkedAt == Some(now) && answer.expiresAt == Some(now + cfg.ttl) && arena[i].retryAt == None
        && (answer.low <==> cfg.threshold.Some? && o.parsed.value < cfg.threshold.value)
      ensures !ValidAmount(o) && !o.CallerCancelled? ==>
        && answer == arena[i].snapshot && arena[i].retryAt == Some(now + cfg.failureFor)
        && (answer.status == Stale <==>
              previous.amount != "" && previous.checkedAt.Some? && cfg.staleFor > 0
              && previous.staleUntil.Some? && now < previous.staleUntil.value)
        && (answer.status != Stale ==> answer.status == Unavailable && answer.amount == "")
        && answer.error == (if o.Fetched? then InvalidValue else o.code) && answer.attemptedAt == Some(now)
      ensures o.CallerCancelled? ==> answer.status == Unavailable && answer.error == o.code
      ensures answer.status == Stale ==>
        && answer.amount == previous.amount && answer.checkedAt == previous.checkedAt
        && answer.staleUntil == previous.staleUntil && answer.staleUntil.Some? && now < answer.staleUntil.value
      ensures !ValidAmount(o) ==>
        arena[i].snapshot.staleUntil == previous.staleUntil
          || (arena[i].snapshot.amount == "" && arena[i].snapshot.staleUntil == None)
    {
      var e := arena[i].(fetching := false);
      if o.CallerCancelled? {
        e := e.(snapshot := previous, retryAt := None);
        answer := UnavailableSnapshot(key.accountId, key.provider, now, o.code);
        arena := arena[i := e];
        return;
      } else if o.Fetched? {
        if ValidAmount(o) {
          e := e.(snapshot := SuccessSnapshot(cfg, key.accountId, key.provider, o, now), retryAt := None);
        } else {
          e := e.(snapshot := UnavailableSnapshot(key.accountId, key.provider, now, InvalidValue),
                  retryAt := Some(now + cfg.failureFor));
          var stale := StaleSnapshot(cfg, previous, now, InvalidValue);
          if stale.Some? {
            e := e.(snapshot := stale.value);
          }
        }
      } else {
        var stale := StaleSnapshot(cfg, previous, now, o.code);
        e := e.(snapshot := if stale.Some? then stale.value
                else UnavailableSnapshot(key.accountId, key.provider, now, o.code),
                retryAt := Some(now + cfg.failureFor));
      }
      answer := e.snapshot;
      arena := arena[i := e];
    }

    method InvalidateAccount(accountId: int)
      requires Valid()
      modifies this`entries
      ensures Valid() && View() == DropAccount(old(View()), accountId)
      ensures forall k :: k in entries <==> k in old(entries) && arena[old(entries)[k]].accountId != accountId
      ensures forall k :: k in entries ==> entries[k] == old(entries)[k]
    {
      var todo := entries.Keys;
      while todo != {}
        invariant todo <= old(entries.Keys) && |entries| <= |old(entries)|
        invariant entries == map k | k in old(entries) &&
                    (k in todo || arena[old(entries)[k]].accountId != accountId) :: old(entries)[k]
        decreases todo
      {
        var key :| key in todo;
        todo := todo - {key};
        if arena[entries[key]].accountId == accountId {
          SmallerWithout(entries, key);
          entries := entries - {key};
        }
      }
    }

    /** Invalidate: the same for one provider of the account. */
    method Invalidate(provider: string, accountId: int)
      requires Valid()
      modifies this`entries
      ensures Valid() && View() == DropProvider(old(View()), Trim(provider), accountId)
      ensures forall k :: k in entries <==>
        k in old(entries)
        && !(arena[old(entries)[k]].provider == Trim(provider) && arena[old(entries)[k]].accountId == accountId)
      ensures forall k :: k in entries ==> entries[k] == old(entries)[k]
    {
      var name := Trim(provider);
      var todo := entries.Keys;
      while todo != {}
        invariant todo <= old(entries.Keys) && |entries| <= |old(entries)|
        invariant entries == map k | k in old(entries) &&
                    (k in todo || !OfProviderAccount(arena[old(entries)[k]], name, accountId)) :: old(entries)[k]
        decreases todo
      {
        var key :| key in todo;
        todo := todo - {key};
        if arena[entries[key]].provider == name && arena[entries[key]].accountId == accountId {
          SmallerWithout(entries, key);
          entries := entries - {key};
        }
      }
    }
  }

  lemma SmallerWithout(m: map<Key, nat>, k: Key)
    requires k in m
    ensures |m - {k}| == |m| - 1
  {
    assert (m - {k}).Keys == m.Keys - {k};
    assert |m.Keys - {k}| == |m.Keys| - 1;
  }

  lemma LargerWith(m: map<Key, nat>, k: Key, v: nat)
    requires k !in m
    ensures |m[k := v]| == |m| + 1
  {
    assert m[k := v].Keys == m.Keys + {k};
    assert |m.Keys + {k}| == |m.Keys| + 1;
  }
}
