/** The read-only balance and multiplier snapshot of internal/billing/balances.go. */
module UserBalances {
  import opened Arithmetic

  datatype Multipliers = Multipliers(assignments: map<(nat, int64), int64>, groups: map<int64, int64>)

  const TIMES_ONE: int64 := 10000

  /** The price factor, most specific first: own rate in the group, the group's rate, times one. */
  function EffectiveRate(m: Option<Multipliers>, user: nat, group: int64): int64 {
    match m
    case None => TIMES_ONE
    case Some(t) =>
      if (user, group) in t.assignments then t.assignments[(user, group)]
      else if group in t.groups then t.groups[group] else TIMES_ONE
  }

  /** Without an own rate and a group rate, or without any table, the price is multiplied by 10000 / 10000. */
  lemma DefaultRate(m: Option<Multipliers>, user: nat, group: int64)
    requires m.Some? ==> (user, group) !in m.value.assignments && group !in m.value.groups
    ensures EffectiveRate(m, user, group) == 10000
  {
  }

  /** Two tables that agree on the user's own entry in the group and on the group's entry. */
  ghost predicate SameEntries(t: Multipliers, t': Multipliers, user: nat, group: int64) {
    && ((user, group) in t.assignments <==> (user, group) in t'.assignments)
    && ((user, group) in t.assignments ==> t.assignments[(user, group)] == t'.assignments[(user, group)])
    && (group in t.groups <==> group in t'.groups) && (group in t.groups ==> t.groups[group] == t'.groups[group])
  }

  /** Giving a user an own rate in a group changes that pair's rate and no other. */
  lemma OwnRateIsLocal(t: Multipliers, user: nat, group: int64, rate: int64, u: nat, g: int64)
    ensures EffectiveRate(Some(t.(assignments := t.assignments[(user, group) := rate])), u, g)
         == if u == user && g == group then rate else EffectiveRate(Some(t), u, g)
  {
  }

  /** Taking it away brings the group's rate back, the same for every user without an own rate. */
  lemma RevokedRateIsGroupRate(t: Multipliers, user: nat, group: int64, u: nat)
    requires (u, group) !in t.assignments
    ensures EffectiveRate(Some(t.(assignments := t.assignments - {(user, group)})), user, group)
            == EffectiveRate(Some(t), u, group)
  {
  }

  /** A group's rate reaches exactly the users of that group without an own rate. */
  lemma GroupRateReach(t: Multipliers, group: int64, rate: int64, u: nat, g: int64)
    ensures EffectiveRate(Some(t.(groups := t.groups[group := rate])), u, g)
         == if g == group && (u, g) !in t.assignments then rate else EffectiveRate(Some(t), u, g)
  {
  }

  class Balances {
    var snap: map<nat, int>
    var mult: Option<Multipliers>

    constructor ()
      ensures snap == map[] && mult == None
    {
      snap, mult := map[], None;
    }

    /** All three tables are replaced together, or nothing is. */
    method Reload(balances: Option<map<nat, int>>, groups: Option<map<int64, int64>>,
                  assignments: Option<map<(nat, int64), int64>>) returns (ok: bool)
      modifies this
      ensures ok <==> balances.Some? && groups.Some? && assignments.Some?
      ensures ok ==> snap == balances.value && mult == Some(Multipliers(assignments.value, groups.value))
      ensures !ok ==> snap == old(snap) && mult == old(mult)
    {
      if balances.None? { return false; }
      if groups.None? { return false; }
      if assignments.None? { return false; }
      snap := CopyOf(balances.value);
      mult := Some(Multipliers(assignments.value, groups.value));
      return true;
    }

    /** Balances are not touched; the two multiplier tables change together or not at all. */
    method ReloadMultipliers(groups: Option<map<int64, int64>>, assignments: Option<map<(nat, int64), int64>>)
      returns (ok: bool)
      modifies this`mult
      ensures ok <==> groups.Some? && assignments.Some?
      ensures mult == if ok then Some(Multipliers(assignments.value, groups.value)) else old(mult)
    {
      if groups.None? { return false; }
      if assignments.None? { return false; }
      mult := Some(Multipliers(assignments.value, groups.value));
      return true;
    }

    /** Writes one existing entry; a user outside the snapshot is not added. */
    method Set(user: nat, balance: int)
      modifies this`snap
      ensures snap == if user in old(snap) then old(snap)[user := balance] else old(snap)
    {
      if user in snap {
        snap := snap[user := balance];
      }
    }

    /** A missing user is reported missing, never as a zero balance. */
    method BalanceOf(user: nat) returns (balance: int, ok: bool)
      ensures ok <==> user in snap
      ensures balance == if ok then snap[user] else 0
    {
      if user in snap {
        return snap[user], true;
      }
      return 0, false;
    }

    method EffectiveMultiplier(user: nat, group: int64) returns (rate: int64)
      ensures rate == EffectiveRate(mult, user, group)
      ensures forall t :: mult.Some? && SameEntries(mult.value, t, user, group) ==>
                rate == EffectiveRate(Some(t), user, group)
    {
      if mult.None? {
        return TIMES_ONE;
      }
      if (user, group) in mult.value.assignments {
        return mult.value.assignments[(user, group)];
      }
      if group in mult.value.groups {
        return mult.value.groups[group];
      }
      return TIMES_ONE;
    }
  }

  /** Reload fills fresh entries one by one. */
  method CopyOf(m: map<nat, int>) returns (r: map<nat, int>)
    ensures r == m
  {
    r := map[];
    var left := m.Keys;
    while left != {}
      invariant left <= m.Keys && r.Keys == m.Keys - left
      invariant forall u :: u in r ==> r[u] == m[u]
      decreases |left|
    {
      var u :| u in left;
      r := r[u := m[u]];
      left := left - {u};
    }
  }

  // ----- Set against Reload -----

  /**
    Set reads the snapshot pointer and then stores into the entry it found there; a Reload may swap the
    pointer in between. snaps are all snapshots ever published, the last one is current; pending are the
    Sets between their two steps, with the snapshot and user they hold.
   */
  datatype Memory = Memory(snaps: seq<map<nat, int>>, pending: map<nat, (nat, nat)>) {
    predicate Valid() { snaps != [] && forall k :: k in pending ==> pending[k].0 < |snaps| }

    function Current(): map<nat, int>
      requires snaps != []
    {
      snaps[|snaps| - 1]
    }
  }

  datatype MemoryEvent = Publish(table: map<nat, int>) | SetLoad(k: nat, user: nat) | SetStore(k: nat, balance: int)

  function Step(m: Memory, e: MemoryEvent): (m': Memory)
    requires m.Valid()
    ensures m'.Valid()
  {
    match e
    case Publish(table) => m.(snaps := m.snaps + [table])
    case SetLoad(k, user) => m.(pending := m.pending[k := (|m.snaps| - 1, user)])
    case SetStore(k, balance) =>
      if k !in m.pending then m
      else
        var (v, user) := m.pending[k];
        var rest := m.(pending := m.pending - {k});
        if user in m.snaps[v] then rest.(snaps := m.snaps[v := m.snaps[v][user := balance]]) else rest
  }

  function Steps(m: Memory, es: seq<MemoryEvent>): (m': Memory)
    requires m.Valid()
    ensures m'.Valid()
  {
    if es == [] then m else Step(Steps(m, es[..|es| - 1]), es[|es| - 1])
  }

  /** A Set reaches the current snapshot exactly if its user is in it and no Reload came between its two steps. */
  lemma SetVisibleIff(m: Memory, k: nat, balance: int)
    requires m.Valid() && k in m.pending
    ensures var (v, user) := m.pending[k];
            Step(m, SetStore(k, balance)).Current()
            == if v == |m.snaps| - 1 && user in m.Current() then m.Current()[user := balance] else m.Current()
  {
  }

  /** Only Sets that began on an older snapshot are still to store. */
  predicate OnlyLate(m: Memory) { forall k :: k in m.pending ==> m.pending[k].0 < |m.snaps| - 1 }

  /**
    A Reload is not disturbed by the past: whatever Sets were under way when it published its table, and however
    they finish, the snapshot stays that table until somebody starts a new Set or Reload.
   */
  lemma {:induction false} ReloadWins(m: Memory, table: map<nat, int>, es: seq<MemoryEvent>)
    requires m.Valid() && forall i :: 0 <= i < |es| ==> es[i].SetStore?
    ensures var m' := Steps(Step(m, Publish(table)), es); m'.Current() == table && OnlyLate(m')
  {
    if es != [] {
      ReloadWins(m, table, es[..|es| - 1]);
    }
  }
}
