/** internal/domain/price_resolve.go: base prices plus the first matching variant. */
module PriceResolve {
  import opened Arithmetic
  import opened Cost

  /** Local wall-clock time of the request: minute of the day and weekday, 0 = Sunday. */
  datatype At = At(minute: nat, weekday: nat)

  /** Conditions of a variant; None is a wildcard. Times are HH:MM parsed to minutes. */
  datatype Conditions = Conditions(
    serviceTier: Option<string>, ctxMin: Option<int64>, ctxMax: Option<int64>,
    timeStart: Option<int>, timeEnd: Option<int>, dowMask: Option<int64>)

  /** P holds the override prices: plain values, or the snapshot's cells. */
  datatype Variant<+P> = Variant(seqNo: int64, when: Conditions, mult: Option<int64>, overrides: P)

  /**
    The eight price components in source order: input, output, cache read, cache
    write, per call, image input, image output, per image.
   */
  type Components = s: seq<Option<int64>> | |s| == 8 witness seq(8, i => None)

  datatype Resolved = Resolved(prices: Components, variantSeq: Option<int64>)

  // ----- Matching -----

  predicate TimeMatches(start: Option<int>, end: Option<int>, minute: int) {
    if start.Some? && end.Some? then
      if start.value == end.value then true
      else if start.value < end.value then start.value <= minute < end.value
      else minute >= start.value || minute < end.value
    else if start.Some? then minute >= start.value
    else if end.Some? then minute < end.value
    else true
  }

  function Power2(n: nat): (r: nat)
    ensures r > 0
  {
    if n == 0 then 1 else 2 * Power2(n - 1)
  }

  predicate Matches(c: Conditions, tier: string, prompt: int64, at: At) {
    && (c.serviceTier.Some? ==> c.serviceTier.value == tier)
    && (c.ctxMin.Some? ==> prompt >= c.ctxMin.value)
    && (c.ctxMax.Some? ==> prompt < c.ctxMax.value)
    && TimeMatches(c.timeStart, c.timeEnd, at.minute)
    && (c.dowMask.Some? ==> (c.dowMask.value / Power2(at.weekday)) % 2 == 1)
  }

  /** A nil variant never matches. */
  predicate VariantMatches<P>(v: Option<Variant<P>>, tier: string, prompt: int64, at: At) {
    v.Some? && Matches(v.value.when, tier, prompt, at)
  }

  /** Index of the first match, or the length. */
  function FirstMatch<P>(vs: seq<Option<Variant<P>>>, tier: string, prompt: int64, at: At): (i: nat)
    ensures i <= |vs|
    ensures i < |vs| ==> VariantMatches(vs[i], tier, prompt, at)
    ensures forall j :: 0 <= j < i ==> !VariantMatches(vs[j], tier, prompt, at)
  {
    if vs == [] then 0
    else if VariantMatches(vs[0], tier, prompt, at) then 0
    else 1 + FirstMatch(vs[1..], tier, prompt, at)
  }

  // ----- Applying a variant -----

  function PriceMultiplierExact(price: int64, multiplier: int64): (r: Option<int64>)
    ensures r.Some? <==> price >= 0 && 0 <= multiplier <= 100_000
                         && (price * multiplier) % 10_000 == 0 && price * multiplier <= 10_000 * INT64_MAX
    ensures r.Some? ==> 10_000 * r.value == price * multiplier
  {
    if price < 0 || multiplier < 0 || multiplier > 100_000 then None
    else if multiplier == 0 || price == 0 then Some(0)
    else
      var q, rem := price / 10_000, price % 10_000;
      SplitProduct(price, multiplier);
      QuotientGuard(q, multiplier, INT64_MAX);
      if q > INT64_MAX / multiplier then None
      else JoinExact(q * multiplier, rem * multiplier)
  }

  function JoinExact(out: int64, remProduct: int64): (r: Option<int64>)
    requires 0 <= out && 0 <= remProduct
    ensures r.Some? <==> remProduct % 10_000 == 0 && 10_000 * out + remProduct <= 10_000 * INT64_MAX
    ensures r.Some? ==> 10_000 * r.value == 10_000 * out + remProduct
  {
    if remProduct % 10_000 != 0 then None
    else if out > INT64_MAX - remProduct / 10_000 then None
    else Some(out + remProduct / 10_000)
  }

  predicate InRange(mult: Option<int64>) { mult.Some? ==> 0 <= mult.value <= 100_000 }

  /** A component the multiplier touches must stay on the price grid. */
  predicate Representable(base: Option<int64>, overridden: bool, mult: Option<int64>) {
    mult.Some? && !overridden && base.Some? ==> PriceMultiplierExact(base.value, mult.value).Some?
  }

  /** One component after the variant: overridden, scaled, or unchanged. */
  function ApplyComponent(base: Option<int64>, o: Option<int64>, mult: Option<int64>): (r: Option<int64>)
    requires Representable(base, o.Some?, mult)
    ensures o.Some? ==> r == o
    ensures o.None? && (base.None? || mult.None?) ==> r == base
    ensures o.None? && base.Some? && mult.Some? ==> r.Some? && 10_000 * r.value == base.value * mult.value
  {
    if o.Some? then o
    else if base.None? || mult.None? then base
    else PriceMultiplierExact(base.value, mult.value)
  }

  predicate Applicable(base: Components, v: Variant<Components>) {
    InRange(v.mult) && forall i :: 0 <= i < 8 ==> Representable(base[i], v.overrides[i].Some?, v.mult)
  }

  function ApplyVariant(base: Components, v: Variant<Components>): Option<Components> {
    if Applicable(base, v)
    then Some(seq(8, i requires 0 <= i < 8 && Applicable(base, v) => ApplyComponent(base[i], v.overrides[i], v.mult)))
    else None
  }

  /** ResolveEntryPrices as a function of the snapshot values. */
  function Resolve(entry: Option<Components>, vs: seq<Option<Variant<Components>>>, tier: string, prompt: int64, at: At)
    : Option<Resolved>
  {
    if entry.None? then None
    else
      var i := FirstMatch(vs, tier, prompt, at);
      if i == |vs| then Some(Resolved(entry.value, None)) else ResolveWith(entry.value, vs[i].value)
  }

  function ResolveWith(base: Components, v: Variant<Components>): Option<Resolved> {
    var applied := ApplyVariant(base, v);
    if applied.None? then None else Some(Resolved(applied.value, Some(v.seqNo)))
  }

  // ----- The resolver on shared snapshot cells -----

  /** A *int64 of the shared price snapshot. Concurrent readers see it, so nobody may write it. */
  class PriceCell {
    var value: int64
    constructor (v: int64)
      ensures value == v
    {
      value := v;
    }
  }

  function Deref(c: PriceCell?): Option<int64>
    reads c
  {
    if c == null then None else Some(c.value)
  }

  function Load(cells: seq<PriceCell?>): (r: seq<Option<int64>>)
    reads cells
    ensures |r| == |cells| && forall i :: 0 <= i < |cells| ==> r[i] == Deref(cells[i])
  {
    seq(|cells|, i requires 0 <= i < |cells| reads cells => Deref(cells[i]))
  }

  function LoadVariant(v: Variant<seq<PriceCell?>>): Variant<Components>
    requires |v.overrides| == 8
    reads v.overrides
  {
    Variant(v.seqNo, v.when, v.mult, Load(v.overrides))
  }

  method ApplyMult(p: PriceCell?, overridden: bool, mult: int64) returns (q: PriceCell?, ok: bool)
    ensures ok == Representable(Deref(p), overridden, Some(mult))
    ensures ok ==> Deref(q) == if overridden then Deref(p) else ApplyComponent(Deref(p), None, Some(mult))
    ensures q == p || fresh(q)
  {
    q, ok := p, true;
    if !overridden && p != null {
      var val := PriceMultiplierExact(p.value, mult);
      ok := val.Some?;
      if ok {
        q := new PriceCell(val.value);
      }
    }
  }

  /**
    No modifies clause: no cell of the entry or of any variant is written. Each
    returned cell is the entry's own or freshly allocated.
   */
  method ResolveEntryPrices(entry: Option<seq<PriceCell?>>, vs: seq<Option<Variant<seq<PriceCell?>>>>,
                            tier: string, prompt: int64, at: At)
    returns (ok: bool, rp: seq<PriceCell?>, variantSeq: Option<int64>)
    requires (entry.Some? ==> |entry.value| == 8) && forall v :: v in vs && v.Some? ==> |v.value.overrides| == 8
    ensures entry.None? ==> !ok
    ensures ok ==> |rp| == 8 && forall i :: 0 <= i < 8 ==> rp[i] == entry.value[i] || (rp[i] != null && fresh(rp[i]))
    ensures entry.Some? ==>
              var i := FirstMatch(vs, tier, prompt, at);
              if i == |vs| then ok && rp == entry.value && variantSeq == None
              else var want := ResolveWith(Load(entry.value), LoadVariant(vs[i].value));
                   ok == want.Some? && (ok ==> Load(rp) == want.value.prices && variantSeq == want.value.variantSeq)
  {
    ok, rp, variantSeq := false, [], None;
    if entry.None? {
      return;
    }
    rp := entry.value;
    for k := 0 to |vs|
      invariant !ok && rp == entry.value && variantSeq == None
      invariant forall j :: 0 <= j < k ==> !VariantMatches(vs[j], tier, prompt, at)
    {
      if VariantMatches(vs[k], tier, prompt, at) {
        FirstMatchIs(vs, tier, prompt, at, k);
        assert vs[k] in vs;
        var v := vs[k].value;
        variantSeq := Some(v.seqNo);
        if v.mult.Some? && (v.mult.value < 0 || v.mult.value > 100_000) {
          return;
        }
        ok, rp := ApplyAll(entry.value, v);
        return;
      }
    }
    ok := true;
    FirstMatchIs(vs, tier, prompt, at, |vs|);
  }

  lemma FirstMatchIs<P>(vs: seq<Option<Variant<P>>>, tier: string, prompt: int64, at: At, k: nat)
    requires k <= |vs| && (k < |vs| ==> VariantMatches(vs[k], tier, prompt, at))
    requires forall j :: 0 <= j < k ==> !VariantMatches(vs[j], tier, prompt, at)
    ensures FirstMatch(vs, tier, prompt, at) == k
  {
  }

  /** Multiplier first, then overrides, component by component. */
  method ApplyAll(entry: seq<PriceCell?>, v: Variant<seq<PriceCell?>>) returns (ok: bool, rp: seq<PriceCell?>)
    requires |entry| == 8 && |v.overrides| == 8 && InRange(v.mult)
    ensures ok == Applicable(Load(entry), LoadVariant(v))
    ensures ok ==> |rp| == 8 && Some(Load(rp)) == ApplyVariant(Load(entry), LoadVariant(v))
    ensures ok ==> forall i :: 0 <= i < 8 ==> rp[i] == entry[i] || (rp[i] != null && fresh(rp[i]))
  {
    ok, rp := true, [];
    for i := 0 to 8
      invariant ok && |rp| == i
      invariant forall j :: 0 <= j < i ==> Representable(Deref(entry[j]), v.overrides[j] != null, v.mult)
      invariant forall j :: 0 <= j < i ==> rp[j] == entry[j] || (rp[j] != null && fresh(rp[j]))
      invariant forall j :: 0 <= j < i ==>
                  Deref(rp[j]) == ApplyComponent(Deref(entry[j]), Deref(v.overrides[j]), v.mult)
    {
      var q := entry[i];
      if v.mult.Some? {
        q, ok := ApplyMult(entry[i], v.overrides[i] != null, v.mult.value);
        if !ok {
          assert !Representable(Load(entry)[i], LoadVariant(v).overrides[i].Some?, v.mult);
          return;
        }
      }
      if v.overrides[i] != null {
        q := new PriceCell(v.overrides[i].value);
      }
      rp := rp + [q];
    }
    assert Applicable(Load(entry), LoadVariant(v));
    assert Load(rp) == ApplyVariant(Load(entry), LoadVariant(v)).value;
  }

  // ----- The write-time validator -----

  /** ValidateVariantPricePrecision: index of the first component that leaves the grid, None to accept. */
  method ValidateVariantPricePrecision(entry: Option<Components>, v: Option<Variant<Components>>)
    returns (bad: Option<nat>)
    ensures entry.None? || v.None? || v.value.mult.None? ==> bad == None
    ensures entry.Some? && v.Some? ==> (bad.None? <==> Accepts(entry.value, v.value))
    ensures bad.Some? ==>
              && bad.value < 8 && !Fits(entry.value, v.value, bad.value)
              && forall i :: 0 <= i < bad.value ==> Fits(entry.value, v.value, i)
  {
    bad := None;
    if entry.None? || v.None? || v.value.mult.None? {
      return;
    }
    for i := 0 to 8
      invariant bad == None
      invariant forall j :: 0 <= j < i ==> Fits(entry.value, v.value, j)
    {
      if v.value.overrides[i].None? && entry.value[i].Some? {
        var r := PriceMultiplierExact(entry.value[i].value, v.value.mult.value);
        if r.None? {
          assert !Fits(entry.value, v.value, i);
          return Some(i);
        }
      }
    }
  }

  predicate Fits(base: Components, v: Variant<Components>, i: nat)
    requires i < 8
  {
    Representable(base[i], v.overrides[i].Some?, v.mult)
  }

  predicate Accepts(base: Components, v: Variant<Components>) {
    forall i :: 0 <= i < 8 ==> Fits(base, v, i)
  }

  /** Some component is neither absent nor overridden, so the validator looks at the multiplier. */
  predicate TouchesSomething(base: Components, v: Variant<Components>) {
    exists i :: 0 <= i < 8 && v.overrides[i].None? && base[i].Some?
  }

  /**
    Validator and resolver agree on a variant that is the first match, except for
    an out-of-range multiplier that touches no component: that one is accepted by
    the validator and refused by the resolver.
   */
  lemma ValidatorAgreesIff(base: Components, vs: seq<Option<Variant<Components>>>, tier: string, prompt: int64, at: At)
    requires FirstMatch(vs, tier, prompt, at) < |vs|
    ensures var v := vs[FirstMatch(vs, tier, prompt, at)].value;
            (Accepts(base, v) <==> Resolve(Some(base), vs, tier, prompt, at).Some?)
            <==> (InRange(v.mult) || TouchesSomething(base, v))
  {
    var v := vs[FirstMatch(vs, tier, prompt, at)].value;
    if InRange(v.mult) {
      assert Accepts(base, v) <==> Applicable(base, v) by {
        assert forall i :: 0 <= i < 8 ==> (Fits(base, v, i) <==> Representable(base[i], v.overrides[i].Some?, v.mult));
      }
    } else if TouchesSomething(base, v) {
      var i :| 0 <= i < 8 && v.overrides[i].None? && base[i].Some?;
      assert !Fits(base, v, i);
    }
  }

  /** Such an input: nothing is priced, and a wildcard variant multiplies it by 20. */
  lemma ValidatorAcceptsWhatResolverRefuses(tier: string, prompt: int64, at: At)
    ensures var nothing: Components := seq(8, _ => None);
            var v := Variant(0, Conditions(None, None, None, None, None, None), Some(200_000), nothing);
            Accepts(nothing, v) && Resolve(Some(nothing), [Some(v)], tier, prompt, at) == None
  {
  }

  // ----- First match wins -----

  ghost function OnlyMatching(vs: seq<Option<Variant<Components>>>, tier: string, prompt: int64, at: At)
    : seq<Option<Variant<Components>>>
  {
    if vs == [] then []
    else (if VariantMatches(vs[0], tier, prompt, at) then [vs[0]] else []) + OnlyMatching(vs[1..], tier, prompt, at)
  }

  /** Variants that do not match, wherever they stand, are irrelevant. */
  lemma {:induction false} NonMatchingIrrelevant(entry: Option<Components>, vs: seq<Option<Variant<Components>>>,
                                                 tier: string, prompt: int64, at: At)
    ensures Resolve(entry, vs, tier, prompt, at) == Resolve(entry, OnlyMatching(vs, tier, prompt, at), tier, prompt, at)
  {
    if vs != [] {
      if VariantMatches(vs[0], tier, prompt, at) {
        assert OnlyMatching(vs, tier, prompt, at)[0] == vs[0];
      } else {
        assert OnlyMatching(vs, tier, prompt, at) == OnlyMatching(vs[1..], tier, prompt, at);
        NonMatchingIrrelevant(entry, vs[1..], tier, prompt, at);
        assert FirstMatch(vs, tier, prompt, at) == 1 + FirstMatch(vs[1..], tier, prompt, at);
      }
    }
  }

  /** Whatever is appended after a match is irrelevant. */
  lemma AppendIrrelevant(entry: Option<Components>, vs: seq<Option<Variant<Components>>>,
                         more: seq<Option<Variant<Components>>>, tier: string, prompt: int64, at: At)
    requires FirstMatch(vs, tier, prompt, at) < |vs|
    ensures Resolve(entry, vs + more, tier, prompt, at) == Resolve(entry, vs, tier, prompt, at)
  {
    var i := FirstMatch(vs, tier, prompt, at);
    assert forall j :: 0 <= j <= i ==> (vs + more)[j] == vs[j];
    FirstMatchIs(vs + more, tier, prompt, at, i);
  }

  // ----- Ranges that tile -----

  /** A bound that is open at the ends of a tiling. */
  predicate AtOrAfter(bound: Option<int64>, prompt: int64) { bound.Some? ==> prompt >= bound.value }

  predicate Before(bound: Option<int64>, prompt: int64) { bound.Some? ==> prompt < bound.value }

  /** Adjacent context ranges; only the outermost bounds may be missing. */
  ghost predicate Tiles(bounds: seq<Option<int64>>, vs: seq<Option<Variant<Components>>>) {
    && |bounds| == |vs| + 1
    && (forall i :: 0 < i < |vs| ==> bounds[i].Some?)
    && (forall i, j :: 0 <= i <= j < |bounds| && bounds[i].Some? && bounds[j].Some? ==>
          bounds[i].value <= bounds[j].value)
    && forall i :: 0 <= i < |vs| ==>
         vs[i].Some? && vs[i].value.when == Conditions(None, bounds[i], bounds[i + 1], None, None, None)
  }

  /** Adjacent half-open context ranges select exactly one variant for every prompt they cover. */
  lemma {:induction false} TilesSelectOne(bounds: seq<Option<int64>>, vs: seq<Option<Variant<Components>>>,
                                          tier: string, prompt: int64, at: At)
    requires Tiles(bounds, vs) && vs != [] && AtOrAfter(bounds[0], prompt) && Before(bounds[|vs|], prompt)
    ensures var i := FirstMatch(vs, tier, prompt, at);
            i < |vs| && forall j :: 0 <= j < |vs| ==> (VariantMatches(vs[j], tier, prompt, at) <==> j == i)
  {
    var i := FirstMatch(vs, tier, prompt, at);
    var k := Covering(bounds, prompt);
    assert VariantMatches(vs[k], tier, prompt, at);
    forall j | 0 <= j < |vs| && j != i
      ensures !VariantMatches(vs[j], tier, prompt, at)
    {
      assert vs[j].value.when == Conditions(None, bounds[j], bounds[j + 1], None, None, None);
      assert vs[i].value.when == Conditions(None, bounds[i], bounds[i + 1], None, None, None);
      assert j < i ==> bounds[j + 1].Some? && bounds[i].Some? && bounds[j + 1].value <= bounds[i].value;
      assert j > i ==> bounds[i + 1].Some? && bounds[j].Some? && bounds[i + 1].value <= bounds[j].value;
    }
  }

  /** With both ends open, every prompt selects exactly one variant. */
  lemma OpenTilesSelectOne(bounds: seq<Option<int64>>, vs: seq<Option<Variant<Components>>>,
                           tier: string, prompt: int64, at: At)
    requires Tiles(bounds, vs) && vs != [] && bounds[0] == None && bounds[|vs|] == None
    ensures exists i :: 0 <= i < |vs| && VariantMatches(vs[i], tier, prompt, at)
                        && forall j :: 0 <= j < |vs| && VariantMatches(vs[j], tier, prompt, at) ==> j == i
  {
    TilesSelectOne(bounds, vs, tier, prompt, at);
    assert VariantMatches(vs[FirstMatch(vs, tier, prompt, at)], tier, prompt, at);
  }

  lemma {:induction false} Covering(bounds: seq<Option<int64>>, prompt: int64) returns (k: nat)
    requires |bounds| >= 2 && AtOrAfter(bounds[0], prompt) && Before(bounds[|bounds| - 1], prompt)
    ensures k + 1 < |bounds| && AtOrAfter(bounds[k], prompt) && Before(bounds[k + 1], prompt)
  {
    if Before(bounds[1], prompt) {
      k := 0;
    } else {
      k := Covering(bounds[1..], prompt);
      k := k + 1;
    }
  }

  /** A window and its complement across midnight split every minute between them; equal ends split nothing. */
  lemma WindowsPartitionDay(s: int, e: int, minute: int)
    ensures s != e ==> (TimeMatches(Some(s), Some(e), minute) <==> !TimeMatches(Some(e), Some(s), minute))
    ensures s == e ==> TimeMatches(Some(s), Some(e), minute)
  {
  }

  // ----- The conditions, one by one -----

  /** What a variant makes of the base prices, component by component. */
  ghost predicate PricedBy(base: Components, v: Variant<Components>, r: Option<Resolved>) {
    r.Some? ==>
      && r.value.variantSeq == Some(v.seqNo)
      && forall i :: 0 <= i < 8 ==>
           && (v.overrides[i].Some? ==> r.value.prices[i] == v.overrides[i])
           && (v.overrides[i].None? && (v.mult.None? || base[i].None?) ==> r.value.prices[i] == base[i])
           && (v.overrides[i].None? && v.mult.Some? && base[i].Some? ==>
                 r.value.prices[i].Some?
                 && 10_000 * (r.value.prices[i].value as int) == (base[i].value as int) * v.mult.value)
  }

  lemma ResolveWithIsPriced(base: Components, v: Variant<Components>)
    ensures PricedBy(base, v, ResolveWith(base, v))
  {
  }

  /** Without an entry there is no price; without a match the entry's own prices apply. */
  lemma BaseApplies(base: Components, vs: seq<Option<Variant<Components>>>, tier: string, prompt: int64, at: At)
    ensures Resolve(None, vs, tier, prompt, at) == None
    ensures vs == [] ==> Resolve(Some(base), vs, tier, prompt, at) == Some(Resolved(base, None))
    ensures FirstMatch(vs, tier, prompt, at) == |vs| ==>
              Resolve(Some(base), vs, tier, prompt, at) == Some(Resolved(base, None))
  {
  }

  /** A variant that does not match can be taken out from anywhere. */
  lemma Removable(entry: Option<Components>, pre: seq<Option<Variant<Components>>>, v: Option<Variant<Components>>,
                  post: seq<Option<Variant<Components>>>, tier: string, prompt: int64, at: At)
    requires !VariantMatches(v, tier, prompt, at)
    ensures Resolve(entry, pre + [v] + post, tier, prompt, at) == Resolve(entry, pre + post, tier, prompt, at)
  {
    var with, without := pre + [v] + post, pre + post;
    var k := FirstMatch(without, tier, prompt, at);
    if k < |pre| {
      assert forall j :: 0 <= j <= k ==> with[j] == without[j];
      FirstMatchIs(with, tier, prompt, at, k);
    } else {
      assert forall j :: 0 <= j < |pre| ==> with[j] == without[j];
      assert with[|pre|] == v;
      assert forall j :: |pre| <= j < |without| ==> with[j + 1] == without[j];
      assert forall j :: |pre| < j < |with| ==> with[j] == without[j - 1];
      FirstMatchIs(with, tier, prompt, at, k + 1);
    }
  }

  /**
    A variant can be taken out from anywhere, without any change, if it is nil, names another tier, starts above the
    prompt, ends at or below it, or has the day's bit off.
   */
  lemma FailedConditionExcludes(entry: Option<Components>, pre: seq<Option<Variant<Components>>>,
                                v: Option<Variant<Components>>, post: seq<Option<Variant<Components>>>,
                                tier: string, prompt: int64, at: At)
    requires v.Some? ==>
      var c := v.value.when;
      || (c.serviceTier.Some? && c.serviceTier.value != tier)
      || (c.ctxMin.Some? && prompt < c.ctxMin.value) || (c.ctxMax.Some? && c.ctxMax.value <= prompt)
      || (c.dowMask.Some? && c.dowMask.value / Power2(at.weekday) % 2 == 0)
    ensures Resolve(entry, pre + [v] + post, tier, prompt, at) == Resolve(entry, pre + post, tier, prompt, at)
  {
    Removable(entry, pre, v, post, tier, prompt, at);
  }

  /** No condition but the tier. */
  predicate OnlyTier(v: Option<Variant<Components>>, tier: string) {
    v.Some? && v.value.when == Conditions(Some(tier), None, None, None, None, None)
  }

  /** A variant for the request's tier, or for every request, decides when it is first. */
  lemma OwnTierDecides(base: Components, v: Variant<Components>, rest: seq<Option<Variant<Components>>>,
                       tier: string, prompt: int64, at: At)
    requires OnlyTier(Some(v), tier) || v.when == Conditions(None, None, None, None, None, None)
    ensures Resolve(Some(base), [Some(v)] + rest, tier, prompt, at) == ResolveWith(base, v)
    ensures PricedBy(base, v, Resolve(Some(base), [Some(v)] + rest, tier, prompt, at))
  {
    FirstMatchIs([Some(v)] + rest, tier, prompt, at, 0);
    ResolveWithIsPriced(base, v);
  }

  /** Variants over distinct tiers: the one that names the request's tier decides, wherever it stands. */
  lemma DistinctTiersSelectOwn(base: Components, vs: seq<Option<Variant<Components>>>, tiers: seq<string>, k: nat,
                               prompt: int64, at: At)
    requires |vs| == |tiers| && k < |vs| && forall i :: 0 <= i < |vs| ==> OnlyTier(vs[i], tiers[i])
    requires forall i, j :: 0 <= i < j < |tiers| ==> tiers[i] != tiers[j]
    ensures FirstMatch(vs, tiers[k], prompt, at) == k
    ensures Resolve(Some(base), vs, tiers[k], prompt, at) == ResolveWith(base, vs[k].value)
  {
    FirstMatchIs(vs, tiers[k], prompt, at, k);
  }

  /** No variant names the request's tier: the base prices apply. */
  lemma UnknownTierGetsBase(base: Components, vs: seq<Option<Variant<Components>>>, tiers: seq<string>, tier: string,
                            prompt: int64, at: At)
    requires |vs| == |tiers| && forall i :: 0 <= i < |vs| ==> OnlyTier(vs[i], tiers[i]) && tiers[i] != tier
    ensures Resolve(Some(base), vs, tier, prompt, at) == Some(Resolved(base, None))
  {
    FirstMatchIs(vs, tier, prompt, at, |vs|);
  }

  /** No condition but the weekday mask. */
  function OnlyDays(mask: int64): Conditions { Conditions(None, None, None, None, None, Some(mask)) }

  lemma Powers()
    ensures Power2(0) == 1 && Power2(1) == 2 && Power2(2) == 4 && Power2(3) == 8
    ensures Power2(4) == 16 && Power2(5) == 32 && Power2(6) == 64
  {
    assert Power2(1) == 2 * Power2(0) && Power2(2) == 2 * Power2(1) && Power2(3) == 2 * Power2(2);
    assert Power2(4) == 2 * Power2(3) && Power2(5) == 2 * Power2(4) && Power2(6) == 2 * Power2(5);
  }

  /** A mask and its complement split the week; the full mask is every day, the empty one none, and bit 0 is Sunday. */
  lemma MasksSplitWeek(mask: int64, tier: string, prompt: int64, at: At)
    requires 0 <= mask <= 127 && at.weekday < 7
    ensures Matches(OnlyDays(mask), tier, prompt, at) <==> !Matches(OnlyDays(127 - mask), tier, prompt, at)
    ensures Matches(OnlyDays(127), tier, prompt, at) && !Matches(OnlyDays(0), tier, prompt, at)
    ensures Matches(OnlyDays(1), tier, prompt, at) <==> at.weekday == 0
    ensures Matches(OnlyDays(64), tier, prompt, at) <==> at.weekday == 6
  {
    Powers();
    var p := Power2(at.weekday);
    assert p == 1 || p == 2 || p == 4 || p == 8 || p == 16 || p == 32 || p == 64;
    ComplementBit(mask, p);
  }

  lemma ComplementBit(mask: int, p: nat)
    requires 0 <= mask <= 127 && p in {1, 2, 4, 8, 16, 32, 64}
    ensures mask / p % 2 == 1 <==> (127 - mask) / p % 2 == 0
  {
  }

  /** A daily window is the minutes from its start to its end, counted round the clock. */
  lemma WindowIsCyclic(s: int, e: int, minute: int)
    requires 0 <= s < 1440 && 0 <= e < 1440 && 0 <= minute < 1440 && s != e
    ensures TimeMatches(Some(s), Some(e), minute) <==> (minute - s) % 1440 < (e - s) % 1440
  {
  }

  /** One-sided windows split the day at their bound. */
  lemma HalfDays(bound: int, minute: int)
    ensures TimeMatches(Some(bound), None, minute) <==> minute >= bound
    ensures TimeMatches(None, Some(bound), minute) <==> minute < bound
    ensures TimeMatches(None, None, minute)
  {
  }
}
