/** internal/billing/cost.go: saturating fixed-point pricing in int64. */
module Cost {
  import opened Arithmetic

  const SCALE: int := 1_000_000
  const SEG_BUDGET: int := (INT64_MAX - SCALE / 2) / 8
  const IMAGE_TOTAL_CAP: int := INT64_MAX / 100_000

  /** The eight optional price components of domain.ResolvedPrices. */
  datatype Prices = Prices(
    input: Option<int64>, output: Option<int64>,
    cacheRead: Option<int64>, cacheWrite: Option<int64>,
    perCall: Option<int64>,
    imgIn: Option<int64>, imgOut: Option<int64>, perImage: Option<int64>)

  /** Whole ledger units plus a numerator over SCALE. */
  datatype CostParts = CostParts(units: int64, remainder: int64) {
    ghost predicate Normal() {
      0 <= units && 0 <= remainder < SCALE
    }

    /** The exact amount, in 1/SCALE units. */
    ghost function Exact(): int {
      SCALE * units + remainder
    }
  }

  function Positive(t: int64): (r: int64) { if t < 0 then 0 else t }

  function PositiveCostPrice(p: Option<int64>): (r: int64)
  {
    if p.None? || p.value <= 0 then 0 else p.value
  }

  function SaturatingCostMul(a: int64, b: int64, limit: int64): (r: int64)
    ensures r == if a > 0 && b > 0 && limit > 0 then Min(a * b, limit) else 0
  {
    if a <= 0 || b <= 0 || limit <= 0 then 0
    else
      QuotientGuard(a, b, limit);
      if a > limit / b then limit else a * b
  }

  function SaturatingCostAdd(a: int64, b: int64): (r: int64)
    ensures r == Min(Max(a, 0) + Max(b, 0), INT64_MAX)
  {
    if a <= 0 then (if b <= 0 then 0 else b)
    else if b <= 0 then a
    else if a > INT64_MAX - b then INT64_MAX
    else a + b
  }

  function SplitCostParts(raw: int64): (p: CostParts)
    ensures p.Normal() && p.Exact() == Max(raw, 0)
  {
    if raw <= 0 then CostParts(0, 0) else CostParts(raw / SCALE, raw % SCALE)
  }

  function RoundCostParts(p: CostParts): (r: int64)
  {
    var units := if p.units < 0 then 0 else p.units;
    if p.remainder >= SCALE / 2 && units < INT64_MAX then units + 1 else units
  }

  function AddCostParts(a: CostParts, b: CostParts): (r: CostParts)
    requires a.Normal() && b.Normal()
    ensures r.Normal()
    ensures a.units + b.units < INT64_MAX ==> r.Exact() == a.Exact() + b.Exact()
    ensures a.units + b.units >= INT64_MAX ==> r == CostParts(INT64_MAX, 0)
  {
    var units := SaturatingCostAdd(a.units, b.units);
    var pinned := CostParts(INT64_MAX, 0);
    if units == INT64_MAX then pinned
    else
      var remainder: int64 := a.remainder + b.remainder;
      var carry: int64 := remainder / SCALE;
      if units > INT64_MAX - carry then pinned
      else CostParts(units + carry, remainder % SCALE)
  }

  // ----- One component, and the exact sums the parts stand for -----

  /** A token component over unbounded integers: price times tokens, capped at SEG_BUDGET. */
  ghost function Segment(tokens: int, price: int): (r: nat)
    ensures r <= SEG_BUDGET
  {
    if tokens > 0 && price > 0 then Min(tokens * price, SEG_BUDGET) else 0
  }

  /** A missing cache price falls back to the input price; an explicit one does not. */
  ghost function EffectiveCachePrice(cache: Option<int64>, input: Option<int64>): int {
    if cache.Some? then cache.value else if input.Some? then input.value else 0
  }

  ghost function PriceOf(p: Option<int64>): int {
    if p.Some? then p.value else 0
  }

  ghost function TokenTotal(rp: Prices, pt: int, ct: int, cr: int, cc: int): nat {
    Segment(pt, PriceOf(rp.input)) + Segment(ct, PriceOf(rp.output))
    + Segment(cr, EffectiveCachePrice(rp.cacheRead, rp.input))
    + Segment(cc, EffectiveCachePrice(rp.cacheWrite, rp.input))
  }

  /** Flat per-image charge in ledger units, capped. */
  ghost function ImageFlat(rp: Prices, count: int): (r: nat)
    ensures r <= IMAGE_TOTAL_CAP
  {
    if count > 0 && PriceOf(rp.perImage) > 0 then Min(count * PriceOf(rp.perImage), IMAGE_TOTAL_CAP) else 0
  }

  ghost function ImageTotal(rp: Prices, inTok: int, outTok: int, count: int): nat {
    Min(Segment(inTok, PriceOf(rp.imgIn)) + Segment(outTok, PriceOf(rp.imgOut)) + SCALE * ImageFlat(rp, count),
        SCALE * IMAGE_TOTAL_CAP)
  }

  // ----- Pricing -----

  function CostPartsFromResolved(rp: Prices, pt: int64, ct: int64, cr: int64, cc: int64): (p: CostParts)
    ensures p.Normal() && p.Exact() == TokenTotal(rp, pt, ct, cr, cc)
  {
    var input, output := PositiveCostPrice(rp.input), PositiveCostPrice(rp.output);
    var cacheRead := if rp.cacheRead.None? then input else PositiveCostPrice(rp.cacheRead);
    var cacheWrite := if rp.cacheWrite.None? then input else PositiveCostPrice(rp.cacheWrite);
    var raw := SaturatingCostAdd(SaturatingCostMul(Positive(pt), input, SEG_BUDGET),
                                 SaturatingCostMul(Positive(ct), output, SEG_BUDGET));
    var raw' := SaturatingCostAdd(raw, SaturatingCostMul(Positive(cr), cacheRead, SEG_BUDGET));
    SplitCostParts(SaturatingCostAdd(raw', SaturatingCostMul(Positive(cc), cacheWrite, SEG_BUDGET)))
  }

  function ImageCostPartsFromResolved(rp: Prices, inTok: int64, outTok: int64, count: int64): (p: CostParts)
    ensures p.Normal() && p.Exact() == ImageTotal(rp, inTok, outTok, count)
  {
    var perP := PositiveCostPrice(rp.perImage);
    var n := Positive(count);
    var raw := SaturatingCostAdd(SaturatingCostMul(Positive(inTok), PositiveCostPrice(rp.imgIn), SEG_BUDGET),
                                 SaturatingCostMul(Positive(outTok), PositiveCostPrice(rp.imgOut), SEG_BUDGET));
    var parts := SplitCostParts(raw);
    var parts' := if perP > 0 && n > 0
                  then parts.(units := SaturatingCostAdd(parts.units, SaturatingCostMul(n, perP, IMAGE_TOTAL_CAP)))
                  else parts;
    if parts'.units >= IMAGE_TOTAL_CAP then CostParts(IMAGE_TOTAL_CAP, 0) else parts'
  }

  function CallCostFromResolved(rp: Prices, count: int64): (r: int64)
    ensures r == if count > 0 && PriceOf(rp.perCall) > 0
                 then Min(count * PriceOf(rp.perCall), IMAGE_TOTAL_CAP) else 0
  {
    if rp.perCall.None? then 0
    else if rp.perCall.value > 0 then SaturatingCostMul(Positive(count), rp.perCall.value, IMAGE_TOTAL_CAP)
    else 0
  }

  function CostFromResolved(rp: Prices, pt: int64, ct: int64, cr: int64, cc: int64): (r: int64)
  {
    RoundCostParts(CostPartsFromResolved(rp, pt, ct, cr, cc))
  }

  function ImageCostFromResolved(rp: Prices, inTok: int64, outTok: int64, count: int64): (r: int64)
  {
    RoundCostParts(ImageCostPartsFromResolved(rp, inTok, outTok, count))
  }

  /** Rounding normalised parts is half-up rounding of their exact value, saturated. */
  lemma RoundIsHalfUp(p: CostParts)
    requires p.Normal()
    ensures RoundCostParts(p) == Min(HalfUp(p.Exact(), SCALE), INT64_MAX)
  {
    HalfUpFromParts(p.units, p.remainder, SCALE);
  }

  /** The int64 pipeline refines exact arithmetic: no intermediate saturation or wrap is visible. */
  lemma CostFromResolvedExact(rp: Prices, pt: int64, ct: int64, cr: int64, cc: int64)
    ensures CostFromResolved(rp, pt, ct, cr, cc) == HalfUp(TokenTotal(rp, pt, ct, cr, cc), SCALE)
    ensures CostFromResolved(rp, pt, ct, cr, cc) <= 4 * SEG_BUDGET / SCALE + 1
  {
    var p := CostPartsFromResolved(rp, pt, ct, cr, cc);
    RoundIsHalfUp(p);
    HalfUpMonotone(p.Exact(), 4 * SEG_BUDGET, SCALE);
  }

  lemma ImageCostExact(rp: Prices, inTok: int64, outTok: int64, count: int64)
    ensures ImageCostFromResolved(rp, inTok, outTok, count) == HalfUp(ImageTotal(rp, inTok, outTok, count), SCALE)
    ensures ImageCostFromResolved(rp, inTok, outTok, count) <= IMAGE_TOTAL_CAP
  {
    var p := ImageCostPartsFromResolved(rp, inTok, outTok, count);
    RoundIsHalfUp(p);
    HalfUpMonotone(p.Exact(), SCALE * IMAGE_TOTAL_CAP, SCALE);
    HalfUpFromParts(IMAGE_TOTAL_CAP, 0, SCALE);
  }

  // ----- Monotonicity -----

  /** Same components present, none of them cheaper. */
  ghost predicate NoCheaper(a: Prices, b: Prices) {
    && OptionLe(a.input, b.input) && OptionLe(a.output, b.output)
    && OptionLe(a.cacheRead, b.cacheRead) && OptionLe(a.cacheWrite, b.cacheWrite)
    && OptionLe(a.imgIn, b.imgIn) && OptionLe(a.imgOut, b.imgOut) && OptionLe(a.perImage, b.perImage)
  }

  ghost predicate OptionLe(a: Option<int64>, b: Option<int64>) {
    (a.None? && b.None?) || (a.Some? && b.Some? && a.value <= b.value)
  }

  lemma SegmentMonotone(t: int, t': int, p: int, p': int)
    requires t <= t' && p <= p'
    ensures Segment(t, p) <= Segment(t', p')
  {
    if t > 0 && p > 0 {
      MulMonotone(t, t', p);
      MulMonotone(p, p', t');
    }
  }

  lemma TokenTotalMonotone(a: Prices, b: Prices, pt: int, ct: int, cr: int, cc: int, pt': int, ct': int, cr': int,
                           cc': int)
    requires NoCheaper(a, b) && pt <= pt' && ct <= ct' && cr <= cr' && cc <= cc'
    ensures TokenTotal(a, pt, ct, cr, cc) <= TokenTotal(b, pt', ct', cr', cc')
  {
    SegmentMonotone(pt, pt', PriceOf(a.input), PriceOf(b.input));
    SegmentMonotone(ct, ct', PriceOf(a.output), PriceOf(b.output));
    SegmentMonotone(cr, cr', EffectiveCachePrice(a.cacheRead, a.input), EffectiveCachePrice(b.cacheRead, b.input));
    SegmentMonotone(cc, cc', EffectiveCachePrice(a.cacheWrite, a.input), EffectiveCachePrice(b.cacheWrite, b.input));
  }

  /** More tokens or a higher price never lowers a charge. */
  lemma CostMonotone(a: Prices, b: Prices, pt: int64, ct: int64, cr: int64, cc: int64,
                     pt': int64, ct': int64, cr': int64, cc': int64)
    requires NoCheaper(a, b) && pt <= pt' && ct <= ct' && cr <= cr' && cc <= cc'
    ensures CostFromResolved(a, pt, ct, cr, cc) <= CostFromResolved(b, pt', ct', cr', cc')
  {
    TokenTotalMonotone(a, b, pt, ct, cr, cc, pt', ct', cr', cc');
    HalfUpMonotone(TokenTotal(a, pt, ct, cr, cc), TokenTotal(b, pt', ct', cr', cc'), SCALE);
    CostFromResolvedExact(a, pt, ct, cr, cc);
    CostFromResolvedExact(b, pt', ct', cr', cc');
  }

  lemma ImageFlatMonotone(a: Prices, b: Prices, n: int, n': int)
    requires NoCheaper(a, b) && n <= n'
    ensures ImageFlat(a, n) <= ImageFlat(b, n')
  {
    var p, p' := PriceOf(a.perImage), PriceOf(b.perImage);
    if n > 0 && p > 0 {
      MulMonotone(n, n', p);
      MulMonotone(p, p', n');
    }
  }

  lemma ImageCostMonotone(a: Prices, b: Prices, i: int64, o: int64, n: int64, i': int64, o': int64, n': int64)
    requires NoCheaper(a, b) && i <= i' && o <= o' && n <= n'
    ensures ImageCostFromResolved(a, i, o, n) <= ImageCostFromResolved(b, i', o', n')
  {
    SegmentMonotone(i, i', PriceOf(a.imgIn), PriceOf(b.imgIn));
    SegmentMonotone(o, o', PriceOf(a.imgOut), PriceOf(b.imgOut));
    ImageFlatMonotone(a, b, n, n');
    HalfUpMonotone(ImageTotal(a, i, o, n), ImageTotal(b, i', o', n'), SCALE);
    ImageCostExact(a, i, o, n);
    ImageCostExact(b, i', o', n');
  }

  // ----- Rounding once -----

  /** Any way of combining parts pairwise: a binary tree of AddCostParts calls. */
  datatype Sum = One(p: CostParts) | Both(l: Sum, r: Sum) {
    ghost predicate Normal() {
      match this
      case One(p) => p.Normal()
      case Both(l, r) => l.Normal() && r.Normal()
    }

    ghost function Leaves(): multiset<CostParts> {
      match this
      case One(p) => multiset{p}
      case Both(l, r) => l.Leaves() + r.Leaves()
    }

    ghost function Exact(): int {
      match this
      case One(p) => p.Exact()
      case Both(l, r) => l.Exact() + r.Exact()
    }

    function Fold(): CostParts
      requires Normal()
      ensures Fold().Normal()
    {
      match this
      case One(p) => p
      case Both(l, r) => AddCostParts(l.Fold(), r.Fold())
    }
  }

  /** Folding is exact until the exact sum reaches INT64_MAX units, and pinned there afterwards. */
  lemma {:induction false} FoldIsExactOrPinned(t: Sum)
    requires t.Normal()
    ensures t.Exact() >= 0
    ensures t.Exact() < SCALE * INT64_MAX ==> t.Fold().Exact() == t.Exact()
    ensures t.Exact() >= SCALE * INT64_MAX ==> t.Fold().units == INT64_MAX
  {
    if t.Both? {
      FoldIsExactOrPinned(t.l);
      FoldIsExactOrPinned(t.r);
    }
  }

  /** However the additions are grouped or ordered, rounding once at the end is exact. */
  lemma RoundingOnce(t: Sum)
    requires t.Normal()
    ensures t.Exact() >= 0
    ensures RoundCostParts(t.Fold()) == Min(HalfUp(t.Exact(), SCALE), INT64_MAX)
  {
    FoldIsExactOrPinned(t);
    RoundIsHalfUp(t.Fold());
    if t.Exact() >= SCALE * INT64_MAX {
      HalfUpFromParts(INT64_MAX, 0, SCALE);
      HalfUpMonotone(SCALE * INT64_MAX, t.Exact(), SCALE);
      HalfUpMonotone(SCALE * INT64_MAX, t.Fold().Exact(), SCALE);
    }
  }

  ghost function ExactOf(m: multiset<CostParts>): int
  {
    if m == multiset{} then 0
    else
      var p :| p in m;
      p.Exact() + ExactOf(m - multiset{p})
  }

  lemma {:induction false} ExactOfPick(m: multiset<CostParts>, p: CostParts)
    requires p in m
    ensures ExactOf(m) == p.Exact() + ExactOf(m - multiset{p})
    decreases |m|
  {
    var q :| q in m && ExactOf(m) == q.Exact() + ExactOf(m - multiset{q});
    if q != p {
      ExactOfPick(m - multiset{q}, p);
      ExactOfPick(m - multiset{p}, q);
      assert m - multiset{q} - multiset{p} == m - multiset{p} - multiset{q};
    }
  }

  lemma {:induction false} ExactOfPlus(a: multiset<CostParts>, b: multiset<CostParts>)
    ensures ExactOf(a + b) == ExactOf(a) + ExactOf(b)
    decreases |a|
  {
    if a == multiset{} {
      assert a + b == b;
    } else {
      var p :| p in a;
      ExactOfPick(a, p);
      ExactOfPick(a + b, p);
      assert a + b - multiset{p} == (a - multiset{p}) + b;
      ExactOfPlus(a - multiset{p}, b);
    }
  }

  lemma {:induction false} ExactIsExactOfLeaves(t: Sum)
    ensures t.Exact() == ExactOf(t.Leaves())
  {
    match t
    case One(p) =>
      ExactOfPick(multiset{p}, p);
      assert multiset{p} - multiset{p} == multiset{};
    case Both(l, r) =>
      ExactIsExactOfLeaves(l);
      ExactIsExactOfLeaves(r);
      ExactOfPlus(l.Leaves(), r.Leaves());
  }

  /** Two groupings of the same parts, in any order, round to the same charge. */
  lemma GroupingIrrelevant(t: Sum, u: Sum)
    requires t.Normal() && u.Normal() && t.Leaves() == u.Leaves()
    ensures RoundCostParts(t.Fold()) == RoundCostParts(u.Fold())
  {
    RoundingOnce(t);
    RoundingOnce(u);
    ExactIsExactOfLeaves(t);
    ExactIsExactOfLeaves(u);
  }

  /**
    AddCostParts on its own is associative exactly off the saturation boundary: it fails iff the
    units come to one below the pin, only one of the two groupings carries, and the remainders
    do not fill a unit exactly.
   */
  lemma AddCostPartsAssociativeIff(a: CostParts, b: CostParts, c: CostParts)
    requires a.Normal() && b.Normal() && c.Normal()
    ensures AddCostParts(AddCostParts(a, b), c) == AddCostParts(a, AddCostParts(b, c)) <==>
      || a.units + b.units + c.units != INT64_MAX - 1
      || (a.remainder + b.remainder >= SCALE <==> b.remainder + c.remainder >= SCALE)
      || a.remainder + b.remainder + c.remainder == SCALE
  {
    var ab, bc := AddCostParts(a, b), AddCostParts(b, c);
    AddForm(a, b);
    AddForm(b, c);
    AddForm(ab, c);
    AddForm(a, bc);
  }

  /** Pinned once the units alone reach the bound; otherwise one carry. */
  lemma AddForm(a: CostParts, b: CostParts)
    requires a.Normal() && b.Normal()
    ensures AddCostParts(a, b) ==
      if a.units + b.units >= INT64_MAX then CostParts(INT64_MAX, 0)
      else if a.remainder + b.remainder >= SCALE
        then CostParts(a.units + b.units + 1, a.remainder + b.remainder - SCALE)
      else CostParts(a.units + b.units, a.remainder + b.remainder)
  {
  }

  /** AddCostParts on its own is not associative: only the rounded value is. */
  lemma AddCostPartsNotAssociative()
    ensures exists a: CostParts, b: CostParts, c: CostParts ::
              a.Normal() && b.Normal() && c.Normal() &&
              AddCostParts(AddCostParts(a, b), c) != AddCostParts(a, AddCostParts(b, c))
  {
    var a, b, c := CostParts(INT64_MAX - 1, 0), CostParts(0, 600_000), CostParts(0, 600_000);
    assert AddCostParts(AddCostParts(a, b), c) == CostParts(INT64_MAX, 200_000);
    assert AddCostParts(a, AddCostParts(b, c)) == CostParts(INT64_MAX, 0);
  }

  // ----- Multipliers, in ten-thousandths -----

  /** The product splits along the quotient by 10000, and the small half cannot overflow. */
  lemma SplitProduct(cost: nat, m: nat)
    requires m <= 1_000_000
    ensures cost * m == 10_000 * ((cost / 10_000) * m) + (cost % 10_000) * m
    ensures 0 <= (cost % 10_000) * m <= 10_000_000_000
  {
    var q, rem := cost / 10_000, cost % 10_000;
    assert cost == 10_000 * q + rem;
    assert (10_000 * q + rem) * m == 10_000 * (q * m) + rem * m;
    MulMonotone(rem, 10_000, m);
  }

  /** Carries the scaled remainder into the scaled quotient. */
  function CarryProduct(out: int64, scaled: int64): (r: (int64, int64))
    requires 0 <= out && 0 <= scaled
    ensures 0 <= r.0 && 0 <= r.1 < 10_000
    ensures if 10_000 * out + scaled < 10_000 * (INT64_MAX + 1) then 10_000 * r.0 + r.1 == 10_000 * out + scaled
            else r == (INT64_MAX, 0)
  {
    var remCost: int64 := scaled / 10_000;
    if out > INT64_MAX - remCost then (INT64_MAX, 0)
    else (out + remCost, scaled % 10_000)
  }

  function MultiplierFloorParts(cost: int64, multiplier: int64, maxMultiplier: int64): (r: (int64, int64))
    requires 0 < maxMultiplier <= 1_000_000
    ensures 0 <= r.0 && 0 <= r.1 < 10_000
  {
    if cost <= 0 || multiplier <= 0 then (0, 0)
    else
      var m: int64 := if multiplier > maxMultiplier then maxMultiplier else multiplier;
      if m == 10_000 then (cost, 0)
      else
        var q: int64, rem: int64 := cost / 10_000, cost % 10_000;
        HalvesFit(cost, m);
        if q > INT64_MAX / m then (INT64_MAX, 0)
        else CarryProduct(q * m, rem * m)
  }

  /** Past the quotient guard both halves of the product are int64 values. */
  lemma HalvesFit(cost: nat, m: nat)
    requires 0 < m <= 1_000_000
    ensures cost / 10_000 <= INT64_MAX / m ==> 0 <= (cost / 10_000) * m <= INT64_MAX
    ensures 0 <= (cost % 10_000) * m <= INT64_MAX
  {
    QuotientGuard(cost / 10_000, m, INT64_MAX);
    MulMonotone(cost % 10_000, 10_000, m);
  }

  /** Quotient and remainder of the exact product by 10000, or pinned at INT64_MAX. */
  lemma MultiplierFloorExact(cost: int64, multiplier: int64, ceiling: int64)
    requires 0 < ceiling <= 1_000_000
    ensures var r := MultiplierFloorParts(cost, multiplier, ceiling);
            var exact := Max(cost, 0) * Min(Max(multiplier, 0), ceiling);
            if exact < 10_000 * (INT64_MAX + 1) then 10_000 * r.0 + r.1 == exact else r == (INT64_MAX, 0)
  {
    if cost > 0 && multiplier > 0 {
      var m := Min(multiplier, ceiling);
      SplitProduct(cost, m);
      QuotientGuard(cost / 10_000, m, INT64_MAX);
    }
  }

  function RoundMultiplied(parts: (int64, int64)): (r: int64) {
    if parts.0 == INT64_MAX || parts.1 < 5_000 then parts.0 else parts.0 + 1
  }

  function ApplyMultiplier(cost: int64, multiplier: int64): (r: int64) {
    RoundMultiplied(MultiplierFloorParts(cost, multiplier, 100_000))
  }

  function ApplyUpstreamMultiplier(cost: int64, multiplier: int64): (r: int64) {
    RoundMultiplied(MultiplierFloorParts(cost, multiplier, 1_000_000))
  }

  /** cost * multiplier / 10000, rounded half-up over unbounded integers, then saturated. */
  ghost function Scaled(cost: int, multiplier: int, ceiling: nat): (r: nat)
  {
    HalfUp(Max(cost, 0) * Min(Max(multiplier, 0), ceiling), 10_000)
  }

  lemma RoundMultipliedExact(cost: int64, multiplier: int64, ceiling: int64)
    requires 0 < ceiling <= 1_000_000
    ensures RoundMultiplied(MultiplierFloorParts(cost, multiplier, ceiling))
         == Min(Scaled(cost, multiplier, ceiling), INT64_MAX)
  {
    var exact := Max(cost, 0) * Min(Max(multiplier, 0), ceiling);
    var parts := MultiplierFloorParts(cost, multiplier, ceiling);
    MultiplierFloorExact(cost, multiplier, ceiling);
    if exact < 10_000 * (INT64_MAX + 1) {
      HalfUpFromParts(parts.0, parts.1, 10_000);
    } else {
      HalfUpFromParts(INT64_MAX + 1, 0, 10_000);
      HalfUpMonotone(10_000 * (INT64_MAX + 1), exact, 10_000);
    }
  }

  lemma ApplyMultiplierExact(cost: int64, multiplier: int64)
    ensures ApplyMultiplier(cost, multiplier) == Min(Scaled(cost, multiplier, 100_000), INT64_MAX)
    ensures ApplyUpstreamMultiplier(cost, multiplier) == Min(Scaled(cost, multiplier, 1_000_000), INT64_MAX)
  {
    RoundMultipliedExact(cost, multiplier, 100_000);
    RoundMultipliedExact(cost, multiplier, 1_000_000);
  }

  // ----- Every counter at its own price -----

  /** A single component: price times tokens, capped, rounded half-up. */
  ghost function Alone(tokens: int64, price: Option<int64>): int {
    if tokens > 0 && price.Some? && price.value > 0 then HalfUp(Min(tokens * price.value, SEG_BUDGET), SCALE) else 0
  }

  lemma HalfUpOfZero()
    ensures HalfUp(0, SCALE) == 0
  {
  }

  /** Prompt tokens cost the input price, completion tokens the output price. */
  lemma TokensAtOwnPrice(rp: Prices, n: int64)
    ensures CostFromResolved(rp, n, 0, 0, 0) == Alone(n, rp.input)
    ensures CostFromResolved(rp, 0, n, 0, 0) == Alone(n, rp.output)
  {
    HalfUpOfZero();
    CostFromResolvedExact(rp, n, 0, 0, 0);
    CostFromResolvedExact(rp, 0, n, 0, 0);
  }

  /** Cached tokens cost their own price, or the input price if they have none. */
  lemma CacheAtOwnPrice(rp: Prices, n: int64)
    ensures CostFromResolved(rp, 0, 0, n, 0) == Alone(n, if rp.cacheRead.Some? then rp.cacheRead else rp.input)
    ensures CostFromResolved(rp, 0, 0, 0, n) == Alone(n, if rp.cacheWrite.Some? then rp.cacheWrite else rp.input)
  {
    HalfUpOfZero();
    CostFromResolvedExact(rp, 0, 0, n, 0);
    CostFromResolvedExact(rp, 0, 0, 0, n);
  }

  /** The four components add up exactly. */
  lemma ComponentsAddUp(rp: Prices, pt: int64, ct: int64, cr: int64, cc: int64)
    ensures TokenTotal(rp, pt, ct, cr, cc)
         == TokenTotal(rp, pt, 0, 0, 0) + TokenTotal(rp, 0, ct, 0, 0)
            + TokenTotal(rp, 0, 0, cr, 0) + TokenTotal(rp, 0, 0, 0, cc)
  {
  }

  /** Image tokens cost their own prices; images the per-image price each. */
  lemma ImagesAtOwnPrice(rp: Prices, n: int64)
    ensures ImageCostFromResolved(rp, n, 0, 0) == Alone(n, rp.imgIn)
    ensures ImageCostFromResolved(rp, 0, n, 0) == Alone(n, rp.imgOut)
    ensures ImageCostFromResolved(rp, 0, 0, n)
         == if n > 0 && rp.perImage.Some? && rp.perImage.value > 0
            then Min(n * rp.perImage.value, IMAGE_TOTAL_CAP) else 0
  {
    HalfUpOfZero();
    ImageCostExact(rp, n, 0, 0);
    ImageCostExact(rp, 0, n, 0);
    ImageCostExact(rp, 0, 0, n);
  }

  /** Times one changes nothing, times two doubles, zero and less is free. */
  lemma MultiplierLandmarks(cost: int64)
    requires 0 <= cost
    ensures ApplyMultiplier(cost, 10_000) == cost && ApplyUpstreamMultiplier(cost, 10_000) == cost
    ensures 2 * cost <= INT64_MAX ==> ApplyMultiplier(cost, 20_000) == 2 * cost
    ensures ApplyMultiplier(cost, 0) == 0 && ApplyMultiplier(cost, -1) == 0
  {
    ApplyMultiplierExact(cost, 20_000);
    HalfUpUnique(cost * 20_000, 10_000, 2 * cost);
  }
}
