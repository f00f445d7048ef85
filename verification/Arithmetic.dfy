/** Machine integers and the exact rounding the money code is measured against. */
module Arithmetic {
  const INT64_MAX: int := 0x7fff_ffff_ffff_ffff
  const INT64_MIN: int := -0x8000_0000_0000_0000
  const UINT64_RANGE: int := 0x1_0000_0000_0000_0000

  /** Go's int64 and (64-bit) int. A value stored at this type has not wrapped. */
  type int64 = x: int | INT64_MIN <= x <= INT64_MAX

  datatype Option<+T> = None | Some(value: T)

  function Min(a: int, b: int): int { if a <= b then a else b }
  function Max(a: int, b: int): int { if a <= b then b else a }
  function Abs(a: int): nat { if a < 0 then -a else a }

  /** n/d rounded to the nearest integer, ties upwards, over unbounded integers. */
  function HalfUp(n: nat, d: nat): (r: nat)
    requires d > 0
    ensures 2 * d * r - d <= 2 * n < 2 * d * r + d
  {
    var x, y := 2 * n + d, 2 * d;
    assert x == y * (x / y) + x % y;
    x / y
  }

  /** n/d rounded to the nearest integer, ties away from zero. */
  function HalfAway(n: int, d: nat): (r: int)
    requires d > 0
  {
    var magnitude: int := HalfUp(Abs(n), d);
    if n < 0 then -magnitude else magnitude
  }

  /** The bracket in HalfUp's contract has one solution. */
  lemma HalfUpUnique(n: nat, d: nat, r: int)
    requires d > 0 && 2 * d * r - d <= 2 * n < 2 * d * r + d
    ensures r == HalfUp(n, d)
  {
    var h := HalfUp(n, d);
    assert r < h ==> 2 * d * (r + 1) <= 2 * d * h;
    assert h < r ==> 2 * d * (h + 1) <= 2 * d * r;
  }

  lemma HalfUpMonotone(n: nat, m: nat, d: nat)
    requires d > 0 && n <= m
    ensures HalfUp(n, d) <= HalfUp(m, d)
  {
    var a: int, b: int := HalfUp(n, d), HalfUp(m, d);
    assert b < a ==> 2 * d * (b + 1) <= 2 * d * a;
  }

  /** A quotient and remainder give the same rounding as the whole. */
  lemma HalfUpFromParts(q: nat, r: nat, d: nat)
    requires 0 <= r < d
    ensures HalfUp(d * q + r, d) == if 2 * r >= d then q + 1 else q
  {
    var n := d * q + r;
    if 2 * r >= d {
      assert 2 * d * (q + 1) == 2 * d * q + 2 * d;
      HalfUpUnique(n, d, q + 1);
    } else {
      HalfUpUnique(n, d, q);
    }
  }

  lemma MulMonotone(a: nat, b: nat, c: nat)
    requires a <= b
    ensures a * c <= b * c
  {
  }

  /** The overflow test `a > limit / b` is exactly `a * b > limit`. */
  lemma QuotientGuard(a: nat, b: nat, limit: nat)
    requires b > 0
    ensures a > limit / b <==> a * b > limit
  {
    var q := limit / b;
    assert limit == b * q + limit % b;
    if a > q {
      MulMonotone(q + 1, a, b);
    } else {
      MulMonotone(a, q, b);
    }
  }
}
