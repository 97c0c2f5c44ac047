/**
 Row-major indexing of a cubic volume of side `d` stored as a flat sequence of
 `d * d * d` voxels: coordinate (c0, c1, c2) lives at offset (c0 * d + c1) * d + c2,
 axis 0 varying slowest, as in a C-ordered numpy array.
 */
module Cube {

  /** A coordinate of three axis positions, each inside a cube of side `d`. */
  predicate InCube(d: nat, c: seq<nat>)
  {
    |c| == 3 && c[0] < d && c[1] < d && c[2] < d
  }

  function Offset(d: nat, c: seq<nat>): (k: nat)
    requires InCube(d, c)
    ensures k < d * d * d
  {
    DigitBound(c[0], c[1], d, d);
    DigitBound(c[0] * d + c[1], c[2], d * d, d);
    (c[0] * d + c[1]) * d + c[2]
  }

  function CoordOf(d: nat, k: nat): (c: seq<nat>)
    requires d > 0
    ensures |c| == 3
  {
    [k / d / d, k / d % d, k % d]
  }

  lemma MulMonotone(a: int, b: int, d: nat)
    requires a <= b
    ensures a * d <= b * d
  {
    assert b * d - a * d == (b - a) * d;
  }

  /** One more digit in base `d` stays below the next power. */
  lemma DigitBound(hi: nat, lo: nat, m: nat, d: nat)
    requires hi < m && lo < d
    ensures hi * d + lo < m * d
  {
    MulMonotone(hi + 1, m, d);
  }

  lemma DivModDigit(hi: int, lo: int, d: int)
    requires d > 0 && 0 <= lo < d
    ensures (hi * d + lo) / d == hi
    ensures (hi * d + lo) % d == lo
  {
    var x := hi * d + lo;
    var q, r := x / d, x % d;
    assert x == q * d + r;
    if q > hi {
      MulMonotone(1, q - hi, d);
      assert false;
    }
    if q < hi {
      MulMonotone(1, hi - q, d);
      assert false;
    }
  }

  lemma DivBelow(k: nat, m: nat, d: nat)
    requires d > 0 && k < m * d
    ensures k / d < m
  {
    if k / d >= m {
      MulMonotone(m, k / d, d);
      assert false;
    }
  }

  lemma CoordOfInCube(d: nat, k: nat)
    requires k < d * d * d
    ensures d > 0 && InCube(d, CoordOf(d, k))
  {
    if d == 0 {
      assert false;
    }
    DivBelow(k, d * d, d);
    DivBelow(k / d, d, d);
  }

  lemma OffsetOfCoord(d: nat, k: nat)
    requires k < d * d * d
    ensures d > 0 && InCube(d, CoordOf(d, k)) && Offset(d, CoordOf(d, k)) == k
  {
    CoordOfInCube(d, k);
    assert k / d == (k / d / d) * d + k / d % d;
    assert k == (k / d) * d + k % d;
  }

  lemma CoordOfOffset(d: nat, c: seq<nat>)
    requires d > 0 && InCube(d, c)
    ensures CoordOf(d, Offset(d, c)) == c
  {
    var k := Offset(d, c);
    DivModDigit(c[0] * d + c[1], c[2], d);
    DivModDigit(c[0], c[1], d);
    assert CoordOf(d, k) == [c[0], c[1], c[2]];
  }

  /** Offsets name coordinates one-to-one. */
  lemma OffsetInjective(d: nat, c: seq<nat>, c': seq<nat>)
    requires InCube(d, c) && InCube(d, c')
    requires Offset(d, c) == Offset(d, c')
    ensures c == c'
  {
    CoordOfOffset(d, c);
    CoordOfOffset(d, c');
  }
}
