/** Small numeric helpers shared by the light baker: JavaScript's Math.floor,
    Math.ceil and Math.round on exact reals, and min/max/abs. */
module Numeric {

  function Min(a: real, b: real): real { if a <= b then a else b }

  function Max(a: real, b: real): real { if a <= b then b else a }

  function MinInt(a: int, b: int): int { if a <= b then a else b }

  function MaxInt(a: int, b: int): int { if a <= b then b else a }

  function Abs(a: int): nat { if a < 0 then -a else a }

  /** n is the floor of v. */
  predicate FloorOf(v: real, n: int) { n as real <= v < n as real + 1.0 }

  /** n is the ceiling of v. */
  predicate CeilOf(v: real, n: int) { v <= n as real < v + 1.0 }

  /** n is v rounded, halves going up. */
  predicate RoundOf(v: real, n: int) { v - 0.5 < n as real <= v + 0.5 }

  /** Math.floor: the greatest integer not above x. */
  function Floor(x: real): (r: int)
    ensures FloorOf(x, r)
  {
    x.Floor
  }

  /** Math.ceil: the least integer not below x. */
  function Ceil(x: real): (r: int)
    ensures CeilOf(x, r)
  {
    -((-x).Floor)
  }

  /** Math.round: the nearest integer, with halves going toward +infinity
      (so Round(2.5) == 3 and Round(-2.5) == -2). */
  function Round(x: real): (r: int)
    ensures RoundOf(x, r)
  {
    (x + 0.5).Floor
  }

  /** A real that is a whole number. */
  predicate IsWhole(x: real) {
    x == x.Floor as real
  }

  /** Whole numbers are closed under integer shifts, and every integer is one. */
  lemma WholeShift(x: real, c: int)
    requires IsWhole(x)
    ensures IsWhole(x - c as real)
  {
    var k := x.Floor;
    assert x - c as real == (k - c) as real;
  }

  /** Rounding a whole number gives it back unchanged. */
  lemma RoundWhole(x: real)
    requires IsWhole(x)
    ensures Round(x) as real == x
  {
    var k := x.Floor;
    var r := Round(x);
    assert k as real - 0.5 < r as real <= k as real + 0.5;
    assert k - 1 < r < k + 1;
  }
}
