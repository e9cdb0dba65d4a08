/** JavaScript's `Math.round` and `Math.max` over exact reals, and the
    one-decimal rounding `Math.round(x * 10) / 10` built from them. */
module JsMath {

  /** `Math.round(x)`: the floor of x + 1/2, so halves go up. */
  function MathRound(x: real): (r: int)
    ensures x - 0.5 < r as real <= x + 0.5
  {
    (x + 0.5).Floor
  }

  /** `Math.round` never reverses an order. */
  lemma MathRoundMonotone(x: real, y: real)
    requires x <= y
    ensures MathRound(x) <= MathRound(y)
  {
    var a, b := x + 0.5, y + 0.5;
    assert a.Floor as real <= a <= b < b.Floor as real + 1.0;
  }

  /** `Math.max(a, b)` */
  function Max(a: real, b: real): (r: real)
    ensures r >= a && r >= b && (r == a || r == b)
  {
    if a >= b then a else b
  }

  /** A multiple of 0.1. */
  predicate IsTenth(x: real)
  {
    (x * 10.0).Floor as real == x * 10.0
  }

  /** `Math.round(x * 10) / 10`: `Math.round` takes the floor of x + 1/2,
      so halves go up (towards positive infinity). */
  function RoundTenth(x: real): (r: real)
    ensures IsTenth(r)
    ensures x - 0.05 < r <= x + 0.05
  {
    (MathRound(x * 10.0) as real) / 10.0
  }

  /** The two conditions of RoundTenth's contract single out its result:
      there is exactly one multiple of 0.1 in (x - 0.05, x + 0.05]. */
  lemma RoundTenthUnique(x: real, y: real)
    requires IsTenth(y) && x - 0.05 < y <= x + 0.05
    ensures y == RoundTenth(x)
  {
    var r := RoundTenth(x);
    var a, b := (y * 10.0).Floor, (r * 10.0).Floor;
    assert a as real == y * 10.0 && b as real == r * 10.0;
    assert -1.0 < (a - b) as real < 1.0;
  }

  /** Rounding never reverses an order. */
  lemma RoundTenthMonotone(x: real, y: real)
    requires x <= y
    ensures RoundTenth(x) <= RoundTenth(y)
  {
    MathRoundMonotone(x * 10.0, y * 10.0);
  }

  /** Rounding a non-negative number gives a non-negative number. */
  lemma RoundTenthNonNegative(x: real)
    requires x >= 0.0
    ensures RoundTenth(x) >= 0.0
  {
    RoundTenthMonotone(0.0, x);
    RoundTenthUnique(0.0, 0.0);
  }
}
