/** Scalar helpers shared by the particle environment and the PID controller:
    JavaScript's Math.min / Math.max / Math.round and the max-of-min clamp both
    classes use, over exact reals. */
module Numeric {

  function Min(a: real, b: real): (r: real)
    ensures r <= a && r <= b
    ensures r == a || r == b
  {
    if a < b then a else b
  }

  function Max(a: real, b: real): (r: real)
    ensures a <= r && b <= r
    ensures r == a || r == b
  {
    if a < b then b else a
  }

  function Abs(a: real): (r: real)
    ensures 0.0 <= r
    ensures r == a || r == -a
  {
    if a < 0.0 then -a else a
  }

  /** Math.max(Math.min(x, hi), lo): the lower bound wins when the bounds cross. */
  function Clamp(x: real, lo: real, hi: real): (r: real)
    ensures lo <= r
    ensures lo <= hi ==> r <= hi
    ensures lo <= x <= hi ==> r == x
    ensures x < lo ==> r == lo
    ensures lo <= hi < x ==> r == hi
    ensures hi < lo ==> r == lo
  {
    Max(Min(x, hi), lo)
  }

  /** Math.round: the nearest integer, halves rounded toward +infinity. */
  function Round(y: real): (n: int)
    ensures y - 0.5 < n as real <= y + 0.5
  {
    (y + 0.5).Floor
  }

  /** Any integer in the half-open window (y - 1/2, y + 1/2] is Math.round(y). */
  lemma RoundUnique(y: real, n: int)
    requires y - 0.5 < n as real <= y + 0.5
    ensures n == Round(y)
  {
    var m := Round(y);
    assert n as real - m as real < 1.0;
    assert m as real - n as real < 1.0;
  }

  /** Sign and order facts about products, stated once for the nonlinear steps. */
  lemma MulNonNegative(a: real, b: real)
    requires 0.0 <= a && 0.0 <= b
    ensures 0.0 <= a * b
  {
  }

  lemma MulPositive(a: real, b: real)
    requires 0.0 < a && 0.0 < b
    ensures 0.0 < a * b
  {
  }

  /** The sign of a product with a positive factor is the sign of the other. */
  lemma MulSign(a: real, b: real)
    requires 0.0 < b
    ensures 0.0 <= a ==> 0.0 <= a * b
    ensures 0.0 < a ==> 0.0 < a * b
  {
    if 0.0 < a {
      MulPositive(a, b);
    } else if 0.0 <= a {
      MulNonNegative(a, b);
    }
  }

  lemma MulMonotone(a: real, b: real, c: real)
    requires a <= b && 0.0 <= c
    ensures a * c <= b * c
  {
    MulNonNegative(b - a, c);
    assert (b - a) * c == b * c - a * c;
  }
}
