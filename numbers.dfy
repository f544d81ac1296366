/** Arithmetic shared by both calculators: JavaScript's Math.round, Math.min,
    Math.max and the "(1 + x / 100)" multiplier every stat is turned into. */
module Numbers {

  /** Math.round on an exact real: the nearest integer, a half rounded up
      (towards positive infinity, as in JavaScript). */
  function Round(x: real): (r: int)
    ensures r as real - 0.5 <= x < r as real + 0.5
  {
    (x + 0.5).Floor
  }

  /** The multiplier a percentage bonus stands for. */
  function Factor(percent: real): real
  {
    1.0 + percent / 100.0
  }

  function Min(a: real, b: real): (r: real)
    ensures r <= a && r <= b && (r == a || r == b)
  {
    if a <= b then a else b
  }

  function Max(a: real, b: real): (r: real)
    ensures r >= a && r >= b && (r == a || r == b)
  {
    if a >= b then a else b
  }

  /** Rounding gives back every integer and never reverses an order. */
  lemma RoundProperties(n: int, x: real, y: real)
    ensures Round(n as real) == n
    ensures x <= y ==> Round(x) <= Round(y)
  {
  }

  /** Two bonus factors applied one after the other exceed the single factor of
      the summed bonus by exactly the product term a * b / 10000. */
  lemma {:induction false} FactorsCompound(a: real, b: real)
    ensures Factor(a) * Factor(b) == Factor(a + b) + a * b / 10000.0
  {
    calc {
      Factor(a) * Factor(b);
      (1.0 + a / 100.0) * (1.0 + b / 100.0);
      1.0 + a / 100.0 + b / 100.0 + (a / 100.0) * (b / 100.0);
      { assert (a / 100.0) * (b / 100.0) == a * b / 10000.0; }
      Factor(a + b) + a * b / 10000.0;
    }
  }
}
