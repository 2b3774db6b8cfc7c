/** Arithmetic shared by the calculators: the JavaScript `Math.pow`, `Math.round`,
    `Math.max` and `Math.min` that the source uses, over exact reals. */
module Numeric {

  /** `Math.pow(x, n)` for a natural exponent. */
  function Pow(x: real, n: nat): (r: real)
    ensures x > 0.0 ==> r > 0.0
    ensures x != 0.0 ==> r != 0.0
    ensures x >= 1.0 ==> r >= 1.0
    ensures x > 1.0 && n > 0 ==> r > 1.0
  {
    if n == 0 then 1.0 else x * Pow(x, n - 1)
  }

  /** `Math.pow(x, e)` for an integer exponent: a negative exponent is the
      reciprocal of the positive power. */
  function PowInt(x: real, e: int): (r: real)
    requires e < 0 ==> x != 0.0
    ensures x > 0.0 ==> r > 0.0
    ensures e < 0 ==> r * Pow(x, -e) == 1.0
  {
    if e >= 0 then Pow(x, e) else 1.0 / Pow(x, -e)
  }

  /** `Math.max(a, b)` */
  function Max(a: real, b: real): (r: real)
    ensures r >= a && r >= b
    ensures r == a || r == b
  {
    if a >= b then a else b
  }

  /** `Math.min(a, b)` */
  function Min(a: real, b: real): (r: real)
    ensures r <= a && r <= b
    ensures r == a || r == b
  {
    if a <= b then a else b
  }

  /** `Math.round(x)`: the nearest integer, halves rounded toward +infinity. */
  function Round(x: real): (r: int)
    ensures x - 0.5 < r as real <= x + 0.5
  {
    (x + 0.5).Floor
  }

  // Field identities, each stated over plain reals so that the solver meets
  // one nonlinear step at a time.

  lemma DivCancel(a: real, b: real, d: real)
    requires d != 0.0 && a == b * d
    ensures a / d == b
  {
  }

  lemma MulCancel(a: real, b: real, c: real)
    requires c != 0.0 && a * c == b * c
    ensures a == b
  {
  }

  lemma MulEqCancel(a: real, x: real, b: real, d: real)
    requires d != 0.0 && a * d == x && x == b * d
    ensures a == b
  {
  }

  /** One more period of compounding multiplies the amount by the factor. */
  lemma CompoundStep(a: real, g: real, n: nat)
    ensures a * Pow(g, n + 1) == (a * Pow(g, n)) * g
  {
    var p := Pow(g, n);
    assert Pow(g, n + 1) == g * p;
    assert a * (g * p) == (a * p) * g;
  }

  lemma DivMul(a: real, d: real)
    requires d != 0.0
    ensures (a / d) * d == a
  {
  }
}
