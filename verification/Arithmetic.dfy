/** Comparing fractions over exact numbers. */
module Arithmetic {
  lemma SameSign(x: real, c: real)
    requires c > 0.0
    ensures x > 0.0 <==> x * c > 0.0
  {
  }

  lemma Factored(x: real, y: real, a: real, b: real)
    ensures (x * a) * b - (y * b) * a == (x - y) * (a * b)
  {
  }

  /** Fractions compare as their cross products. */
  lemma CrossMultiply(p: real, a: real, q: real, b: real)
    requires a > 0.0 && b > 0.0
    ensures p / a > q / b <==> p * b > q * a
  {
    var x, y := p / a, q / b;
    assert x * a == p && y * b == q;
    Factored(x, y, a, b);
    SameSign(a, b);
    SameSign(x - y, a * b);
  }
}
