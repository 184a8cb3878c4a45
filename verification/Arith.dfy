/** Facts about multiplication and division by a variable divisor. */
module Arith {

  lemma DivUnique(x: nat, q: nat, d: nat)
    requires d > 0 && q * d <= x < (q + 1) * d
    ensures x / d == q
  {
    var k := x / d;
    assert k * d <= x < k * d + d;
    if k < q {
      MulMono(k + 1, q, d);
    } else if k > q {
      MulMono(q + 1, k, d);
    }
  }

  lemma MulMono(a: nat, b: nat, c: nat)
    requires a <= b
    ensures a * c <= b * c
  {
    assert b * c == a * c + (b - a) * c;
  }

  lemma DivBounds(x: nat, d: nat)
    requires d > 0
    ensures x / d * d <= x < (x / d + 1) * d
  {
    assert x == x / d * d + x % d;
  }

  lemma DivMono(a: nat, b: nat, d: nat)
    requires d > 0 && a <= b
    ensures a / d <= b / d
  {
    DivBounds(a, d);
    DivBounds(b, d);
    if a / d > b / d {
      MulMono(b / d + 1, a / d, d);
    }
  }

  lemma DivMul(q: nat, d: nat)
    requires d > 0
    ensures q * d / d == q
  {
    DivUnique(q * d, q, d);
  }

  /** Moving back by at most the divisor moves back at most one quotient. */
  lemma DivBackOne(a: nat, b: nat, d: nat)
    requires d > 0 && a + d >= b
    ensures a / d + 1 >= b / d
  {
    DivMono(b, a + d, d);
    DivBounds(a, d);
    assert (a / d + 1) * d == a / d * d + d && (a / d + 2) * d == (a / d + 1) * d + d;
    DivUnique(a + d, a / d + 1, d);
  }

  /** A share `a / d` of `span`, with `a <= d`, is at most the whole. */
  lemma ShareBound(a: nat, span: nat, d: nat)
    requires d > 0 && a <= d
    ensures 0 <= a * span / d <= span
  {
    MulMono(a, d, span);
    assert d * span == span * d;
    DivMono(a * span, span * d, d);
    DivMul(span, d);
    DivBounds(a * span, d);
  }
}
