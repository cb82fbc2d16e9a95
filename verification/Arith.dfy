/** Division facts the solver needs spelled out. */
module Arith {

  lemma MulLower(d: nat, k: int)
    requires k >= 1
    ensures d * k >= d
  {
  }

  /** The quotient and remainder are determined by x == q * d + r with 0 <= r < d. */
  lemma DivUnique(x: int, d: int, q: int, r: int)
    requires d > 0 && 0 <= r < d && x == q * d + r
    ensures x / d == q && x % d == r
  {
    var q2, r2 := x / d, x % d;
    assert x == d * q2 + r2;
    assert d * (q - q2) == r2 - r && d * (q2 - q) == r - r2;
    if q > q2 {
      MulLower(d, q - q2);
      assert false;
    } else if q < q2 {
      MulLower(d, q2 - q);
      assert false;
    }
  }

  lemma MulMod(q: int, d: int)
    requires d > 0
    ensures q * d % d == 0 && q * d / d == q
  {
    DivUnique(q * d, d, q, 0);
  }

  lemma DivMulBounds(x: int, d: int)
    requires d > 0
    ensures x / d * d <= x < x / d * d + d
  {
    assert x == d * (x / d) + x % d;
  }

  lemma MulMono(a: nat, x: int, y: int)
    requires x <= y
    ensures a * x <= a * y && x * a <= y * a
  {
  }

  lemma DivMono(x: int, y: int, d: int)
    requires d > 0 && x <= y
    ensures x / d <= y / d
  {
    DivMulBounds(x, d);
    DivLower(y, d, x / d);
  }

  lemma DivLower(x: int, d: int, q: int)
    requires d > 0 && q * d <= x
    ensures q <= x / d
  {
    DivMulBounds(x, d);
    assert (x / d + 1) * d == x / d * d + d;
    if q > x / d {
      MulMono(d, x / d + 1, q);
      assert false;
    }
  }

  lemma FloorSum(a: nat, b: nat, d: nat)
    requires d > 0
    ensures a / d + b / d <= (a + b) / d
  {
    DivMulBounds(a, d);
    DivMulBounds(b, d);
    assert (a / d + b / d) * d == a / d * d + b / d * d;
    DivLower(a + b, d, a / d + b / d);
  }

  lemma OneMore(k: int, d: int)
    ensures (k + 1) * d == k * d + d
  {
  }
}
