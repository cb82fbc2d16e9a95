/** Numbers in positional notation, most significant digit first. */
module Positional {
  import opened Common
  import Arith

  function Pow(b: nat, e: nat): (p: nat)
    ensures b > 0 ==> p > 0
  {
    if e == 0 then 1 else
      Arith.MulMono(b, 0, Pow(b, e - 1));
      b * Pow(b, e - 1)
  }

  /** The number with these digits. */
  function Num(d: seq<nat>, base: nat): nat {
    if d == [] then 0 else
      Arith.MulMono(base, 0, Num(d[..|d| - 1], base));
      Num(d[..|d| - 1], base) * base + d[|d| - 1]
  }

  /** Digit `i` of the `k`-digit notation: shift right, then mask. */
  function Digit(n: nat, base: nat, k: nat, i: nat): nat
    requires base > 0 && i < k
  {
    n / Pow(base, k - 1 - i) % base
  }

  function Digits(n: nat, base: nat, k: nat): (d: seq<nat>)
    requires base > 0
    ensures |d| == k && forall i :: 0 <= i < k ==> d[i] == Digit(n, base, k, i)
  {
    seq(k, i requires 0 <= i < k => Digit(n, base, k, i))
  }

  predicate Below(d: seq<nat>, base: nat) { forall i :: 0 <= i < |d| ==> d[i] < base }

  lemma {:induction false} PowAdd(b: nat, i: nat, j: nat)
    ensures Pow(b, i + j) == Pow(b, i) * Pow(b, j)
  {
    if i > 0 {
      PowAdd(b, i - 1, j);
      assert i + j - 1 == i - 1 + j;
      MulAssoc(b, Pow(b, i - 1), Pow(b, j));
    }
  }

  lemma MulAssoc(a: nat, b: nat, c: nat)
    ensures a * (b * c) == (a * b) * c
  {
  }

  lemma {:induction false} PowPow(b: nat, i: nat, j: nat)
    ensures i * j >= 0 && Pow(Pow(b, i), j) == Pow(b, i * j)
  {
    Arith.MulMono(i, 0, j);
    if j > 0 {
      PowPow(b, i, j - 1);
      Arith.OneMore(j - 1, i);
      assert i * j == i + i * (j - 1);
      PowAdd(b, i, i * (j - 1));
    }
  }

  /** Dividing twice is dividing by the product. */
  lemma DivDiv(n: nat, a: nat, b: nat)
    requires a > 0 && b > 0
    ensures a * b > 0 && n / a / b == n / (a * b)
  {
    Arith.MulMono(a, 1, b);
    var q, r := n / a, n % a;
    var q2, r2 := q / b, q % b;
    Recompose(n, a, b, q, r, q2, r2);
    Arith.DivUnique(n, a * b, q2, a * r2 + r);
  }

  lemma Recompose(n: nat, a: nat, b: nat, q: int, r: int, q2: int, r2: int)
    requires a > 0 && b > 0 && n == q * a + r && 0 <= r < a && q == q2 * b + r2 && 0 <= r2 < b
    ensures n == q2 * (a * b) + (a * r2 + r) && 0 <= a * r2 + r < a * b
  {
    assert q * a == (q2 * b) * a + r2 * a;
    assert (q2 * b) * a == q2 * (a * b);
    Arith.MulMono(a, 0, r2);
    Arith.MulMono(a, r2 + 1, b);
    assert a * (r2 + 1) == a * r2 + a;
  }

  /** All but the last digit are the digits of the number without it. */
  lemma DigitsPrefix(n: nat, base: nat, k: nat)
    requires base > 0 && k > 0
    ensures Digits(n, base, k) == Digits(n / base, base, k - 1) + [n % base]
  {
    var d, e := Digits(n, base, k), Digits(n / base, base, k - 1) + [n % base];
    forall i | 0 <= i < k ensures d[i] == e[i] {
      if i < k - 1 {
        assert Pow(base, k - 1 - i) == base * Pow(base, k - 2 - i);
        DivDiv(n, base, Pow(base, k - 2 - i));
      } else {
        assert Pow(base, 0) == 1;
      }
    }
  }

  lemma HeadFits(n: nat, base: nat, p: nat)
    requires base > 0 && n < base * p
    ensures n / base < p && n == n / base * base + n % base
  {
    Arith.DivMulBounds(n, base);
    Arith.MulMono(base, p, Max(p, n / base));
  }

  lemma NumSnoc(d: seq<nat>, x: nat, base: nat)
    ensures Num(d, base) * base >= 0 && Num(d + [x], base) == Num(d, base) * base + x
  {
    Arith.MulMono(base, 0, Num(d, base));
    assert (d + [x])[..|d|] == d;
  }

  /** Reading back the digits of a number that fits gives the number. */
  lemma {:induction false} NumOfDigits(n: nat, base: nat, k: nat)
    requires base > 0 && n < Pow(base, k)
    ensures Num(Digits(n, base, k), base) == n
    decreases k
  {
    if k > 0 {
      var head, last := n / base, n % base;
      HeadFits(n, base, Pow(base, k - 1));
      NumOfDigits(head, base, k - 1);
      DigitsPrefix(n, base, k);
      var d := Digits(head, base, k - 1);
      assert Digits(n, base, k) == d + [last];
      NumSnoc(d, last, base);
    }
  }

  /** Digits that fit their base are recovered from their number, which fits too. */
  lemma {:induction false} DigitsOfNum(d: seq<nat>, base: nat)
    requires base > 0 && Below(d, base)
    ensures Digits(Num(d, base), base, |d|) == d && Num(d, base) < Pow(base, |d|)
  {
    if d != [] {
      var head, last := d[..|d| - 1], d[|d| - 1];
      DigitsOfNum(head, base);
      var n := Num(d, base);
      Arith.DivUnique(n, base, Num(head, base), last);
      DigitsPrefix(n, base, |d|);
      Arith.MulMono(base, Num(head, base) + 1, Pow(base, |head|));
      Arith.OneMore(Num(head, base), base);
      assert d == head + [last];
    }
  }

  lemma DigitsBelow(n: nat, base: nat, k: nat)
    requires base > 0
    ensures Below(Digits(n, base, k), base)
  {
  }
}
