// Facts about products, quotients and powers of two.
module Arithmetic {
  function Pow2(n: nat): (p: int)
    ensures p >= 1
  {
    if n == 0 then 1 else 2 * Pow2(n - 1)
  }

  lemma {:induction false} Pow2Grows(a: nat, b: nat)
    requires a <= b
    ensures Pow2(a) <= Pow2(b)
    decreases b
  {
    if a < b {
      Pow2Grows(a, b - 1);
    }
  }

  lemma {:induction false} Pow2Splits(a: nat, b: nat)
    ensures Pow2(a + b) == Pow2(a) * Pow2(b)
    decreases a
  {
    if a > 0 {
      Pow2Splits(a - 1, b);
    }
  }

  lemma ScaledGrows(k: int, a: int, b: int)
    requires 0 <= k && a <= b
    ensures k * a <= k * b
  {
    assert k * (b - a) >= 0;
  }

  lemma QuotientIs(n: int, c: int, q: int, r: int)
    requires c > 0 && n == q * c + r && 0 <= r < c
    ensures n / c == q && n % c == r
  {
    var p := n / c;
    if p < q {
      ScaledGrows(c, p + 1, q);
    } else if p > q {
      ScaledGrows(c, q + 1, p);
    }
  }

  lemma QuotientsGrow(a: int, b: int, c: int)
    requires c > 0 && a <= b
    ensures a / c <= b / c && (b + c) / c == b / c + 1
  {
    var q, r := b / c, b % c;
    assert b + c == (q + 1) * c + r;
    QuotientIs(b + c, c, q + 1, r);
    if a / c > q {
      ScaledGrows(c, q + 1, a / c);
    }
  }
}
