/** Division rounded up, as `div_ceil` does it. */
module Rounding {
  function DivCeil(n: nat, d: nat): nat
    requires d > 0
  {
    (n + d - 1) / d
  }

  lemma MulMono(a: nat, b: nat, n: nat)
    requires a <= b
    ensures a * n <= b * n
  {
    assert b * n == a * n + (b - a) * n;
  }

  lemma QuotientIs(m: nat, n: nat, q: nat)
    requires n > 0 && q * n <= m < q * n + n
    ensures m / n == q
  {
    var r := m / n;
    assert r * n <= m < r * n + n;
    if r < q {
      MulMono(r + 1, q, n);
    } else if q < r {
      MulMono(q + 1, r, n);
    }
  }

  lemma DivCeilBounds(m: nat, n: nat)
    requires n > 0
    ensures DivCeil(m, n) * n <= m + n - 1 < DivCeil(m, n) * n + n
  {}

  lemma DivCeilStep(m: nat, n: nat)
    requires m > n > 0
    ensures DivCeil(m, n) == 1 + DivCeil(m - n, n)
  {
    var q := DivCeil(m - n, n);
    DivCeilBounds(m - n, n);
    assert (q + 1) * n == q * n + n;
    QuotientIs(m + n - 1, n, q + 1);
  }

  /** DivCeil is the least count of size-`n` boxes that hold `m`. */
  lemma DivCeilLeast(m: nat, n: nat, k: nat)
    requires n > 0
    ensures DivCeil(m, n) <= k <==> m <= n * k
  {
    hide DivCeil;
    var q := DivCeil(m, n);
    DivCeilBounds(m, n);
    if q <= k {
      MulMono(q, k, n);
    } else {
      MulMono(k + 1, q, n);
      assert (k + 1) * n == k * n + n;
    }
    assert n * k == k * n;
  }

  lemma DivCeilOne(n: nat, d: nat)
    requires 1 <= n <= d
    ensures DivCeil(n, d) == 1
  {
    QuotientIs(n + d - 1, d, 1);
  }

  lemma DivCeilHalves(n: nat, d: nat)
    requires d > 0
    ensures DivCeil(n, 2 * d) == (DivCeil(n, d) + 1) / 2
  {
    var q := DivCeil(n, d);
    var s := (q + 1) / 2;
    DivCeilBounds(n, d);
    hide DivCeil;
    var a := s * d;
    assert q * d == (if q == 2 * s then 2 * a else 2 * a - d) by {
      assert q == 2 * s || q == 2 * s - 1;
      assert 2 * s * d == 2 * a && (2 * s - 1) * d == 2 * a - d;
    }
    assert s * (2 * d) == 2 * a;
    DivCeilHalf(n, d, s);
  }

  lemma DivCeilHalf(n: nat, d: nat, s: nat)
    requires d > 0 && s * (2 * d) <= n + 2 * d - 1 < s * (2 * d) + 2 * d
    ensures DivCeil(n, 2 * d) == s
  {
    QuotientIs(n + 2 * d - 1, 2 * d, s);
  }
}
