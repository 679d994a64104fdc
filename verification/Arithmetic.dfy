/** Facts about products, quotients and remainders, in steps the verifier can follow. */
module Arithmetic {

  lemma MulMinus(a: int, b: int, n: int)
    ensures (a - b) * n == a * n - b * n
  {
  }

  lemma MulAtLeast(k: int, n: int)
    requires k >= 1 && n >= 0
    ensures k * n >= n
  {
    MulMinus(k, 1, n);
    assert (k - 1) * n >= 0;
  }

  lemma DivMod(x: int, n: int)
    requires n > 0
    ensures x == (x / n) * n + x % n && 0 <= x % n < n
  {
  }

  /** A quotient and a remainder are what the division gives. */
  lemma DivModIs(x: int, q: int, r: int, n: int)
    requires 0 <= r < n && x == q * n + r
    ensures x / n == q && x % n == r
  {
    DivMod(x, n);
    var p := x / n;
    MulMinus(p, q, n);
    if p > q {
      MulAtLeast(p - q, n);
    } else if p < q {
      MulMinus(q, p, n);
      MulAtLeast(q - p, n);
    }
  }

  lemma ModPlusMultiple(x: int, k: int, n: int)
    requires n > 0
    ensures (x + k * n) % n == x % n
  {
    DivMod(x, n);
    assert (x / n + k) * n == (x / n) * n + k * n;
    DivModIs(x + k * n, x / n + k, x % n, n);
  }
}
