/** Facts about products and quotients of natural numbers. */
module Arith {

  lemma MulMonotone(a: nat, b: nat, d: nat)
    requires a <= b
    ensures a * d <= b * d
  {
  }

  lemma DivBounds(n: nat, d: nat)
    requires d > 0
    ensures n / d * d <= n < (n / d + 1) * d
  {
    assert n == n / d * d + n % d;
    assert (n / d + 1) * d == n / d * d + d;
  }

  /** A dividend between two multiples has its quotient between the factors. */
  lemma DivRange(n: nat, d: nat, lo: nat, hi: nat)
    requires d > 0 && lo * d <= n < hi * d
    ensures lo <= n / d < hi
  {
    DivBounds(n, d);
    if n / d < lo { MulMonotone(n / d + 1, lo, d); }
    if n / d >= hi { MulMonotone(hi, n / d, d); }
  }

  lemma DivMonotone(x: nat, y: nat, d: nat)
    requires d > 0 && x <= y
    ensures x / d <= y / d
  {
    DivBounds(x, d);
    DivBounds(y, d);
    if x / d > y / d { MulMonotone(y / d + 1, x / d, d); }
  }

  lemma DivUnique(n: nat, d: nat, q: nat, r: nat)
    requires d > 0 && n == q * d + r && r < d
    ensures n / d == q
  {
    assert (q + 1) * d == q * d + d;
    DivRange(n, d, q, q + 1);
  }

  lemma Distribute(a: nat, b: nat, d: nat)
    ensures (a + b) * d == a * d + b * d
  {
  }

  lemma SplitProduct(n: nat, d: nat, m: nat, q: nat, r: nat, k: nat, e: nat)
    requires n == q * d + r && r * m == k * d + e
    ensures n * m == (q * m + k) * d + e
  {
    Distribute(q * d, r, m);
    Distribute(q * m, k, d);
    assert q * d * m == q * m * d;
  }

  /** Splitting a dividend before multiplying keeps the quotient exact. */
  lemma DivSplit(n: nat, d: nat, m: nat)
    requires d > 0
    ensures n / d * m + n % d * m / d == n * m / d
  {
    DivMod(n, d);
    MulNat(n % d, m);
    DivMod(n % d * m, d);
    SplitQuotient(n, d, m, n / d, n % d, n % d * m / d, n % d * m % d);
  }

  lemma SplitQuotient(n: nat, d: nat, m: nat, q: nat, r: nat, k: nat, e: nat)
    requires d > 0 && n == q * d + r && r * m == k * d + e && e < d
    ensures q * m + k == n * m / d
  {
    SplitProduct(n, d, m, q, r, k, e);
    DivUnique(n * m, d, q * m + k, e);
  }

  lemma DivMod(n: nat, d: nat)
    requires d > 0
    ensures 0 <= n / d && 0 <= n % d < d && n == n / d * d + n % d
  {
  }

  lemma MulNat(a: nat, b: nat)
    ensures 0 <= a * b
  {
  }
}
