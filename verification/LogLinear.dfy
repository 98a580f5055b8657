/** The bucket arithmetic of the load generator's histogram (bench/load/main.go). */
module LogLinear {
  import opened Arith

  const WORD: nat := 0x1_0000_0000_0000_0000

  function Pow2(k: nat): (r: nat)
    ensures r >= 1
  {
    if k == 0 then 1 else 2 * Pow2(k - 1)
  }

  /** `bits.Len64`. */
  function Len(n: nat): nat {
    if n == 0 then 0 else 1 + Len(n / 2)
  }

  function Shift(ns: nat): nat {
    if Len(ns) > 8 then Len(ns) - 8 else 0
  }

  function Quotient(n: nat, d: nat): nat
    requires d > 0
  {
    n / d
  }

  /** The bucket of a sample: 128 per power of two. */
  function Index(ns: nat): nat {
    Shift(ns) * 128 + Quotient(ns, Pow2(Shift(ns)))
  }

  /** The bound `quantile` reports for a bucket, in wrapping 64-bit arithmetic. */
  function Upper(index: nat): nat {
    if index < 128 then index
    else ((129 + index % 128) * Pow2(index / 128 - 1) % WORD + WORD - 1) % WORD
  }

  lemma {:induction false} LenBounds(n: nat)
    requires n > 0
    ensures Len(n) >= 1 && Pow2(Len(n) - 1) <= n < Pow2(Len(n))
  {
    if n > 1 { LenBounds(n / 2); }
  }

  lemma {:induction false} Pow2Monotone(a: nat, b: nat)
    requires a <= b
    ensures Pow2(a) <= Pow2(b)
  {
    if a < b { Pow2Monotone(a, b - 1); }
  }

  lemma {:induction false} Pow2Shift(k: nat)
    ensures Pow2(k + 7) == 128 * Pow2(k) && Pow2(k + 8) == 256 * Pow2(k)
  {
    assert Pow2(k + 4) == 2 * Pow2(k + 3) == 4 * Pow2(k + 2) == 8 * Pow2(k + 1) == 16 * Pow2(k);
    assert Pow2(k + 8) == 2 * Pow2(k + 7) == 4 * Pow2(k + 6) == 8 * Pow2(k + 5) == 16 * Pow2(k + 4);
  }

  lemma WordIsPow2()
    ensures Pow2(64) == WORD
  {
    Pow2Shift(0); Pow2Shift(8); Pow2Shift(16); Pow2Shift(24);
    Pow2Shift(32); Pow2Shift(40); Pow2Shift(48); Pow2Shift(56);
  }

  lemma {:induction false} LenMonotone(x: nat, y: nat)
    requires x <= y
    ensures Len(x) <= Len(y)
  {
    if x > 0 { LenMonotone(x / 2, y / 2); }
  }

  lemma LenOfWord(n: nat)
    requires n < WORD
    ensures Len(n) <= 64 && Shift(n) <= 56
  {
    WordIsPow2();
    if Len(n) > 64 {
      LenBounds(n);
      Pow2Monotone(64, Len(n) - 1);
    }
  }

  /** The leading part of a sample: below 256 the sample itself, else eight significant bits. */
  lemma Mantissa(ns: nat)
    ensures var q := ns / Pow2(Shift(ns)); q < 256 && (Shift(ns) > 0 ==> q >= 128)
    ensures Shift(ns) == 0 ==> ns < 256 && Index(ns) == ns
  {
    var k := Shift(ns);
    if k > 0 {
      LenBounds(ns);
      Pow2Shift(k);
      DivRange(ns, Pow2(k), 128, 256);
    } else if ns > 0 {
      LenBounds(ns);
      Pow2Monotone(Len(ns), 8);
      Pow2Shift(0);
    }
  }

  lemma IndexMonotone(x: nat, y: nat)
    requires x <= y
    ensures Index(x) <= Index(y)
  {
    LenMonotone(x, y);
    Mantissa(x);
    Mantissa(y);
    if Shift(x) == Shift(y) {
      DivMonotone(x, y, Pow2(Shift(x)));
    }
  }

  /** Every 64-bit sample lands in one of the first 58 of the 64 groups. */
  lemma IndexInRange(ns: nat)
    requires ns < WORD
    ensures Index(ns) < 58 * 128
  {
    LenOfWord(ns);
    Mantissa(ns);
  }

  /** The scan's group and offset give back the sample's shift and mantissa. */
  lemma IndexParts(ns: nat)
    requires Index(ns) >= 128
    ensures Index(ns) / 128 - 1 == Shift(ns)
    ensures 128 + Index(ns) % 128 == ns / Pow2(Shift(ns))
  {
    Mantissa(ns);
  }

  /**
   The reported bound: at least the sample, above it by less than one part in 128, exact below
   256 ns.  The wrap of the top bucket still gives 2^64 - 1.
   */
  lemma UpperBound(ns: nat)
    requires ns < WORD
    ensures ns <= Upper(Index(ns)) < WORD
    ensures 128 * (Upper(Index(ns)) - ns) <= ns
    ensures ns < 256 ==> Upper(Index(ns)) == ns
  {
    Mantissa(ns);
    if Index(ns) >= 128 {
      var p := Pow2(Shift(ns));
      var q := ns / p;
      IndexParts(ns);
      DivBounds(ns, p);
      ScaleFits(ns);
      MulMonotone(q + 1, 256, p);
      WrappedTop((q + 1) * p);
      BucketWidth(ns, q, p);
      if ns < 256 { SmallHasNoShift(ns); }
    }
  }

  /** Shifting past the word and subtracting one still gives the bucket's last value. */
  lemma WrappedTop(top: nat)
    requires 1 <= top <= WORD
    ensures (top % WORD + WORD - 1) % WORD == top - 1
  {
  }

  /** A bucket with mantissa `q` at scale `p` is less than one part in 128 wide. */
  lemma BucketWidth(ns: nat, q: nat, p: nat)
    requires q >= 128 && q * p <= ns < (q + 1) * p
    ensures 128 * ((q + 1) * p - 1 - ns) <= ns
    ensures p == 1 ==> (q + 1) * p - 1 == ns
  {
    assert (q + 1) * p == q * p + p;
    MulMonotone(128, q, p);
  }

  lemma SmallHasNoShift(ns: nat)
    requires ns < 256
    ensures Shift(ns) == 0
  {
    Pow2Shift(0);
    if Shift(ns) > 0 {
      LenBounds(ns);
      Pow2Monotone(8, Len(ns) - 1);
    }
  }

  lemma ScaleFits(ns: nat)
    requires ns < WORD
    ensures 256 * Pow2(Shift(ns)) <= WORD
  {
    LenOfWord(ns);
    WordIsPow2();
    Pow2Shift(Shift(ns));
    Pow2Monotone(Shift(ns) + 8, 64);
  }
}
