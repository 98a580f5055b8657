/** The bucket boundaries of the LAN latency histogram: microseconds rounded up to three digits. */
module LanRounding {
  import Arith

  /** Nanoseconds to microseconds, rounded up. */
  function Micros(ns: nat): nat { (ns + 999) / 1000 }

  /** The first width among `w`, `10w`, `100w`, ... that leaves at most 1000 steps below `micros`. */
  function Width(micros: nat, w: nat): nat
    requires w >= 1
    decreases micros - w
  {
    if micros > 1000 * w then Width(micros, 10 * w) else w
  }

  /** The least multiple of `w` that is at least `micros`. */
  function Ceiling(micros: nat, w: nat): nat
    requires w >= 1
  {
    (micros + w - 1) / w * w
  }

  function RoundUp(ns: nat): nat {
    WidthBound(Micros(ns), 1);
    Ceiling(Micros(ns), Width(Micros(ns), 1))
  }

  /** The loop of `histogram` that finds one sample's boundary. */
  method Boundary(ns: nat) returns (r: nat)
    ensures r == RoundUp(ns)
  {
    var micros := (ns + 999) / 1000;
    var width := 1;
    while micros > 1000 * width
      invariant width >= 1 && Width(micros, width) == Width(micros, 1)
      decreases micros - width
    {
      width := width * 10;
    }
    r := (micros + width - 1) / width * width;
  }

  // ------------------------------------------------------------------- widths

  lemma {:induction false} WidthBound(micros: nat, w: nat)
    requires w >= 1 && (w == 1 || micros > 100 * w)
    ensures w <= Width(micros, w) && micros <= 1000 * Width(micros, w)
    ensures Width(micros, w) == 1 || micros > 100 * Width(micros, w)
    decreases micros - w
  {
    if micros > 1000 * w { WidthBound(micros, 10 * w); }
  }

  lemma {:induction false} WidthGrows(micros: nat, w: nat)
    requires w >= 1
    ensures Width(micros, w) >= w
    decreases micros - w
  {
    if micros > 1000 * w { WidthGrows(micros, 10 * w); }
  }

  /** More microseconds give the same width or one at least ten times as wide. */
  lemma {:induction false} WidthMonotone(a: nat, b: nat, w: nat)
    requires w >= 1 && a <= b
    ensures Width(a, w) == Width(b, w) || 10 * Width(a, w) <= Width(b, w)
    decreases a - w
  {
    if a > 1000 * w {
      WidthMonotone(a, b, 10 * w);
    } else if b > 1000 * w {
      WidthGrows(b, 10 * w);
    }
  }

  /** A width covers everything up to its thousandfold. */
  lemma {:induction false} WidthSame(a: nat, b: nat, w: nat)
    requires w >= 1 && a <= b <= 1000 * Width(a, w)
    ensures Width(b, w) == Width(a, w)
    decreases a - w
  {
    if a > 1000 * w { WidthSame(a, b, 10 * w); }
  }

  // ----------------------------------------------------------------- ceilings

  lemma CeilingBounds(m: nat, w: nat)
    requires w >= 1
    ensures m <= Ceiling(m, w) < m + w
  {
    Arith.DivBounds(m + w - 1, w);
    Arith.Distribute((m + w - 1) / w, 1, w);
  }

  lemma CeilingMonotone(a: nat, b: nat, w: nat)
    requires w >= 1 && a <= b
    ensures Ceiling(a, w) <= Ceiling(b, w)
  {
    Arith.DivMonotone(a + w - 1, b + w - 1, w);
    Arith.MulMonotone((a + w - 1) / w, (b + w - 1) / w, w);
  }

  lemma CeilingMultiple(k: nat, w: nat)
    requires w >= 1
    ensures 0 <= k * w && Ceiling(k * w, w) == k * w
  {
    Arith.MulNat(k, w);
    Arith.DivUnique(k * w + w - 1, w, k, w - 1);
  }

  /** A value that is a multiple bounds the ceiling of everything below it. */
  lemma CeilingLeast(m: nat, k: nat, w: nat)
    requires w >= 1 && m <= k * w
    ensures Ceiling(m, w) <= k * w
  {
    CeilingMultiple(k, w);
    CeilingMonotone(m, k * w, w);
  }

  // ------------------------------------------------------------ the round-up

  lemma MicrosMonotone(a: nat, b: nat)
    requires a <= b
    ensures Micros(a) <= Micros(b)
  {
  }

  /** Rounding goes up, by less than one percent of the microseconds. */
  lemma RoundUpError(ns: nat)
    ensures Micros(ns) <= RoundUp(ns)
    ensures RoundUp(ns) == Micros(ns) || 100 * (RoundUp(ns) - Micros(ns)) < Micros(ns)
    ensures Micros(ns) <= 1000 ==> RoundUp(ns) == Micros(ns)
  {
    WidthBound(Micros(ns), 1);
    CeilingBounds(Micros(ns), Width(Micros(ns), 1));
  }

  lemma RoundUpMonotone(a: nat, b: nat)
    requires a <= b
    ensures RoundUp(a) <= RoundUp(b)
  {
    MicrosMonotone(a, b);
    var m, k := Micros(a), Micros(b);
    WidthBound(m, 1);
    WidthBound(k, 1);
    WidthMonotone(m, k, 1);
    if Width(m, 1) == Width(k, 1) {
      CeilingMonotone(m, k, Width(m, 1));
    } else {
      CeilingLeast(m, 1000, Width(m, 1));
      CeilingBounds(k, Width(k, 1));
    }
  }

  /** A boundary is its own boundary. */
  lemma RoundUpIdempotent(ns: nat)
    ensures RoundUp(1000 * RoundUp(ns)) == RoundUp(ns)
  {
    var m := Micros(ns);
    var w := Width(m, 1);
    var r := RoundUp(ns);
    WidthBound(m, 1);
    CeilingBounds(m, w);
    CeilingLeast(m, 1000, w);
    WidthSame(m, r, 1);
    CeilingMultiple((m + w - 1) / w, w);
    assert Micros(1000 * r) == r;
  }

  const MAX_DURATION: nat := 0x7fff_ffff_ffff_ffff

  /** Nothing the loop computes for a sample leaves int64. */
  ghost predicate Fits(ns: nat) {
    var w := Width(Micros(ns), 1);
    && ns + 999 <= MAX_DURATION && 1000 * w <= MAX_DURATION
    && Micros(ns) + w - 1 <= MAX_DURATION && RoundUp(ns) <= MAX_DURATION
  }

  /** Only the first addition can overflow, for the last 999 nanoseconds of the range. */
  lemma RoundUpFits(ns: nat)
    requires ns <= MAX_DURATION
    ensures Fits(ns) <==> ns <= MAX_DURATION - 999
  {
    WidthBound(Micros(ns), 1);
    CeilingBounds(Micros(ns), Width(Micros(ns), 1));
  }

  lemma LargestOverflows()
    ensures !Fits(MAX_DURATION)
  {
    RoundUpFits(MAX_DURATION);
  }
}
