/** Counters keyed by failure kind, and sums over lists of numbers. */
module Tally {

  type Counts = map<string, nat>

  function Get(m: Counts, kind: string): nat { if kind in m then m[kind] else 0 }

  /** `counts[kind] += n`, creating the entry when it is missing. */
  function Add(m: Counts, kind: string, n: nat): Counts { m[kind := Get(m, kind) + n] }

  /** The sum of all counters. */
  ghost function Total(m: Counts): nat {
    if m == map[] then 0
    else var kind :| kind in m; m[kind] + Total(m - {kind})
  }

  lemma TotalNone(m: Counts)
    requires m == map[]
    ensures Total(m) == 0
  {
  }

  /** The sum does not depend on which counter is taken first. */
  lemma {:induction false} TotalSplit(m: Counts, kind: string)
    requires kind in m
    ensures Total(m) == m[kind] + Total(m - {kind})
    decreases |m|
  {
    var first :| first in m && Total(m) == m[first] + Total(m - {first});
    if first != kind {
      TotalSplit(m - {first}, kind);
      TotalSplit(m - {kind}, first);
      assert m - {first} - {kind} == m - {kind} - {first};
    }
  }

  /** `sum(counts.values())`. */
  method SumCounts(m: Counts) returns (n: nat)
    ensures n == Total(m)
  {
    n := 0;
    var rest := m;
    while rest != map[]
      invariant n + Total(rest) == Total(m)
      decreases |rest|
    {
      var kind :| kind in rest;
      TotalSplit(rest, kind);
      n := n + rest[kind];
      rest := rest - {kind};
    }
  }

  lemma TotalAdd(m: Counts, kind: string, n: nat)
    ensures Total(Add(m, kind, n)) == Total(m) + n
  {
    var after := Add(m, kind, n);
    TotalSplit(after, kind);
    assert after - {kind} == m - {kind};
    if kind in m {
      TotalSplit(m, kind);
    } else {
      assert m - {kind} == m;
    }
  }

  /** Counter by counter addition. */
  function Plus(a: Counts, b: Counts): (r: Counts) {
    map kind | kind in a.Keys + b.Keys :: Get(a, kind) + Get(b, kind)
  }

  lemma PlusOne(a: Counts, b: Counts, kind: string)
    requires kind in b
    ensures Plus(Add(a, kind, b[kind]), b - {kind}) == Plus(a, b)
  {
  }

  lemma PlusNone(a: Counts)
    ensures Plus(a, map[]) == a
  {
  }

  /** Adding counters one by one, in any order. */
  method AddAll(a: Counts, b: Counts) returns (r: Counts)
    ensures r == Plus(a, b)
  {
    r := a;
    var rest := b;
    while rest != map[]
      invariant Plus(r, rest) == Plus(a, b)
      decreases |rest|
    {
      var kind :| kind in rest;
      PlusOne(r, rest, kind);
      r := Add(r, kind, rest[kind]);
      rest := rest - {kind};
    }
    PlusNone(r);
  }

  lemma {:induction false} TotalPlus(a: Counts, b: Counts)
    ensures Total(Plus(a, b)) == Total(a) + Total(b)
    decreases |b|
  {
    if b == map[] {
      PlusNone(a);
    } else {
      var kind :| kind in b;
      PlusOne(a, b, kind);
      TotalPlus(Add(a, kind, b[kind]), b - {kind});
      TotalAdd(a, kind, b[kind]);
      TotalSplit(b, kind);
    }
  }

  // ------------------------------------------------------------ sums of lists

  ghost function Sum(xs: seq<nat>): nat {
    if xs == [] then 0 else xs[0] + Sum(xs[1..])
  }

  lemma {:induction false} SumUpdate(xs: seq<nat>, i: nat, v: nat)
    requires i < |xs|
    ensures Sum(xs[i := v]) + xs[i] == Sum(xs) + v
  {
    if i == 0 {
      assert xs[i := v][1..] == xs[1..];
    } else {
      assert xs[i := v][1..] == xs[1..][i - 1 := v];
      SumUpdate(xs[1..], i - 1, v);
    }
  }

  lemma {:induction false} SumAppend(xs: seq<nat>, ys: seq<nat>)
    ensures Sum(xs + ys) == Sum(xs) + Sum(ys)
  {
    if xs == [] {
      assert xs + ys == ys;
    } else {
      assert (xs + ys)[1..] == xs[1..] + ys;
      SumAppend(xs[1..], ys);
    }
  }

  lemma {:induction false} SumPointwise(xs: seq<nat>, ys: seq<nat>, zs: seq<nat>)
    requires |xs| == |ys| == |zs| && forall i :: 0 <= i < |xs| ==> zs[i] == xs[i] + ys[i]
    ensures Sum(zs) == Sum(xs) + Sum(ys)
  {
    if xs != [] { SumPointwise(xs[1..], ys[1..], zs[1..]); }
  }

  lemma {:induction false} SumZero(xs: seq<nat>)
    requires forall i :: 0 <= i < |xs| ==> xs[i] == 0
    ensures Sum(xs) == 0
  {
    if xs != [] { SumZero(xs[1..]); }
  }
}
