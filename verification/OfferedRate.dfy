/** Phase schedules of the open-loop generator (bench/load/offered.go): parsing and exact rate arithmetic. */
module OfferedRate {
  import opened Arith
  import opened Basics

  const SECOND: int := 1_000_000_000
  const HOUR: int := 3600 * SECOND
  const MAX_RATE: int := 50_000_000
  const MAX_PHASES: nat := 16

  /** A rate in offers per second for a duration in nanoseconds. */
  datatype Phase = Phase(rate: int, duration: int)

  predicate Accepted(p: Phase) {
    1 <= p.rate <= MAX_RATE && 0 < p.duration <= HOUR
  }

  predicate Int64(x: int) { -0x8000_0000_0000_0000 <= x < 0x8000_0000_0000_0000 }

  /** `offers()`, with the source's operator order; operands are never negative, so `/` truncates. */
  function Offers(p: Phase): int {
    p.duration / SECOND * p.rate + p.duration % SECOND * p.rate / SECOND
  }

  function Offset(p: Phase, index: int): int
    requires p.rate != 0
  {
    index / p.rate * SECOND + index % p.rate * SECOND / p.rate
  }

  // ---------------------------------------------------------------- arithmetic

  lemma MulBound(a: nat, b: nat, x: nat, y: nat)
    requires a <= x && b <= y
    ensures 0 <= a * b <= x * y
  {
  }

  /** The offer count is the exact floor, and no intermediate value leaves int64. */
  lemma OffersExact(p: Phase)
    requires Accepted(p)
    ensures Offers(p) == p.duration * p.rate / SECOND && 0 <= Offers(p) <= 3600 * p.rate
    ensures Int64(p.duration / SECOND * p.rate) && Int64(p.duration % SECOND * p.rate) && Int64(Offers(p))
  {
    DivSplit(p.duration, SECOND, p.rate);
    MulBound(p.duration / SECOND, p.rate, 3600, MAX_RATE);
    MulBound(p.duration % SECOND, p.rate, SECOND, MAX_RATE);
    MulMonotone(p.duration, HOUR, p.rate);
    DivMonotone(p.duration * p.rate, HOUR * p.rate, SECOND);
  }

  lemma QuotientSmall(n: nat, d: nat)
    requires d >= 1
    ensures 0 <= n / d <= n
  {
    assert n == n / d * d + n % d;
  }

  /** An offer's instant is the exact floor of its ideal time, without overflow. */
  lemma OffsetExact(p: Phase, index: int)
    requires Accepted(p) && 0 <= index <= Offers(p)
    ensures Offset(p, index) == index * SECOND / p.rate
    ensures Int64(index / p.rate * SECOND) && Int64(index % p.rate * SECOND) && Int64(Offset(p, index))
  {
    OffersExact(p);
    DivSplit(index, p.rate, SECOND);
    MulBound(index % p.rate, SECOND, MAX_RATE, SECOND);
    assert (3600 + 1) * p.rate == 3600 * p.rate + p.rate;
    DivRange(index, p.rate, 0, 3601);
    QuotientSmall(index % p.rate * SECOND, p.rate);
  }

  /** Distinct offers of a phase have distinct, ordered instants. */
  lemma OffsetIncreases(p: Phase, i: int, j: int)
    requires Accepted(p) && 0 <= i < j <= Offers(p)
    ensures Offset(p, i) < Offset(p, j)
  {
    OffsetExact(p, i);
    OffsetExact(p, j);
    var q := i * SECOND / p.rate;
    DivBounds(i * SECOND, p.rate);
    assert (q + 1) * p.rate == q * p.rate + p.rate;
    assert i * SECOND + SECOND <= j * SECOND;
    assert (q + 1) * p.rate <= j * SECOND;
    DivBounds(j * SECOND, p.rate);
    if j * SECOND / p.rate < q + 1 {
      MulMonotone(j * SECOND / p.rate + 1, q + 1, p.rate);
    }
  }

  /** Every offer falls strictly inside its phase. */
  lemma OffsetInside(p: Phase, i: int)
    requires Accepted(p) && 0 <= i < Offers(p)
    ensures 0 <= Offset(p, i) < p.duration
  {
    OffersExact(p);
    OffsetExact(p, i);
    DivBounds(p.duration * p.rate, SECOND);
    MulMonotone(i + 1, Offers(p), SECOND);
    assert i * SECOND < p.duration * p.rate;
    assert 0 * p.rate <= i * SECOND;
    DivRange(i * SECOND, p.rate, 0, p.duration);
  }

  // ------------------------------------------------------- multi-phase schedule

  /** When phase `k` starts, relative to the start of the run. */
  function Start(phases: seq<Phase>, k: nat): int
    requires k <= |phases|
  {
    if k == 0 then 0 else Start(phases, k - 1) + phases[k - 1].duration
  }

  /** How long some phases take together. */
  ghost function TotalDuration(phases: seq<Phase>): int {
    if phases == [] then 0 else phases[0].duration + TotalDuration(phases[1..])
  }

  lemma {:induction false} TotalDurationPush(phases: seq<Phase>, last: Phase)
    ensures TotalDuration(phases + [last]) == TotalDuration(phases) + last.duration
  {
    if phases == [] {
      assert phases + [last] == [last];
    } else {
      assert (phases + [last])[1..] == phases[1..] + [last];
      TotalDurationPush(phases[1..], last);
    }
  }

  /** A phase starts when those before it are over. */
  lemma {:induction false} StartIsSum(phases: seq<Phase>, k: nat)
    requires k <= |phases|
    ensures Start(phases, k) == TotalDuration(phases[..k])
  {
    if k > 0 {
      StartIsSum(phases, k - 1);
      assert phases[..k] == phases[..k - 1] + [phases[k - 1]];
      TotalDurationPush(phases[..k - 1], phases[k - 1]);
    }
  }

  /** The instant of an offer: after the phases before its own, `index` times the mean distance, rounded down. */
  lemma ScheduledExact(phases: seq<Phase>, k: nat, index: int)
    requires k < |phases| && Accepted(phases[k]) && 0 <= index <= Offers(phases[k])
    ensures Scheduled(phases, k, index) == TotalDuration(phases[..k]) + index * 1_000_000_000 / phases[k].rate
  {
    StartIsSum(phases, k);
    OffsetExact(phases[k], index);
  }

  lemma {:induction false} StartsOrdered(phases: seq<Phase>, a: nat, b: nat)
    requires a < b <= |phases| && forall i :: 0 <= i < |phases| ==> Accepted(phases[i])
    ensures Start(phases, a) + phases[a].duration <= Start(phases, b)
  {
    if a + 1 < b { StartsOrdered(phases, a, b - 1); }
  }

  ghost function Scheduled(phases: seq<Phase>, k: nat, index: int): int
    requires k < |phases| && phases[k].rate != 0
  {
    Start(phases, k) + Offset(phases[k], index)
  }

  /**
   Over the whole run an offer scheduled later, in the same phase or a later one, has a strictly
   later instant; so every shard walks strictly increasing times.
   */
  lemma ScheduleIncreases(phases: seq<Phase>, k: nat, i: int, l: nat, j: int)
    requires forall n :: 0 <= n < |phases| ==> Accepted(phases[n])
    requires k < |phases| && l < |phases| && 0 <= i < Offers(phases[k]) && 0 <= j < Offers(phases[l])
    requires k < l || (k == l && i < j)
    ensures Scheduled(phases, k, i) < Scheduled(phases, l, j)
  {
    if k == l {
      OffsetIncreases(phases[k], i, j);
    } else {
      OffsetInside(phases[k], i);
      OffsetInside(phases[l], j);
      StartsOrdered(phases, k, l);
    }
  }

  // ------------------------------------------------------------------- parsing

  /** Where a character first occurs, or the length. */
  function Find(s: string, c: char): (i: nat)
    ensures i <= |s| && (i < |s| ==> s[i] == c) && forall k :: 0 <= k < i ==> s[k] != c
  {
    if s == [] || s[0] == c then 0 else 1 + Find(s[1..], c)
  }

  /** `strings.Split`. */
  function Split(s: string, sep: char): (items: seq<string>)
    ensures |items| >= 1
    decreases |s|
  {
    var i := Find(s, sep);
    if i == |s| then [s] else [s[..i]] + Split(s[i + 1..], sep)
  }

  function Join(items: seq<string>, sep: char): string
    requires |items| >= 1
  {
    if |items| == 1 then items[0] else items[0] + [sep] + Join(items[1..], sep)
  }

  /** Splitting loses nothing. */
  lemma {:induction false} SplitJoin(s: string, sep: char)
    ensures Join(Split(s, sep), sep) == s
    decreases |s|
  {
    var i := Find(s, sep);
    if i < |s| {
      var rest := Split(s[i + 1..], sep);
      var items := [s[..i]] + rest;
      SplitJoin(s[i + 1..], sep);
      assert items[0] == s[..i] && items[1..] == rest;
      assert Split(s, sep) == items;
      assert Join(items, sep) == s[..i] + [sep] + s[i + 1..];
    }
  }

  /** No item holds a separator. */
  lemma {:induction false} SplitPure(s: string, sep: char, k: nat)
    requires k < |Split(s, sep)|
    ensures sep !in Split(s, sep)[k]
    decreases |s|
  {
    var i := Find(s, sep);
    if i < |s| && k > 0 { SplitPure(s[i + 1..], sep, k - 1); }
  }

  lemma FindAppended(item: string, sep: char, rest: string)
    requires sep !in item
    ensures Find(item + [sep] + rest, sep) == |item| && Find(item, sep) == |item|
  {
    var s := item + [sep] + rest;
    assert s[|item|] == sep;
    assert forall k :: 0 <= k < |item| ==> s[k] == item[k] != sep;
  }

  /** Splitting gives back what was joined. */
  lemma {:induction false} JoinSplit(items: seq<string>, sep: char)
    requires |items| >= 1 && forall k :: 0 <= k < |items| ==> sep !in items[k]
    ensures Split(Join(items, sep), sep) == items
  {
    if |items| == 1 {
      FindAppended(items[0], sep, []);
    } else {
      var rest := Join(items[1..], sep);
      FindAppended(items[0], sep, rest);
      JoinSplit(items[1..], sep);
      var s := items[0] + [sep] + rest;
      assert s[..|items[0]|] == items[0] && s[|items[0]| + 1..] == rest;
    }
  }

  /** What the library makes of a number and of a duration, in nanoseconds; nothing when it is malformed. */
  datatype Library = Library(parseInt: string -> Option<int>, parseDuration: string -> Option<int>)

  /** One item of the schedule: cut at its first colon, both halves parsed and in range. */
  function ParseItem(lib: Library, item: string): Option<Phase> {
    var i := Find(item, ':');
    if i == |item| then None
    else
      var rate, duration := lib.parseInt(item[..i]), lib.parseDuration(item[i + 1..]);
      if rate.Some? && duration.Some? && Accepted(Phase(rate.value, duration.value))
      then Some(Phase(rate.value, duration.value)) else None
  }

  /** An item written as rate, colon, duration is read as just that. */
  lemma ItemRead(lib: Library, rate: string, duration: string)
    requires ':' !in rate
    ensures var r, d := lib.parseInt(rate), lib.parseDuration(duration);
            ParseItem(lib, rate + ":" + duration) ==
              if r.Some? && d.Some? && 1 <= r.value <= 50_000_000 && 0 < d.value <= 3_600_000_000_000
              then Some(Phase(r.value, d.value)) else None
  {
    FindAppended(rate, ':', duration);
    var item := rate + ":" + duration;
    assert item[..|rate|] == rate && item[|rate| + 1..] == duration;
  }

  /** The schedule is accepted exactly when every comma-separated item is and there are at most 16. */
  method ParseSchedule(value: string, lib: Library) returns (r: Result<seq<Phase>>)
    ensures var items := Split(value, ',');
            && (r.Ok? <==> |items| <= 16 && forall i :: 0 <= i < |items| ==> ParseItem(lib, items[i]).Some?)
            && (r.Ok? ==> |r.value| == |items| && forall i :: 0 <= i < |items| ==>
                 ParseItem(lib, items[i]) == Some(r.value[i]))
    ensures r.Ok? ==> forall i :: 0 <= i < |r.value| ==> Accepted(r.value[i])
  {
    var phases: seq<Phase> := [];
    var items := Split(value, ',');
    for n := 0 to |items|
      invariant |phases| == n
      invariant forall j :: 0 <= j < n ==> ParseItem(lib, items[j]) == Some(phases[j]) && Accepted(phases[j])
    {
      var item := items[n];
      var i := Find(item, ':');
      if i == |item| { return Err("phase must be rate:duration"); }
      var rate := lib.parseInt(item[..i]);
      if rate.None? || rate.value < 1 || rate.value > MAX_RATE {
        return Err("rate must be 1..50000000");
      }
      var duration := lib.parseDuration(item[i + 1..]);
      if duration.None? || duration.value <= 0 || duration.value > HOUR {
        return Err("duration must be positive and at most one hour");
      }
      phases := phases + [Phase(rate.value, duration.value)];
    }
    if |phases| > MAX_PHASES { return Err("at most 16 phases"); }
    return Ok(phases);
  }
}
