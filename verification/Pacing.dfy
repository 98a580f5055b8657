/** Paced uploads: bench/upload_client.py, the timed loop of `work`. */
module Pacing {
  import Arith

  datatype Timing = Timing(beginMono: int, startMono: int, endMono: int)

  /** How the clock moves during one turn of the loop, and whether the response was right. */
  datatype Turn = Turn(poll: nat, oversleep: nat, check: nat, send: nat, serve: nat, ok: bool)

  /** Start times, and the earliest time the pacing allowed for each. */
  ghost predicate Paced(starts: seq<int>, nexts: seq<int>, period: nat) {
    && |starts| <= |nexts| <= |starts| + 1
    && (forall k :: Allowed(starts, nexts, k))
    && (forall k :: Spaced(starts, nexts, period, k))
  }

  ghost predicate Allowed(starts: seq<int>, nexts: seq<int>, k: int) {
    0 <= k < |starts| && k < |nexts| ==> nexts[k] <= starts[k]
  }

  ghost predicate Spaced(starts: seq<int>, nexts: seq<int>, period: nat, k: int) {
    0 <= k && k + 1 < |nexts| && k < |starts| ==> nexts[k] + period <= nexts[k + 1] && starts[k] <= nexts[k + 1]
  }

  ghost predicate InOrder(starts: seq<int>, now: int) {
    (forall k :: AtMost(starts, k, now)) && forall i, j :: Ordered(starts, i, j)
  }

  ghost predicate AtMost(starts: seq<int>, k: int, now: int) { 0 <= k < |starts| ==> starts[k] <= now }

  ghost predicate Ordered(starts: seq<int>, i: int, j: int) { 0 <= i < j < |starts| ==> starts[i] <= starts[j] }

  /** Nothing is started at or after the end. */
  ghost predicate InTime(starts: seq<int>, nexts: seq<int>, end: int) { forall k :: Before(starts, nexts, end, k) }

  ghost predicate Before(starts: seq<int>, nexts: seq<int>, end: int, k: int) {
    0 <= k < |starts| && k < |nexts| ==> nexts[k] < end
  }

  /** The loop waits for its next start, the first of which was `first`. */
  ghost predicate Scheduled(starts: seq<int>, nexts: seq<int>, period: nat, first: int, next: int, end: int) {
    && Paced(starts, nexts, period) && |nexts| == |starts| + 1
    && nexts[|starts|] == next && nexts[0] == first
    && InTime(starts, nexts, end)
  }

  /** After its last start. */
  ghost predicate Served(starts: seq<int>, nexts: seq<int>, period: nat, first: int, end: int) {
    && Paced(starts, nexts, period)
    && (|starts| > 0 ==> nexts[0] == first)
    && InTime(starts, nexts, end)
  }

  /** The next start allowed is a period after the last one, or when its response came if that is later. */
  ghost predicate Resumes(starts: seq<int>, nexts: seq<int>, turns: seq<Turn>, period: nat) {
    forall k :: ResumesAt(starts, nexts, turns, period, k)
  }

  ghost predicate ResumesAt(starts: seq<int>, nexts: seq<int>, turns: seq<Turn>, period: nat, k: int) {
    0 <= k && k + 1 < |nexts| && k < |starts| && k < |turns| ==>
      nexts[k + 1] == Later(nexts[k], period, starts[k] + turns[k].serve)
  }

  /** The service times, in order, of the first `n` requests that ended between start and end of the timing. */
  ghost function Kept(timing: Timing, starts: seq<int>, turns: seq<Turn>, n: nat): seq<int>
    requires n <= |starts| && n <= |turns|
  {
    if n == 0 then []
    else
      Kept(timing, starts, turns, n - 1)
      + if timing.startMono <= starts[n - 1] + turns[n - 1].serve < timing.endMono then [turns[n - 1].serve] else []
  }

  lemma {:induction false} KeptPrefix(timing: Timing, starts: seq<int>, last: int, turns: seq<Turn>, n: nat)
    requires n <= |starts| && n <= |turns|
    ensures Kept(timing, starts + [last], turns, n) == Kept(timing, starts, turns, n)
  {
    if n > 0 { KeptPrefix(timing, starts, last, turns, n - 1); }
  }

  lemma KeptNext(timing: Timing, starts: seq<int>, last: int, turns: seq<Turn>)
    requires |starts| < |turns|
    ensures var n, serve := |starts|, turns[|starts|].serve;
            && Kept(timing, starts + [last], turns, n) == Kept(timing, starts, turns, n)
            && Kept(timing, starts + [last], turns, n + 1) == Kept(timing, starts, turns, n)
               + if timing.startMono <= last + serve < timing.endMono then [serve] else []
  {
    KeptPrefix(timing, starts, last, turns, |starts|);
  }

  lemma TurnResumes(starts: seq<int>, nexts: seq<int>, turns: seq<Turn>, period: nat, started: int)
    requires Resumes(starts, nexts, turns, period) && |nexts| == |starts| + 1 && |starts| < |turns|
    ensures Resumes(starts + [started], nexts, turns, period)
    ensures var n := |starts|;
            Resumes(starts + [started], nexts + [Later(nexts[n], period, started + turns[n].serve)], turns, period)
  {
    var n := |starts|;
    var more := nexts + [Later(nexts[n], period, started + turns[n].serve)];
    forall k ensures ResumesAt(starts + [started], nexts, turns, period, k)
                     && ResumesAt(starts + [started], more, turns, period, k)
    {
      assert ResumesAt(starts, nexts, turns, period, k);
    }
  }

  /** How many turns came to a good response, when `failed` says that the last one did not. */
  ghost predicate Counted(turns: seq<Turn>, starts: nat, successes: nat, failed: bool) {
    && starts <= |turns| && starts == successes + (if failed then 1 else 0)
    && forall k :: WentWell(turns, starts, successes, k)
  }

  ghost predicate WentWell(turns: seq<Turn>, starts: nat, successes: nat, k: int) {
    0 <= k < starts && k < |turns| ==> (turns[k].ok <==> k < successes)
  }

  lemma TurnCounted(turns: seq<Turn>, n: nat)
    requires Counted(turns, n, n, false) && n < |turns|
    ensures if turns[n].ok then Counted(turns, n + 1, n + 1, false) else Counted(turns, n + 1, n, true)
  {
    var later, successes := n + 1, if turns[n].ok then n + 1 else n;
    forall k ensures WentWell(turns, later, successes, k) { assert WentWell(turns, n, n, k); }
  }

  function Later(next: int, period: nat, finished: int): int {
    if next + period < finished then finished else next + period
  }

  lemma TurnPaced(starts: seq<int>, nexts: seq<int>, period: nat, first: int, next: int, end: int, started: int,
                  finished: int)
    requires Scheduled(starts, nexts, period, first, next, end) && next < end && next <= started <= finished
    ensures Served(starts + [started], nexts, period, first, end)
    ensures Scheduled(starts + [started], nexts + [Later(next, period, finished)], period, first,
                      Later(next, period, finished), end)
  {
    var after, more := starts + [started], nexts + [Later(next, period, finished)];
    forall k ensures Spaced(after, nexts, period, k) && Spaced(after, more, period, k) {
      assert Spaced(starts, nexts, period, k);
    }
    forall k ensures Allowed(after, nexts, k) && Allowed(after, more, k) { assert Allowed(starts, nexts, k); }
    forall k ensures Before(after, nexts, end, k) && Before(after, more, end, k) {
      assert Before(starts, nexts, end, k);
    }
  }

  lemma TurnOrder(starts: seq<int>, now: int, started: int, finished: int)
    requires InOrder(starts, now) && now <= started <= finished
    ensures InOrder(starts + [started], finished)
  {
    var after := starts + [started];
    forall k ensures AtMost(after, k, finished) { assert AtMost(starts, k, now); }
    forall i, j ensures Ordered(after, i, j) {
      assert Ordered(starts, i, j);
      assert AtMost(starts, i, now);
    }
  }

  /** What a run of the loop is given. */
  datatype Pace = Pace(timing: Timing, rated: bool, first: int, period: nat, turns: seq<Turn>)

  /** What the loop has done: its starts with the earliest time allowed for each and for the next, and latencies. */
  datatype Log = Log(starts: seq<int>, nexts: seq<int>, next: int, now: int, latencies: seq<int>)

  /** At the top of the loop, after turns that all came to a good response. */
  ghost predicate Turning(p: Pace, log: Log) {
    && InOrder(log.starts, log.now)
    && (p.rated ==> Scheduled(log.starts, log.nexts, p.period, p.first, log.next, p.timing.endMono)
                    && Resumes(log.starts, log.nexts, p.turns, p.period))
    && Counted(p.turns, |log.starts|, |log.starts|, false)
    && log.latencies == Kept(p.timing, log.starts, p.turns, |log.starts|)
  }

  /**
   What the loop leaves: starts in order, kept to the schedule when rated; every turn made is a
   success, but for a last one that failed; and the latencies of the successes inside the timing.
   */
  ghost predicate Left(p: Pace, log: Log, successes: nat, failed: bool) {
    && (forall i, j :: Ordered(log.starts, i, j))
    && (p.rated ==> Served(log.starts, log.nexts, p.period, p.first, p.timing.endMono)
                    && Resumes(log.starts, log.nexts, p.turns, p.period))
    && Counted(p.turns, |log.starts|, successes, failed)
    && log.latencies == Kept(p.timing, log.starts, p.turns, successes)
  }

  lemma TurningStarts(p: Pace, now: int)
    ensures Turning(p, Log([], [p.first], p.first, now, []))
  {
  }

  lemma TurningStops(p: Pace, log: Log)
    requires Turning(p, log)
    ensures Left(p, log, |log.starts|, false)
  {
  }

  /** A good response to the request started at `started`. */
  ghost function Good(p: Pace, log: Log, started: int): Log
    requires |log.starts| < |p.turns|
  {
    var serve := p.turns[|log.starts|].serve;
    var next := Later(log.next, p.period, started + serve);
    Log(log.starts + [started], if p.rated then log.nexts + [next] else log.nexts, if p.rated then next else log.next,
        started + serve,
        if p.timing.startMono <= started + serve < p.timing.endMono then log.latencies + [serve] else log.latencies)
  }

  /** The schedule after one more start. */
  lemma TurnScheduled(p: Pace, log: Log, started: int)
    requires Turning(p, log) && |log.starts| < |p.turns| && p.rated
    requires log.next < p.timing.endMono && log.next <= started
    ensures Served(log.starts + [started], log.nexts, p.period, p.first, p.timing.endMono)
    ensures Resumes(log.starts + [started], log.nexts, p.turns, p.period)
    ensures var good := Good(p, log, started);
            && Scheduled(good.starts, good.nexts, p.period, p.first, good.next, p.timing.endMono)
            && Resumes(good.starts, good.nexts, p.turns, p.period)
  {
    var finished := started + p.turns[|log.starts|].serve;
    TurnPaced(log.starts, log.nexts, p.period, p.first, log.next, p.timing.endMono, started, finished);
    TurnResumes(log.starts, log.nexts, p.turns, p.period, started);
  }

  lemma TurnKept(p: Pace, log: Log, started: int)
    requires |log.starts| < |p.turns| && log.latencies == Kept(p.timing, log.starts, p.turns, |log.starts|)
    ensures Kept(p.timing, log.starts + [started], p.turns, |log.starts|) == log.latencies
    ensures Kept(p.timing, log.starts + [started], p.turns, |log.starts| + 1) == Good(p, log, started).latencies
  {
    KeptNext(p.timing, log.starts, started, p.turns);
    assert log.latencies + [] == log.latencies;
  }

  lemma TurnMade(p: Pace, log: Log, started: int)
    requires Turning(p, log) && |log.starts| < |p.turns| && log.now <= started
    requires p.rated ==> log.next < p.timing.endMono && log.next <= started
    ensures if p.turns[|log.starts|].ok then Turning(p, Good(p, log, started))
            else Left(p, log.(starts := log.starts + [started]), |log.starts|, true)
  {
    TurnOrder(log.starts, log.now, started, started + p.turns[|log.starts|].serve);
    TurnCounted(p.turns, |log.starts|);
    TurnKept(p, log, started);
    if p.rated { TurnScheduled(p, log, started); }
  }

  /**
   The loop, paced or not; `failed` says that a response was wrong, which ends it.  Requests of one
   client never overlap, and a rated client keeps to its schedule.
   */
  method Work(timing: Timing, rated: bool, offset: nat, period: nat, turns: seq<Turn>, connected: int)
    returns (starts: seq<int>, successes: nat, latencies: seq<int>, failed: bool, ghost log: Log)
    ensures log.starts == starts && log.latencies == latencies
    ensures Left(Pace(timing, rated, timing.beginMono + if rated then offset else 0, period, turns), log, successes,
                 failed)
  {
    var now, end := connected, timing.endMono;
    starts, successes, latencies, failed := [], 0, [], false;
    var nextStart := timing.beginMono;
    if rated { nextStart := nextStart + offset; }
    ghost var pace := Pace(timing, rated, timing.beginMono + if rated then offset else 0, period, turns);
    log := Log([], [nextStart], nextStart, now, []);
    TurningStarts(pace, now);
    for i := 0 to |turns|
      invariant |starts| == successes == i && !failed
      invariant Turning(pace, log)
      invariant log.starts == starts && log.next == nextStart && log.now == now && log.latencies == latencies
    {
      TurningStops(pace, log);
      var turn := turns[i];
      now := now + turn.poll;
      if now >= end { return; }
      if rated {
        if nextStart >= end { return; }
        now := (if now < nextStart then nextStart else now) + turn.oversleep;
        now := now + turn.check;
        if now >= end { return; }
      }
      var started := now + turn.send;
      var finished := started + turn.serve;
      TurnMade(pace, log, started);
      starts := starts + [started];
      now := finished;
      if !turn.ok {
        failed := true;
        log := log.(starts := starts);
        return;
      }
      successes := successes + 1;
      if timing.startMono <= finished < end { latencies := latencies + [finished - started]; }
      if rated { nextStart := if nextStart + period < finished then finished else nextStart + period; }
      log := Good(pace, log, started);
    }
    TurningStops(pace, log);
  }

  lemma {:induction false} NextsSpaced(starts: seq<int>, nexts: seq<int>, period: nat, i: nat, j: nat)
    requires Paced(starts, nexts, period) && i <= j < |nexts|
    ensures nexts[j] >= nexts[i] + (j - i) * period
    decreases j - i
  {
    if i < j {
      NextsSpaced(starts, nexts, period, i, j - 1);
      Arith.Distribute(j - 1 - i, 1, period);
      assert Spaced(starts, nexts, period, j - 1);
    }
  }

  /** However slow responses are, the k-th start is never ahead of its schedule. */
  lemma NeverEarly(starts: seq<int>, nexts: seq<int>, period: nat, k: nat)
    requires Paced(starts, nexts, period) && k < |starts|
    ensures starts[k] >= nexts[0] + k * period
  {
    NextsSpaced(starts, nexts, period, 0, k);
    assert Allowed(starts, nexts, k);
  }

  /** A late client does not catch up: a window with `count` starts spans at least `count - 2` periods. */
  lemma NoBurst(starts: seq<int>, nexts: seq<int>, period: nat, i: nat, j: nat)
    requires Paced(starts, nexts, period) && i < j < |starts|
    ensures starts[j] - starts[i] >= (j - i - 1) * period
    ensures period > 0 ==> (j - i + 1) <= (starts[j] - starts[i]) / period + 2
  {
    assert Spaced(starts, nexts, period, i);
    NextsSpaced(starts, nexts, period, i + 1, j);
    assert Allowed(starts, nexts, j);
    Arith.MulNat(j - i - 1, period);
    if period > 0 { Quotient(starts[j] - starts[i], period, j - i - 1); }
  }

  lemma Quotient(length: nat, period: nat, gaps: nat)
    requires period > 0 && gaps * period <= length
    ensures gaps <= length / period
  {
    Arith.DivBounds(length, period);
    if length / period < gaps { Arith.MulMonotone(length / period + 1, gaps, period); }
  }
}
