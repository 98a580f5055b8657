/** Clock offsets between two hosts, from the round trips of clock requests. */
module ClockOffset {

  /**
   One clock request as it really happened: the local clock read `wall`, `gap` later the request
   left, it took `there` to reach the remote clock and `back` to return with its reading.
   */
  datatype Exchange = Exchange(wall: int, gap: nat, there: nat, back: nat, answer: int)

  /** The remote clock is the local one less a fixed offset. */
  ghost predicate Honest(e: Exchange, offset: int) { e.answer == e.wall + e.gap + e.there - offset }

  datatype Estimate = Estimate(uncertainty: int, offset: int)

  /** The local clock minus the remote one, by a monotonic round trip. */
  function LoadEstimate(e: Exchange): Estimate {
    var elapsed := e.there + e.back;
    Estimate(elapsed / 2, e.wall + elapsed / 2 - e.answer)
  }

  /** The remote clock minus the local one, by two readings of the local clock. */
  function ControllerEstimate(e: Exchange): Estimate {
    var before, after := e.wall, e.wall + e.gap + e.there + e.back;
    Estimate((after - before) / 2, e.answer - (before + after) / 2)
  }

  /** Half the time between the two readings of the local clock. */
  ghost function HalfTrip(e: Exchange): int { (e.gap + e.there + e.back) / 2 }

  function Abs(x: int): nat { if x < 0 then -x else x }

  /** Tuples compare by uncertainty first. */
  predicate AtMost(a: Estimate, b: Estimate) {
    a.uncertainty < b.uncertainty || (a.uncertainty == b.uncertainty && a.offset <= b.offset)
  }

  /** bench/remote_load.py: the smallest estimate, right up to its uncertainty however the round trip was split. */
  method LoadOffset(exchanges: seq<Exchange>, ghost offset: int, ghost gap: nat) returns (best: Estimate)
    requires |exchanges| > 0 && forall i :: 0 <= i < |exchanges| ==>
               Honest(exchanges[i], offset) && exchanges[i].gap <= gap
    ensures exists i :: 0 <= i < |exchanges| && best == LoadEstimate(exchanges[i])
    ensures forall i :: 0 <= i < |exchanges| ==> AtMost(best, LoadEstimate(exchanges[i]))
    ensures forall i :: 0 <= i < |exchanges| ==>
              var e := exchanges[i];
              var half := (e.there + e.back) / 2;
              best.uncertainty < half || (best.uncertainty == half && best.offset <= e.wall + half - e.answer)
    ensures Abs(best.offset - offset) <= best.uncertainty + 1 + gap
  {
    best := LoadEstimate(exchanges[0]);
    ghost var at := 0;
    for i := 1 to |exchanges|
      invariant at < |exchanges| && best == LoadEstimate(exchanges[at])
      invariant forall k :: 0 <= k < i ==> AtMost(best, LoadEstimate(exchanges[k]))
    {
      var estimate := LoadEstimate(exchanges[i]);
      if !AtMost(best, estimate) { best, at := estimate, i; }
    }
    assert Honest(exchanges[at], offset);
  }

  /** bench/compare_http2_lan.py: the first estimate of least uncertainty; its two readings enclose the gap. */
  method ControllerOffset(exchanges: seq<Exchange>, ghost offset: int) returns (best: Estimate)
    requires |exchanges| > 0 && forall i :: 0 <= i < |exchanges| ==> Honest(exchanges[i], offset)
    ensures exists i :: 0 <= i < |exchanges| && best == ControllerEstimate(exchanges[i])
                        && forall k :: 0 <= k < i ==> best.uncertainty < HalfTrip(exchanges[k])
    ensures forall i :: 0 <= i < |exchanges| ==> best.uncertainty <= HalfTrip(exchanges[i])
    ensures Abs(best.offset + offset) <= best.uncertainty + 1
  {
    best := ControllerEstimate(exchanges[0]);
    ghost var at := 0;
    for i := 1 to |exchanges|
      invariant at < |exchanges| && best == ControllerEstimate(exchanges[at])
      invariant forall k :: 0 <= k < i ==> best.uncertainty <= HalfTrip(exchanges[k])
      invariant forall k :: 0 <= k < at ==> best.uncertainty < HalfTrip(exchanges[k])
    {
      var estimate := ControllerEstimate(exchanges[i]);
      if estimate.uncertainty < best.uncertainty { best, at := estimate, i; }
    }
    assert Honest(exchanges[at], offset);
  }

  /** The reported uncertainty alone is enough exactly when the way back covers the gap and the odd nanosecond. */
  lemma LoadWithin(e: Exchange, offset: int)
    requires Honest(e, offset)
    ensures Abs(LoadEstimate(e).offset - offset) <= LoadEstimate(e).uncertainty <==>
              e.gap + (e.there + e.back) % 2 <= e.back
  {
  }

  /** For the controller it is enough unless the whole of an odd round trip was spent before the remote reading. */
  lemma ControllerWithin(e: Exchange, offset: int)
    requires Honest(e, offset)
    ensures Abs(ControllerEstimate(e).offset + offset) <= ControllerEstimate(e).uncertainty <==>
              (e.gap + e.there + e.back) % 2 <= e.back
  {
  }

  /**
   With the whole odd round trip in one direction the error exceeds the uncertainty, by the one
   nanosecond allowed.
   */
  lemma BoundIsTight(half: int)
    requires half >= 0
    ensures var e := Exchange(0, 0, 2 * half + 1, 0, 2 * half + 1);
            && Honest(e, 0)
            && LoadEstimate(e) == Estimate(half, 0 - half - 1)
            && ControllerEstimate(e) == Estimate(half, half + 1)
  {
  }
}
