/**
 Who takes part in a run of the LAN client: every connection index is attempted unless the setup
 deadline stopped its worker, every open connection is held until its holder leaves, and a load
 phase runs every stream slot of every open connection.
 */
module LanPopulation {
  import opened Basics
  import opened LanStats
  import opened LanBooks
  import opened LanClient
  import opened LanRuns

  /** What the steps of a run say about the population. */
  datatype Track = Track(
    expired: set<nat>,    // indices given up at the deadline
    released: set<nat>,   // connections whose holder has left
    ended: set<nat>)      // result slots whose goroutine has left since the phase started

  ghost function Tracked(c: Client, t: Track, step: Step): Track
    requires Shape(c) && Enabled(c, step)
  {
    match step
    case Expire(w) => t.(expired := t.expired + {c.workers[w].i})
    case HoldExit(i) => t.(released := t.released + {i})
    case LoadExit(j) => t.(ended := t.ended + {j})
    case WarmStart => t.(ended := {})
    case MeasureStart => t.(ended := {})
    case _ => t
  }

  ghost function TrackedAll(c: Client, t: Track, steps: seq<Step>): Track
    requires Shape(c) && Feasible(c, steps)
    decreases |steps|
  {
    if steps == [] then t
    else (ShapeKept(c, steps[0]); TrackedAll(Apply(c, steps[0]), Tracked(c, t, steps[0]), steps[1..]))
  }

  // -------------------------------------------------------------------- claims

  /** Some worker has claimed `i` and not finished its attempt. */
  ghost predicate Busy(workers: seq<Worker>, i: int) {
    exists w :: 0 <= w < |workers| && BusyWith(workers[w], i)
  }

  predicate BusyWith(worker: Worker, i: int) { (worker.Claimed? || worker.Attempting?) && worker.i == i }

  /** An index below the counter is being attempted, has been attempted, or was given up; only one of these. */
  ghost predicate Covered(workers: seq<Worker>, next: nat, setups: seq<Stats>, expired: set<nat>, i: int) {
    0 <= i < |setups| && i < next ==>
      if i in expired then setups[i].item.attempted == 0 && !Busy(workers, i)
      else setups[i].item.attempted == 1 || Busy(workers, i)
  }

  ghost predicate Claims(workers: seq<Worker>, next: nat, setups: seq<Stats>, expired: set<nat>) {
    && (forall i :: Covered(workers, next, setups, expired, i))
    && (forall i :: i in expired ==> i < next)
    && (forall w :: StopsLate(workers, next, setups, expired, w))
  }

  /** A worker stops when the indices are used up or the deadline is over. */
  ghost predicate StopsLate(workers: seq<Worker>, next: nat, setups: seq<Stats>, expired: set<nat>, w: int) {
    0 <= w < |workers| && workers[w].Stopped? ==> next >= |setups| || expired != {}
  }

  lemma BusyAt(workers: seq<Worker>, w: nat, i: nat)
    requires w < |workers| && BusyWith(workers[w], i)
    ensures Busy(workers, i)
  {
  }

  /** Who else is busy with an index stays so when worker `w` moves. */
  lemma BusyMoves(workers: seq<Worker>, w: nat, worker: Worker, i: int)
    requires w < |workers|
    ensures Busy(workers[w := worker], i) ==> Busy(workers, i) || BusyWith(worker, i)
    ensures Busy(workers, i) ==> Busy(workers[w := worker], i) || BusyWith(workers[w], i)
    ensures BusyWith(worker, i) ==> Busy(workers[w := worker], i)
  {
    var after := workers[w := worker];
    if Busy(after, i) {
      var v :| 0 <= v < |after| && BusyWith(after[v], i);
      if v != w { assert BusyWith(workers[v], i); }
    }
    if Busy(workers, i) {
      var v :| 0 <= v < |workers| && BusyWith(workers[v], i);
      if v != w { assert BusyWith(after[v], i); }
    }
    if BusyWith(worker, i) { assert after[w] == worker; }
  }

  /** Only one worker is busy with an index. */
  lemma OnlyOne(workers: seq<Worker>, next: nat, setups: seq<Stats>, w: nat, i: nat, worker: Worker)
    requires CrewInv(workers, next, setups) && w < |workers| && BusyWith(workers[w], i) && !BusyWith(worker, i)
    ensures !Busy(workers[w := worker], i)
  {
    var after := workers[w := worker];
    forall v | 0 <= v < |after| ensures !BusyWith(after[v], i) {
      assert Distinct(workers, w, v);
    }
  }

  lemma BusyBelow(workers: seq<Worker>, next: nat, setups: seq<Stats>, i: int)
    requires CrewInv(workers, next, setups) && Busy(workers, i)
    ensures i < next
  {
    var w :| 0 <= w < |workers| && BusyWith(workers[w], i);
    assert WorkerOk(workers, next, setups, w);
  }

  lemma NobodyBusy(workers: seq<Worker>, i: int)
    requires forall w :: 0 <= w < |workers| ==> workers[w].Stopped?
    ensures !Busy(workers, i)
  {
  }

  lemma ClaimClaims(workers: seq<Worker>, next: nat, setups: seq<Stats>, expired: set<nat>, w: nat)
    requires CrewInv(workers, next, setups) && Claims(workers, next, setups, expired) && w < |workers|
    requires workers[w].Seeking?
    ensures Claims(workers[w := if next >= |setups| then Stopped else Claimed(next)], next + 1, setups, expired)
  {
    var worker, later := if next >= |setups| then Stopped else Claimed(next), next + 1;
    var after := workers[w := worker];
    if Busy(workers, next) { BusyBelow(workers, next, setups, next); }
    forall i ensures Covered(after, later, setups, expired, i) {
      assert Covered(workers, next, setups, expired, i);
      BusyMoves(workers, w, worker, i);
    }
    forall v ensures StopsLate(after, later, setups, expired, v) {
      assert StopsLate(workers, next, setups, expired, v);
    }
  }

  lemma ExpireClaims(workers: seq<Worker>, next: nat, setups: seq<Stats>, expired: set<nat>, w: nat)
    requires CrewInv(workers, next, setups) && Claims(workers, next, setups, expired) && w < |workers|
    requires workers[w].Claimed?
    ensures Claims(workers[w := Stopped], next, setups, expired + {workers[w].i})
  {
    var i := workers[w].i;
    var after := workers[w := Stopped];
    assert WorkerOk(workers, next, setups, w);
    OnlyOne(workers, next, setups, w, i, Stopped);
    forall j ensures Covered(after, next, setups, expired + {i}, j) {
      assert Covered(workers, next, setups, expired, j);
      BusyMoves(workers, w, Stopped, j);
    }
    assert i in expired + {i};
    forall v ensures StopsLate(after, next, setups, expired + {i}, v) {
    }
  }

  /** A worker that moves without changing what it is busy with. */
  lemma SameClaims(workers: seq<Worker>, next: nat, setups: seq<Stats>, expired: set<nat>, w: nat, worker: Worker)
    requires Claims(workers, next, setups, expired) && w < |workers| && !worker.Stopped?
    requires forall i :: BusyWith(worker, i) <==> BusyWith(workers[w], i)
    ensures Claims(workers[w := worker], next, setups, expired)
  {
    var after := workers[w := worker];
    forall i ensures Covered(after, next, setups, expired, i) {
      assert Covered(workers, next, setups, expired, i);
      BusyMoves(workers, w, worker, i);
    }
    forall v ensures StopsLate(after, next, setups, expired, v) { assert StopsLate(workers, next, setups, expired, v); }
  }

  lemma AttemptClaims(workers: seq<Worker>, next: nat, setups: seq<Stats>, expired: set<nat>, w: nat, worker: Worker,
                      s: Stats)
    requires Claims(workers, next, setups, expired) && w < |workers| && workers[w].Attempting?
    requires workers[w].i < |setups| && workers[w].i < next && s.item.attempted == 1
    requires (worker.Seeking? || worker.Logging?)
    ensures Claims(workers[w := worker], next, setups[workers[w].i := s], expired)
  {
    var i := workers[w].i;
    var after, later := workers[w := worker], setups[i := s];
    BusyAt(workers, w, i);
    assert Covered(workers, next, setups, expired, i);
    forall j ensures Covered(after, next, later, expired, j) {
      assert Covered(workers, next, setups, expired, j);
      BusyMoves(workers, w, worker, j);
    }
    forall v ensures StopsLate(after, next, later, expired, v) { assert StopsLate(workers, next, setups, expired, v); }
  }

  // ------------------------------------------------------------------ invariant

  ghost predicate ClaimsInv(c: Client, t: Track)
    requires Shape(c)
  {
    Claims(c.workers, c.next, c.books.results[0], t.expired)
  }

  /** The open connections are those held and those released. */
  ghost predicate HeldInv(open: set<nat>, holders: set<nat>, released: set<nat>) {
    released <= open && holders == open - released
  }

  /** The slots of the open connections are those running and those that have ended. */
  ghost predicate LoadInv(c: Client, ended: set<nat>)
    requires c.streams >= 1
  {
    c.stage in {Warming, Measuring} ==> c.loaders == Slots(c.n, c.streams, c.open) - ended
  }

  ghost predicate TrackInv(c: Client, t: Track) {
    Inv(c) && ClaimsInv(c, t) && HeldInv(c.open, c.holders, t.released) && LoadInv(c, t.ended)
  }

  lemma SetupsKept(c: Client, step: Step)
    requires Inv(c) && Enabled(c, step) && !step.Attempted?
    ensures Apply(c, step).books.results[0] == c.books.results[0]
  {
  }

  lemma StepClaims(c: Client, t: Track, step: Step)
    requires TrackInv(c, t) && Enabled(c, step)
    ensures Shape(Apply(c, step)) && ClaimsInv(Apply(c, step), Tracked(c, t, step))
  {
    ShapeKept(c, step);
    var setups := c.books.results[0];
    if !step.Attempted? { SetupsKept(c, step); }
    match step
    case Claim(w) => ClaimClaims(c.workers, c.next, setups, t.expired, w);
    case Expire(w) => ExpireClaims(c.workers, c.next, setups, t.expired, w);
    case Begin(w) => SameClaims(c.workers, c.next, setups, t.expired, w, Attempting(c.workers[w].i));
    case Resume(w) => SameClaims(c.workers, c.next, setups, t.expired, w, Seeking);
    case Attempted(w, error, elapsed) => AttemptedClaims(c, t, w, error, elapsed);
    case _ =>
  }

  lemma AttemptedClaims(c: Client, t: Track, w: nat, error: Option<string>, elapsed: nat)
    requires TrackInv(c, t) && Enabled(c, Attempted(w, error, elapsed))
    ensures Shape(Apply(c, Attempted(w, error, elapsed))) && ClaimsInv(Apply(c, Attempted(w, error, elapsed)), t)
  {
    ShapeKept(c, Attempted(w, error, elapsed));
    assert Indexed(c.workers, c.n, w);
    var i, setups := c.workers[w].i, c.books.results[0];
    assert WorkerOk(c.workers, c.next, setups, w) && CellOk(c.books.results, 0, i);
    RecordSetup(c.books, i, error, elapsed);
    FirstOutcome(setups[i], error, elapsed);
    AttemptClaims(c.workers, c.next, setups, t.expired, w, Apply(c, Attempted(w, error, elapsed)).workers[w],
                  Recorded(setups[i], error, elapsed, false));
  }

  lemma StepHeld(c: Client, t: Track, step: Step)
    requires TrackInv(c, t) && Enabled(c, step)
    ensures HeldInv(Apply(c, step).open, Apply(c, step).holders, Tracked(c, t, step).released)
  {
    var d := Apply(c, step);
    if step.Attempted? {
      NotOpenYet(c, step.w);
    } else if step.HoldExit? {
      assert d.open == c.open && d.holders == c.holders - {step.i};
    } else {
      assert d.open == c.open && d.holders == c.holders && Tracked(c, t, step).released == t.released;
    }
  }

  lemma NotOpenYet(c: Client, w: nat)
    requires Inv(c) && w < |c.workers| && c.workers[w].Attempting?
    ensures c.workers[w].i !in c.open
  {
    assert Indexed(c.workers, c.n, w);
    assert WorkerOk(c.workers, c.next, c.books.results[0], w) && CellOk(c.books.results, 0, c.workers[w].i);
  }

  lemma StepLoad(c: Client, t: Track, step: Step)
    requires TrackInv(c, t) && Enabled(c, step)
    ensures LoadInv(Apply(c, step), Tracked(c, t, step).ended)
  {
    if step.Attempted? {
      StillSettingUp(c, step.w);
    } else {
      SpawnedInside(c.n, c.streams, c.open);
    }
  }

  lemma StepTrack(c: Client, t: Track, step: Step)
    requires TrackInv(c, t) && Enabled(c, step)
    ensures TrackInv(Apply(c, step), Tracked(c, t, step))
  {
    LanRuns.StepInv(c, step);
    StepClaims(c, t, step);
    StepHeld(c, t, step);
    StepLoad(c, t, step);
  }

  lemma {:induction false} RunTrack(c: Client, t: Track, steps: seq<Step>)
    requires TrackInv(c, t) && Feasible(c, steps)
    ensures TrackInv(Final(c, steps), TrackedAll(c, t, steps)) && Final(c, steps).n == c.n
    ensures |Final(c, steps).workers| == |c.workers|
    decreases |steps|
  {
    if steps != [] {
      StepTrack(c, t, steps[0]);
      RunTrack(Apply(c, steps[0]), Tracked(c, t, steps[0]), steps[1..]);
    }
  }

  lemma InitTrack(n: nat, streams: nat, workers: nat)
    requires streams >= 1
    ensures TrackInv(Init(n, streams, workers), Track({}, {}, {}))
  {
    InitInv(n, streams, workers);
  }

  // -------------------------------------------------------------------- theorem

  /** Index `i` was attempted once, unless it was given up at the deadline. */
  ghost predicate Tried(setups: seq<Stats>, expired: set<nat>, i: int) {
    0 <= i < |setups| ==> setups[i].item.attempted == if i in expired then 0 else 1
  }

  lemma SetupTried(c: Client, t: Track, i: nat)
    requires TrackInv(c, t) && c.stage != SettingUp && i < c.next
    ensures Tried(c.books.results[0], t.expired, i)
  {
    assert Covered(c.workers, c.next, c.books.results[0], t.expired, i);
    NobodyBusy(c.workers, i);
  }

  /**
   In every run: once setup is over, each index claimed was attempted exactly once or given up at the
   deadline, and without a deadline all were; every open connection is held until its holder leaves;
   and a load phase has a goroutine for every stream slot of every open connection until that leaves.
   */
  lemma PopulationTheorem(n: nat, streams: nat, workers: nat, steps: seq<Step>)
    requires streams >= 1 && Feasible(Init(n, streams, workers), steps)
    ensures var c := Final(Init(n, streams, workers), steps);
            var t := TrackedAll(Init(n, streams, workers), Track({}, {}, {}), steps);
            && (c.stage != SettingUp ==>
                  && (forall i :: i < c.next ==> Tried(c.books.results[0], t.expired, i))
                  && (workers >= 1 && t.expired == {} ==> c.next >= n))
            && HeldInv(c.open, c.holders, t.released)
            && LoadInv(c, t.ended)
  {
    InitTrack(n, streams, workers);
    RunTrack(Init(n, streams, workers), Track({}, {}, {}), steps);
    var c, t := Final(Init(n, streams, workers), steps),
                TrackedAll(Init(n, streams, workers), Track({}, {}, {}), steps);
    if c.stage != SettingUp {
      forall i | i < c.next ensures Tried(c.books.results[0], t.expired, i) {
        if i >= 0 { SetupTried(c, t, i); }
      }
      assert StopsLate(c.workers, c.next, c.books.results[0], t.expired, 0);
    }
  }
}
