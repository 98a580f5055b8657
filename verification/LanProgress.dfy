/**
 A LAN client always gets to its report: whatever its goroutines have done so far, the steps that
 start no further request are bounded and cannot get stuck before the report is written.
 */
module LanProgress {
  import opened Basics
  import opened LanBooks
  import opened LanClient
  import opened LanRuns
  import Ids
  import Tally

  /** Steps other than a further holding or load request, which a deadline or a closed channel ends. */
  predicate Winding(step: Step) { !step.Tick? && !step.Load? }

  // ---------------------------------------------------------------- termination

  function WorkerWeight(worker: Worker): nat {
    match worker
    case Stopped => 0
    case Seeking => 1
    case Logging(_) => 2
    case Attempting(_) => 4
    case Claimed(_) => 5
  }

  ghost function Weights(workers: seq<Worker>): seq<nat> {
    seq(|workers|, w requires 0 <= w < |workers| => WorkerWeight(workers[w]))
  }

  /** What the stages to come can still start, `slots` load goroutines in each of two phases. */
  function StageWeight(stage: Stage, slots: nat): nat {
    match stage
    case Reported => 0
    case Measuring => 1
    case Ready => slots + 2
    case Warming => slots + 3
    case Releasing => 2 * slots + 4
    case Prepared => 2 * slots + 5
    case SettingUp => 2 * slots + 6
  }

  function Unclaimed(n: nat, next: nat): nat { if next < n then n - next else 0 }

  ghost function Potential(c: Client): nat {
    5 * Unclaimed(c.n, c.next) + Tally.Sum(Weights(c.workers)) + |c.books.waiting| + |c.holders| + |c.loaders|
    + StageWeight(c.stage, SlotCount(c.n, c.streams))
  }

  lemma WeightsMove(workers: seq<Worker>, w: nat, worker: Worker)
    requires w < |workers|
    ensures Tally.Sum(Weights(workers[w := worker])) + WorkerWeight(workers[w]) ==
              Tally.Sum(Weights(workers)) + WorkerWeight(worker)
  {
    assert Weights(workers[w := worker]) == Weights(workers)[w := WorkerWeight(worker)];
    Tally.SumUpdate(Weights(workers), w, WorkerWeight(worker));
  }

  lemma CrewDecreases(c: Client, step: Step)
    requires Shape(c) && Enabled(c, step) && (step.Claim? || step.Expire? || step.Begin? || step.Resume?)
    ensures Potential(Apply(c, step)) < Potential(c)
  {
    WeightsMove(c.workers, step.w, Apply(c, step).workers[step.w]);
  }

  lemma AddOne(waiting: map<Cell, string>, cell: Cell, kind: string)
    ensures |waiting[cell := kind]| <= |waiting| + 1
  {
    assert waiting[cell := kind].Keys == waiting.Keys + {cell};
    assert |waiting.Keys + {cell}| <= |waiting.Keys| + 1;
  }

  lemma RecordWaits(b: Books, cell: Cell, error: Option<string>, elapsed: nat)
    requires InBooks(b.results, cell)
    ensures |RecordAt(b, cell, error, elapsed).waiting| <= |b.waiting| + if error.Some? then 1 else 0
  {
    if error.Some? { AddOne(b.waiting, cell, error.value); }
  }

  lemma AttemptDecreases(c: Client, w: nat, error: Option<string>, elapsed: nat)
    requires Shape(c) && Enabled(c, Attempted(w, error, elapsed))
    ensures Potential(Apply(c, Attempted(w, error, elapsed))) < Potential(c)
  {
    assert Indexed(c.workers, c.n, w);
    var i := c.workers[w].i;
    WeightsMove(c.workers, w, if error.None? then Seeking else Logging(i));
    RecordWaits(c.books, Cell(0, i), error, elapsed);
    assert |c.holders + {i}| <= |c.holders| + 1;
  }

  lemma LogDecreases(c: Client, cell: Cell)
    requires Shape(c) && Enabled(c, Log(cell))
    ensures Potential(Apply(c, Log(cell))) < Potential(c)
  {
    assert Apply(c, Log(cell)).books.waiting.Keys == c.books.waiting.Keys - {cell};
  }

  lemma SpawnedSize(c: Client)
    requires Inv(c)
    ensures |Spawned(c.streams, c.open)| <= SlotCount(c.n, c.streams)
  {
    SpawnedInside(c.n, c.streams, c.open);
    Ids.AtMost(SlotCount(c.n, c.streams), Spawned(c.streams, c.open));
  }

  lemma StageDecreases(c: Client, step: Step)
    requires Shape(c) && Enabled(c, step)
    requires step in {SetupDone, Release, WarmStart, WarmDone, MeasureStart, MeasureDone}
    requires |Spawned(c.streams, c.open)| <= SlotCount(c.n, c.streams)
    ensures Potential(Apply(c, step)) < Potential(c)
  {
  }

  lemma ExitDecreases(c: Client, step: Step)
    requires Shape(c) && Enabled(c, step) && (step.HoldExit? || step.LoadExit?)
    ensures Potential(Apply(c, step)) < Potential(c)
  {
  }

  lemma WindingDecreases(c: Client, step: Step)
    requires Inv(c) && Enabled(c, step) && Winding(step)
    ensures Potential(Apply(c, step)) < Potential(c)
  {
    if step.Claim? || step.Expire? || step.Begin? || step.Resume? { CrewDecreases(c, step); }
    else if step.Attempted? { AttemptDecreases(c, step.w, step.error, step.elapsed); }
    else if step.Log? { LogDecreases(c, step.cell); }
    else if step.HoldExit? || step.LoadExit? { ExitDecreases(c, step); }
    else {
      SpawnedSize(c);
      StageDecreases(c, step);
    }
  }

  // ------------------------------------------------------------------- progress

  ghost predicate CanWind(c: Client)
    requires Shape(c)
  {
    exists step :: Enabled(c, step) && Winding(step)
  }

  lemma WorkerCanMove(c: Client, w: nat)
    requires Inv(c) && c.books.waiting == map[] && w < |c.workers| && !c.workers[w].Stopped?
    ensures CanWind(c)
  {
    match c.workers[w]
    case Seeking => assert Enabled(c, Claim(w)) && Winding(Claim(w));
    case Claimed(_) => assert Enabled(c, Begin(w)) && Winding(Begin(w));
    case Attempting(_) => assert Enabled(c, Attempted(w, None, 0)) && Winding(Attempted(w, None, 0));
    case Logging(_) => assert Enabled(c, Resume(w)) && Winding(Resume(w));
  }

  lemma LoaderCanExit(c: Client)
    requires Inv(c) && c.books.waiting == map[] && c.loaders != {}
    ensures CanWind(c)
  {
    var j :| j in c.loaders;
    assert Enabled(c, LoadExit(j)) && Winding(LoadExit(j));
  }

  lemma HolderCanExit(c: Client)
    requires Inv(c) && c.books.waiting == map[] && c.holders != {}
    ensures CanWind(c)
  {
    var i :| i in c.holders;
    assert Enabled(c, HoldExit(i)) && Winding(HoldExit(i));
  }

  /** No interleaving gets stuck before the report is written, not even without another request. */
  lemma Progress(c: Client)
    requires Inv(c) && c.stage != Reported
    ensures CanWind(c)
  {
    if cell :| cell in c.books.waiting {
      assert Enabled(c, Log(cell)) && Winding(Log(cell));
    } else {
      assert c.books.waiting == map[];
      match c.stage
      case SettingUp =>
        if w :| 0 <= w < |c.workers| && !c.workers[w].Stopped? { WorkerCanMove(c, w); }
        else { assert Enabled(c, SetupDone) && Winding(SetupDone); }
      case Prepared => assert Enabled(c, Release) && Winding(Release);
      case Releasing =>
        if c.holders != {} { HolderCanExit(c); } else { assert Enabled(c, WarmStart) && Winding(WarmStart); }
      case Warming =>
        if c.loaders != {} { LoaderCanExit(c); } else { assert Enabled(c, WarmDone) && Winding(WarmDone); }
      case Ready => assert Enabled(c, MeasureStart) && Winding(MeasureStart);
      case Measuring =>
        if c.loaders != {} { LoaderCanExit(c); } else { assert Enabled(c, MeasureDone) && Winding(MeasureDone); }
    }
  }

  lemma {:induction false} WindingLength(c: Client, steps: seq<Step>)
    requires Inv(c) && Feasible(c, steps) && forall i :: 0 <= i < |steps| ==> Winding(steps[i])
    ensures Inv(Final(c, steps)) && |steps| + Potential(Final(c, steps)) <= Potential(c)
    decreases |steps|
  {
    if steps != [] {
      StepInv(c, steps[0]);
      WindingDecreases(c, steps[0]);
      WindingLength(Apply(c, steps[0]), steps[1..]);
    }
  }

  /**
   After any run `before`, however many requests it made, any continuation that starts no further
   holding or load request is bounded, and one that cannot go on has written the report.
   */
  lemma WindDownTheorem(n: nat, streams: nat, workers: nat, before: seq<Step>, steps: seq<Step>)
    requires streams >= 1 && Feasible(Init(n, streams, workers), before)
    requires var c := Final(Init(n, streams, workers), before);
             Feasible(c, steps) && forall i :: 0 <= i < |steps| ==> Winding(steps[i])
    ensures var c := Final(Init(n, streams, workers), before);
            && |steps| <= Potential(c)
            && (!CanWind(Final(c, steps)) ==> Final(c, steps).stage == Reported)
  {
    InitInv(n, streams, workers);
    RunInv(Init(n, streams, workers), before);
    var c := Final(Init(n, streams, workers), before);
    WindingLength(c, steps);
    if Final(c, steps).stage != Reported { Progress(Final(c, steps)); }
  }
}
