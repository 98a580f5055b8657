/**
 Which offers a run of the open-loop generator hands out, and what comes of them: every offer a
 scheduler gives away is one of its own, given once at its own instant, and is then queued, held by
 a worker or processed; and every worker's records are those of the jobs it processed.
 */
module OfferedIdentity {
  import opened Basics
  import opened OfferedRate
  import opened OfferedWorker
  import opened OfferedRun
  import OfferedOutcomes

  // ------------------------------------------------------------ offers by shard

  /** Offer `index` of phase `p`, at its instant. */
  ghost function Due(o: RunOptions, p: nat, index: nat): Offer
    requires o.Valid() && p < |o.phases|
  {
    Offer(p, TotalDuration(o.phases[..p]) + index * 1_000_000_000 / o.phases[p].rate)
  }

  /** The scheduler hands its next offer to the channel or to a worker. */
  ghost predicate Gives(s: nat, step: Step) { (step.Enqueue? || step.Handoff?) && step.s == s }

  /** What scheduler `s` gives away in some steps when it is at offer `index` of phase `phase`. */
  ghost function Given(o: RunOptions, s: nat, phase: nat, index: nat, steps: seq<Step>): seq<Offer>
    requires o.Valid()
    decreases |steps|
  {
    if steps == [] || phase >= |o.phases| then []
    else if Gives(s, steps[0]) then [Due(o, phase, index)] + Given(o, s, phase, index + o.shards, steps[1..])
    else if steps[0] == Drop(s) then Given(o, s, phase, index + o.shards, steps[1..])
    else if steps[0] == NextPhase(s) then Given(o, s, phase + 1, s, steps[1..])
    else Given(o, s, phase, index, steps[1..])
  }

  /** Worker `w` takes its offers from shard `s`. */
  ghost predicate Serves(shards: nat, w: nat, s: nat)
    requires shards > 0
  {
    w % shards == s
  }

  /** How often a worker of shard `s` processed the offer `x`. */
  ghost function Processed(shards: nat, s: nat, steps: seq<Step>, x: Offer): nat
    requires shards > 0
  {
    if steps == [] then 0 else ProcessedNow(shards, s, steps[0], x) + Processed(shards, s, steps[1..], x)
  }

  ghost function ProcessedNow(shards: nat, s: nat, step: Step, x: Offer): nat
    requires shards > 0
  {
    if step.Process? && Serves(shards, step.w, s) && x == Offer(step.job.phase, step.job.scheduled) then 1 else 0
  }

  ghost function Hand(shards: nat, s: nat, w: nat, a: Activity, x: Offer): nat
    requires shards > 0
  {
    if a == Holding(x) && Serves(shards, w, s) then 1 else 0
  }

  /** How many workers of shard `s` hold the offer `x`. */
  ghost function Hands(shards: nat, s: nat, activity: seq<Activity>, x: Offer): nat
    requires shards > 0
  {
    if activity == [] then 0
    else var w := |activity| - 1; Hands(shards, s, activity[..w], x) + Hand(shards, s, w, activity[w], x)
  }

  /** How often the offer `x` is in the channel of shard `s` and in its workers' hands. */
  ghost function InFlight(o: RunOptions, s: nat, st: State, x: Offer): nat
    requires o.Valid() && s < |st.shards|
  {
    multiset(st.shards[s].jobs)[x] + Hands(o.shards, s, st.activity, x)
  }

  lemma {:induction false} HandsUpdate(shards: nat, s: nat, activity: seq<Activity>, w: nat, a: Activity, x: Offer)
    requires shards > 0 && w < |activity|
    ensures Hands(shards, s, activity[w := a], x) + Hand(shards, s, w, activity[w], x)
         == Hands(shards, s, activity, x) + Hand(shards, s, w, a, x)
  {
    var k := |activity| - 1;
    if w < k {
      HandsUpdate(shards, s, activity[..k], w, a, x);
      assert activity[w := a][..k] == activity[..k][w := a];
    } else {
      assert activity[w := a][..k] == activity[..k];
    }
  }

  lemma {:induction false} NoHands(shards: nat, s: nat, activity: seq<Activity>, x: Offer)
    requires shards > 0 && forall w :: 0 <= w < |activity| ==> !activity[w].Holding?
    ensures Hands(shards, s, activity, x) == 0
  {
    if activity != [] { NoHands(shards, s, activity[..|activity| - 1], x); }
  }

  lemma PlacedIsDue(o: RunOptions, sh: Shard)
    requires o.Valid() && Offering(o, sh)
    ensures Placed(o, sh) == Due(o, sh.phase, sh.index)
  {
    ScheduledExact(o.phases, sh.phase, sh.index);
  }

  /** What one step gives away for scheduler `s`. */
  ghost function GivenNow(o: RunOptions, s: nat, sh: Shard, step: Step): seq<Offer>
    requires o.Valid()
  {
    if Gives(s, step) && sh.phase < |o.phases| then [Due(o, sh.phase, sh.index)] else []
  }

  lemma GivenStep(o: RunOptions, st: State, steps: seq<Step>, s: nat)
    requires Shape(o, st) && steps != [] && Enabled(o, st, steps[0]) && s < o.shards
    ensures var sh, later := st.shards[s], Apply(o, st, steps[0]).shards[s];
            Given(o, s, sh.phase, sh.index, steps) ==
              GivenNow(o, s, sh, steps[0]) + Given(o, s, later.phase, later.index, steps[1..])
  {
    var sh, step, later := st.shards[s], steps[0], Apply(o, st, steps[0]).shards[s];
    if Gives(s, step) || step == Drop(s) { assert later.index == sh.index + o.shards && later.phase == sh.phase; }
    else if step == NextPhase(s) { assert later.index == s && later.phase == sh.phase + 1; }
    else { assert later.phase == sh.phase && later.index == sh.index; }
  }

  lemma FirstCounted(jobs: seq<Offer>, x: Offer)
    requires jobs != []
    ensures multiset(jobs)[x] == multiset(jobs[1..])[x] + if jobs[0] == x then 1 else 0
  {
    assert jobs == [jobs[0]] + jobs[1..];
  }

  /** A step moves an offer from its scheduler to the channel or a worker, and on to the processed ones. */
  ghost predicate Moves(o: RunOptions, st: State, step: Step, s: nat, x: Offer)
    requires Shape(o, st) && Enabled(o, st, step) && s < o.shards
  {
    multiset(GivenNow(o, s, st.shards[s], step))[x] + InFlight(o, s, st, x)
      == InFlight(o, s, Apply(o, st, step), x) + ProcessedNow(o.shards, s, step, x)
  }

  lemma SchedulerMoves(o: RunOptions, st: State, step: Step, s: nat, x: Offer)
    requires Shape(o, st) && Enabled(o, st, step) && s < o.shards
    requires step.Enqueue? || step.Drop? || step.NextPhase? || step.Close?
    ensures Moves(o, st, step, s, x)
  {
    if step.Enqueue? { PlacedIsDue(o, st.shards[step.s]); }
  }

  lemma TransferMoves(o: RunOptions, st: State, step: Step, s: nat, x: Offer)
    requires Shape(o, st) && Enabled(o, st, step) && s < o.shards && (step.Handoff? || step.Take?)
    ensures Moves(o, st, step, s, x)
  {
    if step.Handoff? { PlacedIsDue(o, st.shards[step.s]); }
    else { FirstCounted(st.shards[ShardOf(o, step.w)].jobs, x); }
    HandsUpdate(o.shards, s, st.activity, step.w, Apply(o, st, step).activity[step.w], x);
  }

  lemma WorkerMoves(o: RunOptions, st: State, step: Step, s: nat, x: Offer)
    requires Shape(o, st) && Enabled(o, st, step) && s < o.shards && (step.Process? || step.Exit?)
    ensures Moves(o, st, step, s, x)
  {
    HandsUpdate(o.shards, s, st.activity, step.w, Apply(o, st, step).activity[step.w], x);
  }

  /** Over any steps: what was in flight and what was given away is in flight or processed, offer by offer. */
  lemma {:induction false} OffersConserved(o: RunOptions, st: State, steps: seq<Step>, s: nat, x: Offer)
    requires Shape(o, st) && Feasible(o, st, steps) && s < o.shards
    ensures var sh, last := st.shards[s], Final(o, st, steps);
            && Shape(o, last)
            && multiset(Given(o, s, sh.phase, sh.index, steps))[x] + InFlight(o, s, st, x)
               == InFlight(o, s, last, x) + Processed(o.shards, s, steps, x)
    decreases |steps|
  {
    if steps != [] {
      StepShape(o, st, steps[0]);
      if steps[0].Handoff? || steps[0].Take? { TransferMoves(o, st, steps[0], s, x); }
      else if steps[0].Process? || steps[0].Exit? { WorkerMoves(o, st, steps[0], s, x); }
      else { SchedulerMoves(o, st, steps[0], s, x); }
      OffersConserved(o, Apply(o, st, steps[0]), steps[1..], s, x);
      GivenStep(o, st, steps, s);
    }
  }

  // ------------------------------------------------------------------ channels

  ghost predicate EndsWith(whole: seq<Offer>, tail: seq<Offer>) {
    |tail| <= |whole| && whole[|whole| - |tail|..] == tail
  }

  lemma EndsWithOn(first: seq<Offer>, now: seq<Offer>, middle: seq<Offer>, rest: seq<Offer>, last: seq<Offer>)
    requires EndsWith(first + now, middle) && EndsWith(middle + rest, last)
    ensures EndsWith(first + (now + rest), last)
  {
    var whole := first + now;
    assert first + (now + rest) == whole + rest;
    assert (whole + rest)[|whole| - |middle|..] == middle + rest;
  }

  /** What a step does to a channel: only its scheduler adds to it, only its workers take from it. */
  lemma JobsAfter(o: RunOptions, st: State, step: Step, s: nat)
    requires Shape(o, st) && Enabled(o, st, step) && s < o.shards
    ensures var jobs, later := st.shards[s].jobs, Apply(o, st, step).shards[s].jobs;
            if step == Enqueue(s) then later == jobs + GivenNow(o, s, st.shards[s], step)
            else if step.Take? && ShardOf(o, step.w) == s then jobs != [] && later == jobs[1..]
            else later == jobs && (step.Handoff? && step.s == s ==> jobs == [])
  {
    if step == Enqueue(s) { PlacedIsDue(o, st.shards[s]); }
  }

  /** What a step leaves in a channel is the end of what was there with what it adds. */
  lemma StepQueues(o: RunOptions, st: State, step: Step, s: nat)
    requires Shape(o, st) && Enabled(o, st, step) && s < o.shards
    ensures EndsWith(st.shards[s].jobs + GivenNow(o, s, st.shards[s], step), Apply(o, st, step).shards[s].jobs)
  {
    JobsAfter(o, st, step, s);
    Ends(st.shards[s].jobs, GivenNow(o, s, st.shards[s], step));
  }

  lemma Ends(jobs: seq<Offer>, now: seq<Offer>)
    ensures EndsWith(jobs + now, jobs + now) && EndsWith(jobs + now, [])
    ensures now == [] ==> EndsWith(jobs + now, jobs) && (jobs != [] ==> EndsWith(jobs + now, jobs[1..]))
  {
    if now == [] { assert jobs + now == jobs; }
  }

  /** A channel is first in, first out: it holds the last offers put in, in order. */
  lemma {:induction false} ChannelOrder(o: RunOptions, st: State, steps: seq<Step>, s: nat)
    requires Shape(o, st) && Feasible(o, st, steps) && s < o.shards
    ensures var sh, last := st.shards[s], Final(o, st, steps);
            && s < |last.shards|
            && EndsWith(sh.jobs + Given(o, s, sh.phase, sh.index, steps), last.shards[s].jobs)
    decreases |steps|
  {
    var sh := st.shards[s];
    if steps == [] {
      assert sh.jobs + [] == sh.jobs;
    } else {
      StepShape(o, st, steps[0]);
      var t := Apply(o, st, steps[0]);
      StepQueues(o, st, steps[0], s);
      ChannelOrder(o, t, steps[1..], s);
      GivenStep(o, st, steps, s);
      EndsWithOn(sh.jobs, GivenNow(o, s, sh, steps[0]), t.shards[s].jobs,
                 Given(o, s, t.shards[s].phase, t.shards[s].index, steps[1..]), Final(o, t, steps[1..]).shards[s].jobs);
    }
  }

  /** And never more than its capacity. */
  lemma {:induction false} ChannelFits(o: RunOptions, st: State, steps: seq<Step>, s: nat)
    requires Shape(o, st) && Feasible(o, st, steps) && s < o.shards && |st.shards[s].jobs| <= o.queue
    ensures s < |Final(o, st, steps).shards| && |Final(o, st, steps).shards[s].jobs| <= o.queue
    decreases |steps|
  {
    if steps != [] {
      StepShape(o, st, steps[0]);
      ChannelFits(o, Apply(o, st, steps[0]), steps[1..], s);
    }
  }

  // ------------------------------------------------------------ only own offers

  /** `x` is offer `index` of its phase, which is in the walk of shard `s`. */
  ghost predicate Own(o: RunOptions, s: nat, x: Offer, index: nat)
    requires o.Valid()
  {
    x.phase < |o.phases| && index < OfferCount(o, x.phase) && index % o.shards == s && x == Due(o, x.phase, index)
  }

  /** Some offer of shard `s` that does not come before offer `index` of phase `phase`. */
  ghost predicate OwnFrom(o: RunOptions, s: nat, phase: nat, index: nat, x: Offer)
    requires o.Valid()
  {
    exists i: nat :: Own(o, s, x, i) && (x.phase > phase || (x.phase == phase && i >= index))
  }

  ghost predicate Increasing(offers: seq<Offer>) {
    forall i, j :: 0 <= i < j < |offers| ==> offers[i].scheduled < offers[j].scheduled
  }

  lemma OwnLater(o: RunOptions, s: nat, p: nat, i: nat, q: nat, j: nat, x: Offer)
    requires o.Valid() && OwnFrom(o, s, q, j, x) && (q > p || (q == p && j >= i))
    ensures OwnFrom(o, s, p, i, x)
  {
    var k: nat :| Own(o, s, x, k) && (x.phase > q || (x.phase == q && k >= j));
    assert x.phase > p || (x.phase == p && k >= i);
  }

  lemma DueBefore(o: RunOptions, s: nat, p: nat, index: nat, x: Offer)
    requires o.Valid() && p < |o.phases| && index < OfferCount(o, p) && OwnFrom(o, s, p, index + o.shards, x)
    ensures Due(o, p, index).scheduled < x.scheduled
  {
    var i: nat :| Own(o, s, x, i) && (x.phase > p || (x.phase == p && i >= index + o.shards));
    ScheduleIncreases(o.phases, p, index, x.phase, i);
    ScheduledExact(o.phases, p, index);
    ScheduledExact(o.phases, x.phase, i);
  }

  /** The walk of a scheduler stays on its own offers. */
  lemma WalkKept(o: RunOptions, st: State, step: Step, s: nat)
    requires Shape(o, st) && Enabled(o, st, step) && s < o.shards && st.shards[s].index % o.shards == s
    ensures var sh, later := st.shards[s], Apply(o, st, step).shards[s];
            && later.index % o.shards == s
            && (later.phase > sh.phase || (later.phase == sh.phase && later.index >= sh.index))
            && (GivenNow(o, s, sh, step) != [] ==>
                 Offering(o, sh) && later.phase == sh.phase && later.index == sh.index + o.shards)
  {
    ModShift(st.shards[s].index, o.shards);
    ModSmall(s, o.shards);
  }

  /** A scheduler gives away its own offers only, each at its instant, in order and so none twice. */
  lemma {:induction false} OwnOffersOnly(o: RunOptions, st: State, steps: seq<Step>, s: nat)
    requires Shape(o, st) && Feasible(o, st, steps) && s < o.shards && st.shards[s].index % o.shards == s
    ensures var sh := st.shards[s];
            && (forall x :: x in Given(o, s, sh.phase, sh.index, steps) ==> OwnFrom(o, s, sh.phase, sh.index, x))
            && Increasing(Given(o, s, sh.phase, sh.index, steps))
    decreases |steps|
  {
    if steps != [] {
      StepShape(o, st, steps[0]);
      var t, sh := Apply(o, st, steps[0]), st.shards[s];
      var later := t.shards[s];
      var rest := Given(o, s, later.phase, later.index, steps[1..]);
      WalkKept(o, st, steps[0], s);
      OwnOffersOnly(o, t, steps[1..], s);
      GivenStep(o, st, steps, s);
      forall x | x in rest ensures OwnFrom(o, s, sh.phase, sh.index, x) {
        OwnLater(o, s, sh.phase, sh.index, later.phase, later.index, x);
      }
      if GivenNow(o, s, sh, steps[0]) != [] {
        assert Own(o, s, Due(o, sh.phase, sh.index), sh.index);
        forall x | x in rest ensures Due(o, sh.phase, sh.index).scheduled < x.scheduled {
          DueBefore(o, s, sh.phase, sh.index, x);
        }
      }
    }
  }

  // ----------------------------------------------------------------- the workers

  /** The jobs worker `w` processed, in order. */
  ghost function JobsOf(steps: seq<Step>, w: nat): seq<Job> {
    if steps == [] then []
    else (if steps[0].Process? && steps[0].w == w then [steps[0].job] else []) + JobsOf(steps[1..], w)
  }

  lemma {:induction false} WorkedFirst(o: Options, ends: seq<int>, w: WorkerState, job: Job, rest: seq<Job>)
    requires |w.results| == |ends| && job.phase < |ends| && forall i :: 0 <= i < |rest| ==> rest[i].phase < |ends|
    ensures Worked(o, ends, w, [job] + rest) == Worked(o, ends, Handled(o, ends, w, job), rest)
  {
    var jobs, k := [job] + rest, |rest|;
    if rest == [] {
      assert jobs == [job] && jobs[..0] == [];
    } else {
      assert jobs[..k] == [job] + rest[..k - 1] && jobs[k] == rest[k - 1];
      WorkedFirst(o, ends, w, job, rest[..k - 1]);
    }
  }

  /** A worker's state is what the jobs it processed make of it. */
  lemma {:induction false} WorkerHistory(o: RunOptions, st: State, steps: seq<Step>, w: nat)
    requires Shape(o, st) && Feasible(o, st, steps) && w < o.connections
    ensures Shape(o, Final(o, st, steps))
    ensures forall i :: 0 <= i < |JobsOf(steps, w)| ==> JobsOf(steps, w)[i].phase < |o.ends|
    ensures Final(o, st, steps).workers[w] == Worked(o.worker, o.ends, st.workers[w], JobsOf(steps, w))
    decreases |steps|
  {
    if steps != [] {
      StepShape(o, st, steps[0]);
      WorkerHistory(o, Apply(o, st, steps[0]), steps[1..], w);
      if steps[0].Process? && steps[0].w == w {
        WorkedFirst(o.worker, o.ends, st.workers[w], steps[0].job, JobsOf(steps[1..], w));
      } else {
        assert JobsOf(steps, w) == JobsOf(steps[1..], w);
        assert Apply(o, st, steps[0]).workers[w] == st.workers[w];
      }
    }
  }

  // ------------------------------------------------------------------ theorems

  ghost predicate IsRun(o: RunOptions, steps: seq<Step>) {
    o.Valid() && (InitInv(o); Feasible(o, Init(o), steps))
  }

  /** The state a run ends in. */
  ghost function End(o: RunOptions, steps: seq<Step>): (st: State)
    requires IsRun(o, steps)
    ensures Shape(o, st)
  {
    InitInv(o);
    RunInv(o, Init(o), steps);
    Final(o, Init(o), steps)
  }

  ghost predicate OwnOffer(o: RunOptions, s: nat, x: Offer)
    requires o.Valid()
  {
    exists index: nat :: Own(o, s, x, index)
  }

  /**
   In every state of every run: what a scheduler has given away is queued, held by one of its
   workers or processed, each offer as often as given.
   */
  lemma OffersTraced(o: RunOptions, steps: seq<Step>, s: nat, x: Offer)
    requires IsRun(o, steps) && s < o.shards
    ensures multiset(Given(o, s, 0, s, steps))[x] ==
              InFlight(o, s, End(o, steps), x) + Processed(o.shards, s, steps, x)
  {
    InitInv(o);
    OffersConserved(o, Init(o), steps, s, x);
    NoHands(o.shards, s, Init(o).activity, x);
  }

  /** It gives away only offers of its own, at the instants their rate gives them, in increasing order: none twice. */
  lemma OffersOwn(o: RunOptions, steps: seq<Step>, s: nat)
    requires IsRun(o, steps) && s < o.shards
    ensures forall x :: x in Given(o, s, 0, s, steps) ==> OwnOffer(o, s, x)
    ensures Increasing(Given(o, s, 0, s, steps))
  {
    InitInv(o);
    ModSmall(s, o.shards);
    OwnOffersOnly(o, Init(o), steps, s);
    forall x | x in Given(o, s, 0, s, steps) ensures OwnOffer(o, s, x) {
      assert OwnFrom(o, s, 0, s, x);
    }
  }

  /** Its channel holds the last offers given away, in the order given, and never more than its capacity. */
  lemma ChannelTraced(o: RunOptions, steps: seq<Step>, s: nat)
    requires IsRun(o, steps) && s < o.shards
    ensures EndsWith(Given(o, s, 0, s, steps), End(o, steps).shards[s].jobs)
    ensures |End(o, steps).shards[s].jobs| <= o.queue
  {
    InitInv(o);
    ChannelOrder(o, Init(o), steps, s);
    ChannelFits(o, Init(o), steps, s);
    assert [] + Given(o, s, 0, s, steps) == Given(o, s, 0, s, steps);
  }

  lemma {:induction false} HeldCounts(shards: nat, s: nat, activity: seq<Activity>, w: nat, x: Offer)
    requires shards > 0 && w < |activity| && Serves(shards, w, s) && activity[w] == Holding(x)
    ensures Hands(shards, s, activity, x) >= 1
  {
    if w < |activity| - 1 { HeldCounts(shards, s, activity[..|activity| - 1], w, x); }
  }

  /** So every offer in a channel, or in the hands of a worker, has the instant of one of its shard's offers. */
  lemma QueuedOrHeld(o: RunOptions, steps: seq<Step>, s: nat, w: nat, x: Offer)
    requires IsRun(o, steps) && s < o.shards
    requires x in End(o, steps).shards[s].jobs
             || (w < o.connections && Serves(o.shards, w, s) && End(o, steps).activity[w] == Holding(x))
    ensures OwnOffer(o, s, x)
  {
    OffersTraced(o, steps, s, x);
    OffersOwn(o, steps, s);
    var st := End(o, steps);
    if x !in st.shards[s].jobs { HeldCounts(o.shards, s, st.activity, w, x); }
    assert multiset(Given(o, s, 0, s, steps))[x] >= 1;
  }

  /** In every state of every run the records of a worker are those of the jobs it processed. */
  lemma RecordsTraced(o: RunOptions, steps: seq<Step>, w: nat, p: nat)
    requires IsRun(o, steps) && w < o.connections && p < |o.phases|
    ensures var run := JobRun(o.worker, o.ends, Init(o).workers[w], JobsOf(steps, w));
            var r := RecordOf(End(o, steps).workers[w], p);
            && RunOk(run)
            && OfferedOutcomes.SaysEnds(run, p, r, |run.jobs|)
            && OfferedOutcomes.SaysWire(run, p, r, |run.jobs|)
            && OfferedOutcomes.SaysKinds(run, p, r, |run.jobs|)
  {
    InitInv(o);
    WorkerHistory(o, Init(o), steps, w);
    var run := JobRun(o.worker, o.ends, Init(o).workers[w], JobsOf(steps, w));
    OfferedOutcomes.RecordsSayWhatHappened(run, p, |run.jobs|);
    assert run.jobs[..|run.jobs|] == run.jobs;
  }
}
