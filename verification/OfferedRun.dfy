/**
 A whole open-loop run (bench/load/offered.go): sharded schedulers, one bounded channel per shard,
 and several workers per channel, interleaved in any order.
 */
module OfferedRun {
  import opened Basics
  import opened OfferedRate
  import opened OfferedWorker
  import Arith
  import Tally

  /** The options `main` lets through to `runOffered`. */
  datatype RunOptions = RunOptions(
    shards: nat, connections: nat, queue: nat, phases: seq<Phase>, ends: seq<int>, worker: OfferedWorker.Options)
  {
    predicate Valid() {
      && 1 <= shards <= connections
      && |ends| == |phases|
      && forall p :: 0 <= p < |phases| ==> Accepted(phases[p])
    }
  }

  datatype Offer = Offer(phase: nat, scheduled: int)

  /** A scheduler walks its phase's offers `shard, shard + shards, ...`. */
  datatype Shard = Shard(phase: nat, index: nat, closed: bool, dropped: seq<nat>, jobs: seq<Offer>)

  datatype Activity = Idle | Holding(offer: Offer) | Exited

  datatype State = State(shards: seq<Shard>, activity: seq<Activity>, workers: seq<WorkerState>)

  datatype Step =
    | Enqueue(s: nat)
    | Handoff(s: nat, w: nat)
    | Drop(s: nat)
    | NextPhase(s: nat)
    | Close(s: nat)
    | Take(w: nat)
    | Process(w: nat, job: Job)
    | Exit(w: nat)

  function OfferCount(o: RunOptions, p: nat): nat
    requires o.Valid() && p < |o.phases|
  {
    OffersExact(o.phases[p]);
    Offers(o.phases[p])
  }

  function ShardOf(o: RunOptions, w: nat): nat
    requires o.Valid()
  {
    w % o.shards
  }

  function Init(o: RunOptions): State
    requires o.Valid()
  {
    State(seq(o.shards, s requires 0 <= s => Shard(0, s, false, seq(|o.phases|, _ => 0), [])),
          seq(o.connections, _ => Idle),
          seq(o.connections, _ => WorkerState(Client(false, 0), seq(|o.phases|, _ => None))))
  }

  ghost predicate ShardShape(o: RunOptions, sh: Shard) {
    && sh.phase <= |o.phases| && |sh.dropped| == |o.phases|
    && (sh.closed ==> sh.phase == |o.phases|)
    && forall i :: 0 <= i < |sh.jobs| ==> sh.jobs[i].phase < |o.phases|
  }

  ghost predicate WorkerShape(o: RunOptions, a: Activity, w: WorkerState) {
    && |w.results| == |o.phases|
    && (a.Holding? ==> a.offer.phase < |o.phases|)
    && WorkerOk(o.worker, w)
  }

  ghost predicate Shape(o: RunOptions, st: State) {
    && o.Valid()
    && |st.shards| == o.shards && |st.activity| == |st.workers| == o.connections
    && (forall s :: 0 <= s < o.shards ==> ShardShape(o, st.shards[s]))
    && (forall w :: 0 <= w < o.connections ==> WorkerShape(o, st.activity[w], st.workers[w]))
    && (forall w :: 0 <= w < o.connections && st.activity[w].Exited? ==>
          var sh := st.shards[ShardOf(o, w)]; sh.closed && sh.jobs == [])
  }

  /** The scheduler has an offer to place. */
  ghost predicate Offering(o: RunOptions, sh: Shard)
    requires o.Valid()
  {
    sh.phase < |o.phases| && sh.index < OfferCount(o, sh.phase)
  }

  ghost predicate Enabled(o: RunOptions, st: State, step: Step)
    requires Shape(o, st)
  {
    match step
    case Enqueue(s) => s < o.shards && Offering(o, st.shards[s]) && |st.shards[s].jobs| < o.queue
    case Handoff(s, w) =>
      && s < o.shards && w < o.connections && ShardOf(o, w) == s && Offering(o, st.shards[s])
      && st.activity[w] == Idle && st.shards[s].jobs == []
    case Drop(s) => s < o.shards && Offering(o, st.shards[s])
    case NextPhase(s) => s < o.shards && st.shards[s].phase < |o.phases| && !Offering(o, st.shards[s])
    case Close(s) => s < o.shards && st.shards[s].phase == |o.phases| && !st.shards[s].closed
    case Take(w) => w < o.connections && st.activity[w] == Idle && st.shards[ShardOf(o, w)].jobs != []
    case Process(w, job) =>
      w < o.connections && st.activity[w].Holding? && st.activity[w].offer == Offer(job.phase, job.scheduled)
    case Exit(w) =>
      w < o.connections && st.activity[w] == Idle && var sh := st.shards[ShardOf(o, w)]; sh.closed && sh.jobs == []
  }

  ghost function Placed(o: RunOptions, sh: Shard): Offer
    requires o.Valid() && Offering(o, sh)
  {
    Offer(sh.phase, Scheduled(o.phases, sh.phase, sh.index))
  }

  ghost function Apply(o: RunOptions, st: State, step: Step): State
    requires Shape(o, st) && Enabled(o, st, step)
  {
    match step
    case Enqueue(s) =>
      var sh := st.shards[s];
      st.(shards := st.shards[s := sh.(jobs := sh.jobs + [Placed(o, sh)], index := sh.index + o.shards)])
    case Handoff(s, w) =>
      var sh := st.shards[s];
      st.(shards := st.shards[s := sh.(index := sh.index + o.shards)],
          activity := st.activity[w := Holding(Placed(o, sh))])
    case Drop(s) =>
      var sh := st.shards[s];
      st.(shards := st.shards[s := sh.(dropped := sh.dropped[sh.phase := sh.dropped[sh.phase] + 1],
                                       index := sh.index + o.shards)])
    case NextPhase(s) =>
      var sh := st.shards[s];
      st.(shards := st.shards[s := sh.(phase := sh.phase + 1, index := s)])
    case Close(s) => st.(shards := st.shards[s := st.shards[s].(closed := true)])
    case Take(w) =>
      var s := ShardOf(o, w);
      var sh := st.shards[s];
      st.(shards := st.shards[s := sh.(jobs := sh.jobs[1..])], activity := st.activity[w := Holding(sh.jobs[0])])
    case Process(w, job) =>
      st.(activity := st.activity[w := Idle], workers := st.workers[w := Handled(o.worker, o.ends, st.workers[w], job)])
    case Exit(w) => st.(activity := st.activity[w := Exited])
  }

  // -------------------------------------------------------------- conservation

  /** How many of `index, index + stride, ...` are below `n`. */
  ghost function Strided(index: nat, n: nat, stride: nat): nat
    requires stride > 0
    decreases if index < n then n - index else 0
  {
    if index >= n then 0 else 1 + Strided(index + stride, n, stride)
  }

  /** Offers of phase `p` this scheduler has not yet placed. */
  ghost function Unscheduled(o: RunOptions, s: nat, sh: Shard, p: nat): nat
    requires o.Valid() && p < |o.phases|
  {
    if sh.phase > p then 0
    else Strided(if sh.phase == p then sh.index else s, OfferCount(o, p), o.shards)
  }

  ghost function Queued(jobs: seq<Offer>, p: nat): nat {
    if jobs == [] then 0 else (if jobs[0].phase == p then 1 else 0) + Queued(jobs[1..], p)
  }

  ghost function ShardPart(o: RunOptions, s: nat, sh: Shard, p: nat): nat
    requires o.Valid() && p < |o.phases| && ShardShape(o, sh)
  {
    Unscheduled(o, s, sh, p) + sh.dropped[p] + Queued(sh.jobs, p)
  }

  ghost function WorkerPart(o: RunOptions, a: Activity, w: WorkerState, p: nat): nat
    requires o.Valid() && p < |o.phases| && WorkerShape(o, a, w)
  {
    (if a.Holding? && a.offer.phase == p then 1 else 0) + Accounted(w.results[p])
  }

  ghost function ShardParts(o: RunOptions, st: State, p: nat): seq<nat>
    requires Shape(o, st) && p < |o.phases|
  {
    seq(o.shards, s requires 0 <= s < o.shards => ShardPart(o, s, st.shards[s], p))
  }

  ghost function WorkerParts(o: RunOptions, st: State, p: nat): seq<nat>
    requires Shape(o, st) && p < |o.phases|
  {
    seq(o.connections, w requires 0 <= w < o.connections => WorkerPart(o, st.activity[w], st.workers[w], p))
  }

  /** Not yet scheduled + dropped + queued + in flight + expired + succeeded + rejected + failed. */
  ghost function Everywhere(o: RunOptions, st: State, p: nat): nat
    requires Shape(o, st) && p < |o.phases|
  {
    Tally.Sum(ShardParts(o, st, p)) + Tally.Sum(WorkerParts(o, st, p))
  }

  ghost predicate Inv(o: RunOptions, st: State) {
    && Shape(o, st)
    && forall p :: 0 <= p < |o.phases| ==> Everywhere(o, st, p) == OfferCount(o, p)
  }

  lemma {:induction false} QueuedAppend(jobs: seq<Offer>, offer: Offer, p: nat)
    ensures Queued(jobs + [offer], p) == Queued(jobs, p) + if offer.phase == p then 1 else 0
  {
    if jobs == [] {
      assert jobs + [offer] == [offer];
    } else {
      assert (jobs + [offer])[1..] == jobs[1..] + [offer];
      QueuedAppend(jobs[1..], offer, p);
    }
  }

  // --------------------------------------------------------------- every step

  lemma StepShape(o: RunOptions, st: State, step: Step)
    requires Shape(o, st) && Enabled(o, st, step)
    ensures Shape(o, Apply(o, st, step))
  {
    if step.Process? && |o.phases| > 0 {
      HandledOk(o.worker, o.ends, st.workers[step.w], step.job, 0);
    }
  }

  /** Changing one shard moves the sum by that shard's change. */
  lemma ShardMoved(o: RunOptions, st: State, t: State, s: nat, p: nat)
    requires Shape(o, st) && Shape(o, t) && s < o.shards && p < |o.phases|
    requires t.shards == st.shards[s := t.shards[s]]
    ensures Tally.Sum(ShardParts(o, t, p)) + ShardPart(o, s, st.shards[s], p)
         == Tally.Sum(ShardParts(o, st, p)) + ShardPart(o, s, t.shards[s], p)
  {
    assert ShardParts(o, t, p) == ShardParts(o, st, p)[s := ShardPart(o, s, t.shards[s], p)];
    Tally.SumUpdate(ShardParts(o, st, p), s, ShardPart(o, s, t.shards[s], p));
  }

  lemma WorkerMoved(o: RunOptions, st: State, t: State, w: nat, p: nat)
    requires Shape(o, st) && Shape(o, t) && w < o.connections && p < |o.phases|
    requires t.activity == st.activity[w := t.activity[w]] && t.workers == st.workers[w := t.workers[w]]
    ensures Tally.Sum(WorkerParts(o, t, p)) + WorkerPart(o, st.activity[w], st.workers[w], p)
         == Tally.Sum(WorkerParts(o, st, p)) + WorkerPart(o, t.activity[w], t.workers[w], p)
  {
    assert WorkerParts(o, t, p) == WorkerParts(o, st, p)[w := WorkerPart(o, t.activity[w], t.workers[w], p)];
    Tally.SumUpdate(WorkerParts(o, st, p), w, WorkerPart(o, t.activity[w], t.workers[w], p));
  }

  lemma SchedulerStep(o: RunOptions, st: State, step: Step, p: nat)
    requires Shape(o, st) && Enabled(o, st, step) && p < |o.phases|
    requires step.Enqueue? || step.Drop? || step.NextPhase? || step.Close?
    ensures Shape(o, Apply(o, st, step)) && Everywhere(o, Apply(o, st, step), p) == Everywhere(o, st, p)
  {
    StepShape(o, st, step);
    var t, sh := Apply(o, st, step), st.shards[step.s];
    if step.Enqueue? { QueuedAppend(sh.jobs, Placed(o, sh), p); }
    assert ShardPart(o, step.s, t.shards[step.s], p) == ShardPart(o, step.s, sh, p);
    ShardMoved(o, st, t, step.s, p);
    assert WorkerParts(o, t, p) == WorkerParts(o, st, p);
  }

  lemma WorkerStep(o: RunOptions, st: State, step: Step, p: nat)
    requires Shape(o, st) && Enabled(o, st, step) && p < |o.phases|
    requires step.Process? || step.Exit?
    ensures Shape(o, Apply(o, st, step)) && Everywhere(o, Apply(o, st, step), p) == Everywhere(o, st, p)
  {
    StepShape(o, st, step);
    var t := Apply(o, st, step);
    if step.Process? { HandledOk(o.worker, o.ends, st.workers[step.w], step.job, p); }
    assert WorkerPart(o, t.activity[step.w], t.workers[step.w], p) ==
             WorkerPart(o, st.activity[step.w], st.workers[step.w], p);
    WorkerMoved(o, st, t, step.w, p);
    assert ShardParts(o, t, p) == ShardParts(o, st, p);
  }

  lemma TransferStep(o: RunOptions, st: State, step: Step, p: nat)
    requires Shape(o, st) && Enabled(o, st, step) && p < |o.phases|
    requires step.Handoff? || step.Take?
    ensures Shape(o, Apply(o, st, step)) && Everywhere(o, Apply(o, st, step), p) == Everywhere(o, st, p)
  {
    StepShape(o, st, step);
    var t, s := Apply(o, st, step), ShardOf(o, step.w);
    ShardMoved(o, st, t, s, p);
    WorkerMoved(o, st, t, step.w, p);
  }

  lemma StepInv(o: RunOptions, st: State, step: Step)
    requires Inv(o, st) && Enabled(o, st, step)
    ensures Inv(o, Apply(o, st, step))
  {
    StepShape(o, st, step);
    forall p | 0 <= p < |o.phases|
      ensures Everywhere(o, Apply(o, st, step), p) == OfferCount(o, p)
    {
      if step.Handoff? || step.Take? { TransferStep(o, st, step, p); }
      else if step.Process? || step.Exit? { WorkerStep(o, st, step, p); }
      else { SchedulerStep(o, st, step, p); }
    }
  }

  // ------------------------------------------------------------ initial state

  /** One more offer belongs to exactly one shard. */
  lemma {:induction false} StridedGrows(index: nat, n: nat, stride: nat)
    requires stride > 0
    ensures Strided(index, n + 1, stride) ==
              Strided(index, n, stride) + if index <= n && (n - index) % stride == 0 then 1 else 0
    decreases if index < n then n - index else 0
  {
    if index < n {
      StridedGrows(index + stride, n, stride);
      if index + stride <= n {
        assert (n - index) % stride == (n - index - stride) % stride by { ModShift(n - index - stride, stride); }
      } else {
        ModSmall(n - index, stride);
      }
    }
  }

  lemma ModShift(a: nat, d: nat)
    requires d > 0
    ensures (a + d) % d == a % d
  {
    var q := a / d;
    assert a == q * d + a % d;
    assert a + d == (q + 1) * d + a % d;
    Arith.DivUnique(a + d, d, q + 1, a % d);
  }

  lemma ModSmall(a: nat, d: nat)
    requires a < d
    ensures a % d == a
  {
  }

  /** A number is a whole number of strides past `s` exactly when its residue is `s`. */
  lemma Residue(n: nat, s: nat, stride: nat)
    requires s < stride
    ensures (s <= n && (n - s) % stride == 0) <==> n % stride == s
  {
    if s <= n {
      var q := (n - s) / stride;
      Arith.DivMod(n - s, stride);
      if (n - s) % stride == 0 {
        assert n == q * stride + s;
        Arith.DivUnique(n, stride, q, s);
      } else if n % stride == s {
        Arith.DivMod(n, stride);
        var m := n / stride;
        assert n - s == m * stride + 0;
        Arith.DivUnique(n - s, stride, m, 0);
      }
    } else {
      ModSmall(n, stride);
    }
  }

  ghost function Starts(n: nat, stride: nat): seq<nat>
    requires stride > 0
  {
    seq(stride, s requires 0 <= s < stride => Strided(s, n, stride))
  }

  /** The shards' strided walks cover every offer of a phase exactly once. */
  lemma {:induction false} ShardsCover(n: nat, stride: nat)
    requires stride > 0
    ensures Tally.Sum(Starts(n, stride)) == n
  {
    if n == 0 {
      Tally.SumZero(Starts(0, stride));
    } else {
      ShardsCover(n - 1, stride);
      var owner := (n - 1) % stride;
      var before, after := Starts(n - 1, stride), Starts(n, stride);
      forall s | 0 <= s < stride
        ensures after[s] == before[s] + if s == owner then 1 else 0
      {
        StridedGrows(s, n - 1, stride);
        Residue(n - 1, s, stride);
      }
      assert after == before[owner := before[owner] + 1];
      Tally.SumUpdate(before, owner, before[owner] + 1);
    }
  }

  lemma InitInv(o: RunOptions)
    requires o.Valid()
    ensures Inv(o, Init(o))
  {
    var st := Init(o);
    assert Shape(o, st);
    forall p | 0 <= p < |o.phases|
      ensures Everywhere(o, st, p) == OfferCount(o, p)
    {
      assert ShardParts(o, st, p) == Starts(OfferCount(o, p), o.shards);
      ShardsCover(OfferCount(o, p), o.shards);
      Tally.SumZero(WorkerParts(o, st, p));
    }
  }

  // ------------------------------------------------------------------ progress

  ghost function Ahead(o: RunOptions, s: nat, phase: nat, index: nat): nat
    requires o.Valid()
    decreases if phase < |o.phases| then |o.phases| - phase else 0
  {
    if phase >= |o.phases| then 0
    else Strided(index, OfferCount(o, phase), o.shards) + Ahead(o, s, phase + 1, s)
  }

  ghost function ShardWork(o: RunOptions, s: nat, sh: Shard): nat
    requires o.Valid() && ShardShape(o, sh)
  {
    4 * Ahead(o, s, sh.phase, sh.index) + (|o.phases| - sh.phase) + (if sh.closed then 0 else 1) + 3 * |sh.jobs|
  }

  ghost function ActivityWork(a: Activity): nat {
    match a case Holding(_) => 3 case Idle => 1 case Exited => 0
  }

  ghost function ShardWorks(o: RunOptions, st: State): seq<nat>
    requires Shape(o, st)
  {
    seq(o.shards, s requires 0 <= s < o.shards => ShardWork(o, s, st.shards[s]))
  }

  ghost function ActivityWorks(o: RunOptions, st: State): seq<nat>
    requires Shape(o, st)
  {
    seq(o.connections, w requires 0 <= w < o.connections => ActivityWork(st.activity[w]))
  }

  ghost function Measure(o: RunOptions, st: State): nat
    requires Shape(o, st)
  {
    Tally.Sum(ShardWorks(o, st)) + Tally.Sum(ActivityWorks(o, st))
  }

  lemma ShardWorkMoved(o: RunOptions, st: State, t: State, s: nat)
    requires Shape(o, st) && Shape(o, t) && s < o.shards && t.shards == st.shards[s := t.shards[s]]
    ensures Tally.Sum(ShardWorks(o, t)) + ShardWork(o, s, st.shards[s]) ==
              Tally.Sum(ShardWorks(o, st)) + ShardWork(o, s, t.shards[s])
  {
    assert ShardWorks(o, t) == ShardWorks(o, st)[s := ShardWork(o, s, t.shards[s])];
    Tally.SumUpdate(ShardWorks(o, st), s, ShardWork(o, s, t.shards[s]));
  }

  lemma ActivityMoved(o: RunOptions, st: State, t: State, w: nat)
    requires Shape(o, st) && Shape(o, t) && w < o.connections && t.activity == st.activity[w := t.activity[w]]
    ensures Tally.Sum(ActivityWorks(o, t)) + ActivityWork(st.activity[w]) ==
              Tally.Sum(ActivityWorks(o, st)) + ActivityWork(t.activity[w])
  {
    assert ActivityWorks(o, t) == ActivityWorks(o, st)[w := ActivityWork(t.activity[w])];
    Tally.SumUpdate(ActivityWorks(o, st), w, ActivityWork(t.activity[w]));
  }

  lemma AheadMoves(o: RunOptions, s: nat, sh: Shard)
    requires o.Valid() && sh.phase < |o.phases|
    ensures Ahead(o, s, sh.phase, sh.index) ==
            if Offering(o, sh) then Ahead(o, s, sh.phase, sh.index + o.shards) + 1 else Ahead(o, s, sh.phase + 1, s)
  {
  }

  lemma SchedulerDecreases(o: RunOptions, st: State, step: Step)
    requires Shape(o, st) && Enabled(o, st, step)
    requires step.Enqueue? || step.Drop? || step.NextPhase? || step.Close?
    ensures Shape(o, Apply(o, st, step)) && Measure(o, Apply(o, st, step)) < Measure(o, st)
  {
    StepShape(o, st, step);
    var t, sh := Apply(o, st, step), st.shards[step.s];
    if sh.phase < |o.phases| { AheadMoves(o, step.s, sh); }
    assert ShardWork(o, step.s, t.shards[step.s]) < ShardWork(o, step.s, sh);
    ShardWorkMoved(o, st, t, step.s);
    assert ActivityWorks(o, t) == ActivityWorks(o, st);
  }

  lemma TransferDecreases(o: RunOptions, st: State, step: Step)
    requires Shape(o, st) && Enabled(o, st, step) && (step.Handoff? || step.Take?)
    ensures Shape(o, Apply(o, st, step)) && Measure(o, Apply(o, st, step)) < Measure(o, st)
  {
    StepShape(o, st, step);
    var t, s := Apply(o, st, step), ShardOf(o, step.w);
    if step.Handoff? { AheadMoves(o, s, st.shards[s]); }
    ActivityMoved(o, st, t, step.w);
    ShardWorkMoved(o, st, t, s);
  }

  lemma StepDecreases(o: RunOptions, st: State, step: Step)
    requires Shape(o, st) && Enabled(o, st, step)
    ensures Shape(o, Apply(o, st, step)) && Measure(o, Apply(o, st, step)) < Measure(o, st)
  {
    if step.Process? || step.Exit? {
      StepShape(o, st, step);
      var t := Apply(o, st, step);
      ActivityMoved(o, st, t, step.w);
      assert ShardWorks(o, t) == ShardWorks(o, st);
    } else if step.Handoff? || step.Take? {
      TransferDecreases(o, st, step);
    } else {
      SchedulerDecreases(o, st, step);
    }
  }

  /** Schedulers have closed their channels and workers have drained them. */
  ghost predicate Finished(o: RunOptions, st: State)
    requires Shape(o, st)
  {
    && (forall s :: 0 <= s < o.shards ==> st.shards[s].closed)
    && (forall w :: 0 <= w < o.connections ==> st.activity[w].Exited?)
  }

  /** No interleaving gets stuck before both wait groups are done. */
  lemma Progress(o: RunOptions, st: State) returns (step: Step)
    requires Shape(o, st) && !Finished(o, st)
    ensures Enabled(o, st, step)
  {
    if s :| 0 <= s < o.shards && !st.shards[s].closed {
      var sh := st.shards[s];
      step := if Offering(o, sh) then Drop(s) else if sh.phase < |o.phases| then NextPhase(s) else Close(s);
    } else {
      var w :| 0 <= w < o.connections && !st.activity[w].Exited?;
      if st.activity[w].Holding? {
        var offer := st.activity[w].offer;
        var plan := Plan(None, None, 0, None, None, 0, None, None, false);
        step := Process(w, Job(offer.phase, offer.scheduled, 0, 0, plan));
      } else if st.shards[ShardOf(o, w)].jobs != [] {
        step := Take(w);
      } else {
        step := Exit(w);
      }
    }
  }

  // ------------------------------------------------------------------ theorems

  ghost predicate Feasible(o: RunOptions, st: State, steps: seq<Step>)
    requires Shape(o, st)
    decreases |steps|
  {
    steps == [] || (Enabled(o, st,
                            steps[0]) && (StepShape(o, st, steps[0]); Feasible(o, Apply(o, st, steps[0]), steps[1..])))
  }

  ghost function Final(o: RunOptions, st: State, steps: seq<Step>): State
    requires Shape(o, st) && Feasible(o, st, steps)
    decreases |steps|
  {
    if steps == [] then st else StepShape(o, st, steps[0]); Final(o, Apply(o, st, steps[0]), steps[1..])
  }

  lemma {:induction false} RunInv(o: RunOptions, st: State, steps: seq<Step>)
    requires Inv(o, st) && Feasible(o, st, steps)
    ensures Inv(o, Final(o, st, steps))
    ensures |steps| + Measure(o, Final(o, st, steps)) <= Measure(o, st)
    decreases |steps|
  {
    if steps != [] {
      StepInv(o, st, steps[0]);
      StepDecreases(o, st, steps[0]);
      RunInv(o, Apply(o, st, steps[0]), steps[1..]);
    }
  }

  ghost function Dropped(o: RunOptions, st: State, p: nat): seq<nat>
    requires Shape(o, st) && p < |o.phases|
  {
    seq(o.shards, s requires 0 <= s < o.shards => st.shards[s].dropped[p])
  }

  ghost function Recorded(o: RunOptions, st: State, p: nat): seq<nat>
    requires Shape(o, st) && p < |o.phases|
  {
    seq(o.connections, w requires 0 <= w < o.connections => OfferedWorker.Accounted(st.workers[w].results[p]))
  }

  /** What was dropped and recorded of a phase is what it offered. */
  ghost predicate Balanced(o: RunOptions, st: State, p: nat)
    requires Shape(o, st) && p < |o.phases|
  {
    Tally.Sum(Dropped(o, st, p)) + Tally.Sum(Recorded(o, st, p)) == OfferCount(o, p)
  }

  /** After both wait groups, every offer is dropped or in some worker's record. */
  lemma NothingLost(o: RunOptions, st: State, p: nat)
    requires Inv(o, st) && Finished(o, st) && p < |o.phases|
    ensures Balanced(o, st, p)
  {
    forall s | 0 <= s < o.shards
      ensures ShardPart(o, s, st.shards[s], p) == st.shards[s].dropped[p]
    {
      ModSmall(s, o.shards);
      assert st.activity[s].Exited? && ShardOf(o, s) == s;
    }
    assert ShardParts(o, st, p) == Dropped(o, st, p);
    assert WorkerParts(o, st, p) == Recorded(o, st, p);
  }

  /**
   Conservation of offers over every interleaving: in each reachable state each phase's offers are
   all somewhere, runs are bounded, and a run that cannot continue has accounted for every offer.
   */
  lemma OfferedTheorem(o: RunOptions, steps: seq<Step>, p: nat)
    requires o.Valid() && Feasible(o, (InitInv(o); Init(o)), steps) && p < |o.phases|
    ensures var st := Final(o, Init(o), steps);
            && Inv(o, st) && Everywhere(o, st, p) == OfferCount(o, p)
            && ((forall step :: !Enabled(o, st, step)) ==>
                  Finished(o, st) && Balanced(o, st, p))
    ensures |steps| <= Measure(o, Init(o))
  {
    InitInv(o);
    RunInv(o, Init(o), steps);
    var st := Final(o, Init(o), steps);
    if Finished(o, st) {
      NothingLost(o, st, p);
    } else {
      var step := Progress(o, st);
    }
  }

  /** The check at the end of `runOffered`, after any run that has ended: it never panics. */
  method FinalCheck(o: RunOptions, st: State, ghost steps: seq<Step>) returns (panics: bool)
    requires o.Valid() && Feasible(o, (InitInv(o); Init(o)), steps) && st == Final(o, Init(o), steps)
    requires Shape(o, st) && Finished(o, st)
    ensures !panics
  {
    InitInv(o);
    RunInv(o, Init(o), steps);
    forall p | 0 <= p < |o.phases| ensures Balanced(o, st, p) { NothingLost(o, st, p); }
    panics := CheckTotals(o, st);
  }

  /** The report loop: sum every worker's records and every shard's drops, phase by phase. */
  method CheckTotals(o: RunOptions, st: State) returns (panics: bool)
    requires Shape(o, st)
    ensures panics <==> exists p :: 0 <= p < |o.phases| && !Balanced(o, st, p)
  {
    panics := false;
    for p := 0 to |o.phases|
      invariant panics <==> exists q :: 0 <= q < p && !Balanced(o, st, q)
    {
      var accounted := 0;
      for w := 0 to o.connections
        invariant accounted == Tally.Sum(Recorded(o, st, p)[..w])
      {
        var result := st.workers[w].results[p];
        SumNext(Recorded(o, st, p), w);
        if result.Some? {
          var r := result.value;
          accounted := accounted + |r.success| + |r.rejected| + |r.failed| + r.expired;
        }
      }
      assert Recorded(o, st, p)[..o.connections] == Recorded(o, st, p);
      ghost var recorded := accounted;
      for s := 0 to o.shards
        invariant accounted == recorded + Tally.Sum(Dropped(o, st, p)[..s])
      {
        SumNext(Dropped(o, st, p), s);
        accounted := accounted + st.shards[s].dropped[p];
      }
      assert Dropped(o, st, p)[..o.shards] == Dropped(o, st, p);
      assert accounted == OfferCount(o, p) <==> Balanced(o, st, p);
      if accounted != OfferCount(o, p) { panics := true; }
    }
  }

  lemma SumNext(xs: seq<nat>, i: nat)
    requires i < |xs|
    ensures Tally.Sum(xs[..i + 1]) == Tally.Sum(xs[..i]) + xs[i]
  {
    assert xs[..i + 1] == xs[..i] + [xs[i]];
    assert [xs[i]][1..] == [];
    Tally.SumAppend(xs[..i], [xs[i]]);
  }

  // ------------------------------------------------------------- one scheduler

  datatype Verdict = Sent | TooLate | QueueFull

  datatype Placement = Placement(phase: nat, index: nat, now: int, verdict: Verdict)

  /** A shard's offers of one phase, in order. */
  ghost function Walk(index: nat, n: nat, stride: nat): seq<nat>
    requires stride > 0
    decreases if index < n then n - index else 0
  {
    if index >= n then [] else [index] + Walk(index + stride, n, stride)
  }

  lemma {:induction false} WalkLength(index: nat, n: nat, stride: nat)
    requires stride > 0
    ensures |Walk(index, n, stride)| == Strided(index, n, stride)
    decreases if index < n then n - index else 0
  {
    if index < n { WalkLength(index + stride, n, stride); }
  }

  /** Sleeping until `scheduled` and reading the clock again. */
  method SleepUntil(scheduled: int) returns (now: int)
    ensures now >= scheduled
  {
    now :| now >= scheduled;
  }

  ghost predicate PlacedWell(at: nat -> int, maxLag: int, x: Placement) {
    at(x.index) <= x.now && (x.verdict == TooLate <==> x.now - at(x.index) > maxLag)
  }

  /** Placements made so far, and what is still to come, make up the shard's walk. */
  ghost predicate Walking(log: seq<Placement>, at: nat -> int, maxLag: int, p: nat, first: nat, index: nat, n: nat,
                          stride: nat)
    requires stride > 0
  {
    && Indices(log) + Walk(index, n, stride) == Walk(first, n, stride)
    && forall i :: 0 <= i < |log| ==> log[i].phase == p && PlacedWell(at, maxLag, log[i])
  }

  /** The catch-up loop: place every offer due by `now`; at least one, when the first is due. */
  method CatchUp(at: nat -> int, maxLag: int, p: nat, ghost first: nat, start: nat, n: nat, stride: nat, now: int,
                 before: seq<Placement>)
    returns (log: seq<Placement>, index: nat)
    requires stride > 0 && start < n && at(start) <= now && Walking(before, at, maxLag, p, first, start, n, stride)
    ensures start < index && Walking(log, at, maxLag, p, first, index, n, stride)
    ensures index >= n || at(index) > now
  {
    log, index := before, start;
    while index < n && at(index) <= now
      invariant start <= index && (index == start ==> at(index) <= now)
      invariant Walking(log, at, maxLag, p, first, index, n, stride)
      decreases n - index
    {
      var accepted: bool := *;
      var verdict := if now - at(index) > maxLag then TooLate else if accepted then Sent else QueueFull;
      IndicesAppend(log, Placement(p, index, now, verdict));
      assert Indices(log) + ([index] + Walk(index + stride, n, stride)) ==
               (Indices(log) + [index]) + Walk(index + stride, n, stride);
      log := log + [Placement(p, index, now, verdict)];
      index := index + stride;
    }
  }

  /**
   One phase of one scheduler, for any clock readings and any channel: every offer of the shard is
   placed exactly once and in order, never before its instant, and is given up as too late exactly
   when it is behind by more than the lag limit.
   */
  method SchedulePhase(at: nat -> int, maxLag: int, p: nat, shard: nat, n: nat, stride: nat)
    returns (log: seq<Placement>)
    requires shard < stride
    ensures Indices(log) == Walk(shard, n, stride)
    ensures forall i :: 0 <= i < |log| ==> log[i].phase == p && PlacedWell(at, maxLag, log[i])
  {
    log := [];
    var index := shard;
    while index < n
      invariant Walking(log, at, maxLag, p, shard, index, n, stride)
      decreases n - index
    {
      var now: int := *;
      if at(index) > now {
        now := SleepUntil(at(index));
      }
      log, index := CatchUp(at, maxLag, p, shard, index, n, stride, now, log);
    }
  }

  /** All phases of one scheduler: as many placements per phase as the run's accounting starts from. */
  method ScheduleOffers(o: RunOptions, shard: nat, maxLag: int) returns (logs: seq<seq<Placement>>)
    requires o.Valid() && shard < o.shards
    ensures |logs| == |o.phases|
    ensures forall p :: 0 <= p < |o.phases| ==>
              && Indices(logs[p]) == Walk(shard, OfferCount(o, p), o.shards)
              && |Indices(logs[p])| == Unscheduled(o, shard, Init(o).shards[shard], p)
              && forall i :: 0 <= i < |logs[p]| ==>
                   logs[p][i].phase == p && PlacedOnTime(o, maxLag, p, logs[p][i])
  {
    logs := [];
    for p := 0 to |o.phases|
      invariant |logs| == p
      invariant forall q :: 0 <= q < p ==>
                  && Indices(logs[q]) == Walk(shard, OfferCount(o, q), o.shards)
                  && |Indices(logs[q])| == Unscheduled(o, shard, Init(o).shards[shard], q)
                  && forall i :: 0 <= i < |logs[q]| ==>
                       logs[q][i].phase == q && PlacedOnTime(o, maxLag, q, logs[q][i])
    {
      var log := SchedulePhase(Instants(o, p), maxLag, p, shard, OfferCount(o, p), o.shards);
      WalkLength(shard, OfferCount(o, p), o.shards);
      forall i | 0 <= i < |log| ensures PlacedOnTime(o, maxLag, p, log[i]) {
        IndexWalked(log, shard, OfferCount(o, p), o.shards, i);
        InstantsExact(o, p, log[i].index);
      }
      logs := logs + [log];
    }
  }

  /**
   Not placed before its instant, which is `index` times the mean distance of the phase's offers
   after the phases before it, and given up exactly when that is more than the limit ago.
   */
  ghost predicate PlacedOnTime(o: RunOptions, maxLag: int, p: nat, x: Placement)
    requires o.Valid() && p < |o.phases|
  {
    var due := TotalDuration(o.phases[..p]) + x.index * 1_000_000_000 / o.phases[p].rate;
    due <= x.now && (x.verdict == TooLate <==> x.now - due > maxLag)
  }

  lemma InstantsExact(o: RunOptions, p: nat, index: nat)
    requires o.Valid() && p < |o.phases| && index < OfferCount(o, p)
    ensures Instants(o, p)(index) == TotalDuration(o.phases[..p]) + index * 1_000_000_000 / o.phases[p].rate
  {
    ScheduledExact(o.phases, p, index);
  }

  lemma {:induction false} WalkInside(first: nat, n: nat, stride: nat, i: nat)
    requires stride > 0 && i < |Walk(first, n, stride)|
    ensures Walk(first, n, stride)[i] < n
    decreases if first < n then n - first else 0
  {
    if i > 0 { WalkInside(first + stride, n, stride, i - 1); }
  }

  lemma {:induction false} IndicesAt(log: seq<Placement>, i: nat)
    requires i < |log|
    ensures |Indices(log)| == |log| && Indices(log)[i] == log[i].index
  {
    if |log| > 1 { IndicesAt(log[1..], if i > 0 then i - 1 else 0); }
  }

  lemma IndexWalked(log: seq<Placement>, first: nat, n: nat, stride: nat, i: nat)
    requires stride > 0 && i < |log| && Indices(log) == Walk(first, n, stride)
    ensures log[i].index < n
  {
    IndicesAt(log, i);
    WalkInside(first, n, stride, i);
  }

  /** The scheduled instants of phase `p`. */
  function Instants(o: RunOptions, p: nat): nat -> int
    requires o.Valid() && p < |o.phases|
  {
    var start, phase := Start(o.phases, p), o.phases[p];
    (index: nat) => start + if phase.rate == 0 then 0 else Offset(phase, index)
  }

  ghost function Indices(log: seq<Placement>): seq<nat> {
    if log == [] then [] else [log[0].index] + Indices(log[1..])
  }

  lemma {:induction false} IndicesAppend(log: seq<Placement>, x: Placement)
    ensures Indices(log + [x]) == Indices(log) + [x.index]
  {
    if log == [] {
      assert log + [x] == [x];
    } else {
      assert (log + [x])[1..] == log[1..] + [x];
      IndicesAppend(log[1..], x);
    }
  }
}
