/**
 What a worker's records hold at the end (bench/load/offered.go), stated on the jobs it handled:
 which of them expired, succeeded, were rejected or failed, with which latency, and what each one
 did on the wire.
 */
module OfferedOutcomes {
  import opened Basics
  import opened OfferedWorker
  import Tally

  // -------------------------------------------------------------- one exchange

  /** What can go wrong on the way, in the order it is met; dialling only without a connection. */
  ghost function Obstacles(o: Options, plan: Plan, open: bool): seq<Option<Fault>> {
    [if open then None else plan.dialError, plan.deadlineError, plan.writeError,
     if plan.written == o.requestBytes then None else Some(SHORT_WRITE),
     plan.readError, plan.bodyError, plan.closeError]
  }

  /** None of the first `k` obstacles is there. */
  ghost predicate Passes(obstacles: seq<Option<Fault>>, k: nat)
    requires k <= |obstacles|
  {
    forall i :: 0 <= i < k ==> obstacles[i].None?
  }

  /** The first obstacle that is there, if any. */
  ghost function First(obstacles: seq<Option<Fault>>): Option<Fault> {
    if obstacles == [] then None else if obstacles[0].Some? then obstacles[0] else First(obstacles[1..])
  }

  lemma {:induction false} FirstIs(obstacles: seq<Option<Fault>>, k: nat)
    requires k <= |obstacles| && Passes(obstacles, k) && (k < |obstacles| ==> obstacles[k].Some?)
    ensures First(obstacles) == if k < |obstacles| then obstacles[k] else None
  {
    if k > 0 { FirstIs(obstacles[1..], k - 1); }
  }

  /** Why a started job does not succeed: the first obstacle, or a complete response that is not a 200. */
  ghost function Reason(o: Options, plan: Plan, open: bool): Option<Failure> {
    var fault := First(Obstacles(o, plan, open));
    if fault.Some? then Some(Other(fault.value))
    else if plan.status == 200 then None
    else Some(HttpFailure(plan.status))
  }

  /** How many obstacles an exchange gets past. */
  ghost function Passed(o: Options, plan: Plan, open: bool): (k: nat)
    ensures var obstacles := Obstacles(o, plan, open);
            k <= 7 && Passes(obstacles, k) && (k < 7 ==> obstacles[k].Some?)
  {
    if !open && plan.dialError.Some? then 0
    else if plan.deadlineError.Some? then 1
    else if plan.writeError.Some? then 2
    else if plan.written != o.requestBytes then 3
    else if plan.readError.Some? then 4
    else if plan.bodyError.Some? then 5
    else if plan.closeError.Some? then 6
    else 7
  }

  /** An exchange dials, connects, writes and sends as far as the obstacles let it, and says what stopped it. */
  lemma ExchangeMeans(o: Options, c: Client, plan: Plan)
    ensures var x, obstacles := Exchanged(o, c, plan), Obstacles(o, plan, c.open);
            && x.dialed == !c.open
            && x.connected == (!c.open && Passes(obstacles, 1))
            && x.written == (if Passes(obstacles, 2) then plan.written else 0)
            && x.sent == Passes(obstacles, 4)
            && x.err == Reason(o, plan, c.open)
  {
    FirstIs(Obstacles(o, plan, c.open), Passed(o, plan, c.open));
  }

  /** The connection after a started job: gone after an obstacle, at its limit, or when either side is done. */
  ghost function Next(o: Options, c: Client, plan: Plan): Client {
    if First(Obstacles(o, plan, c.open)).Some? then Client(false, 0)
    else if plan.closes || o.churn || (o.maxRequests != 0 && c.requests + 1 >= o.maxRequests) then Client(false, 0)
    else Client(true, c.requests + 1)
  }

  lemma NextMeans(o: Options, c: Client, plan: Plan)
    ensures AfterClient(Exchanged(o, c, plan)) == Next(o, c, plan)
  {
    FirstIs(Obstacles(o, plan, c.open), Passed(o, plan, c.open));
  }

  datatype Class = Late | Success | Rejection | Failed

  /** Taken up in time, and before its phase ends. */
  ghost predicate Timely(o: Options, end: int, job: Job) {
    job.started - job.scheduled <= o.maxLag && job.started < end
  }

  /** What becomes of a job when the connection is open or not. */
  ghost function ClassOf(o: Options, end: int, open: bool, job: Job): Class {
    if !Timely(o, end, job) then Late
    else
      match Reason(o, job.plan, open)
      case None => Success
      case Some(failure) => if "http_" <= Kind(failure) then Rejection else Failed
  }

  /** The later record has the job added to the records of class `c` only. */
  ghost predicate Adds(end: int, job: Job, c: Class, r: Outcome, later: Outcome) {
    && later.expired == r.expired + (if c == Late then 1 else 0)
    && later.success == r.success + (if c == Success then [job.finished - job.scheduled] else [])
    && later.service == r.service + (if c == Success then [job.finished - job.started] else [])
    && later.rejected == r.rejected + (if c == Rejection then [job.finished - job.scheduled] else [])
    && later.failed == r.failed + (if c == Failed then [job.finished - job.scheduled] else [])
    && later.windowSuccesses == r.windowSuccesses + (if c == Success && job.finished < end then 1 else 0)
  }

  lemma RecordedEnds(o: Options, end: int, c: Client, r: Outcome, job: Job)
    ensures Adds(end, job, ClassOf(o, end, c.open, job), r, OfferedWorker.Recorded(o, end, c, r, job).1)
  {
    ExchangeMeans(o, c, job.plan);
  }

  lemma RecordedKinds(o: Options, end: int, c: Client, r: Outcome, job: Job)
    ensures var reason := Reason(o, job.plan, c.open);
            OfferedWorker.Recorded(o, end, c, r, job).1.failures ==
              if Timely(o, end, job) && reason.Some? then Tally.Add(r.failures, Kind(reason.value), 1) else r.failures
  {
    ExchangeMeans(o, c, job.plan);
  }

  /** Started, and past the first `n` obstacles. */
  ghost predicate Got(o: Options, end: int, open: bool, job: Job, n: nat)
    requires n <= 7
  {
    Timely(o, end, job) && Passes(Obstacles(o, job.plan, open), n)
  }

  lemma RecordedWire(o: Options, end: int, c: Client, r: Outcome, job: Job)
    ensures var r' := OfferedWorker.Recorded(o, end, c, r, job).1;
            && r'.started == r.started + (if Got(o, end, c.open, job, 0) then 1 else 0)
            && r'.dialAttempts == r.dialAttempts + (if Got(o, end, c.open, job, 0) && !c.open then 1 else 0)
            && r'.connections == r.connections + (if Got(o, end, c.open, job, 1) && !c.open then 1 else 0)
            && r'.writtenBytes == r.writtenBytes + (if Got(o, end, c.open, job, 2) then job.plan.written else 0)
            && r'.sent == r.sent + (if Got(o, end, c.open, job, 4) then 1 else 0)
  {
    ExchangeMeans(o, c, job.plan);
  }

  // -------------------------------------------------------------- whole job lists

  /** Job `k` is handled in time and before its phase ends. */
  ghost predicate InTime(run: JobRun, k: nat)
    requires RunOk(run) && k < |run.jobs|
  {
    Timely(run.o, run.ends[run.jobs[k].phase], run.jobs[k])
  }

  /** The connection before job `k`, from the jobs before it. */
  ghost function Connection(run: JobRun, k: nat): Client
    requires RunOk(run) && k <= |run.jobs|
  {
    if k == 0 then run.w.client
    else if InTime(run, k - 1) then Next(run.o, Connection(run, k - 1), run.jobs[k - 1].plan)
    else Connection(run, k - 1)
  }

  ghost predicate FailsAs(run: JobRun, k: nat, kind: string)
    requires RunOk(run) && k < |run.jobs|
  {
    var reason := Reason(run.o, run.jobs[k].plan, Connection(run, k).open);
    InTime(run, k) && reason.Some? && Kind(reason.value) == kind
  }

  /** Job `k` belongs to phase `p` and ends in class `c`. */
  ghost predicate Is(run: JobRun, p: nat, k: nat, c: Class)
    requires RunOk(run) && k < |run.jobs|
  {
    run.jobs[k].phase == p && ClassOf(run.o, run.ends[p], Connection(run, k).open, run.jobs[k]) == c
  }

  /** In order, how long after their instants the jobs of phase `p` and class `c` among the first `k` finished. */
  ghost function Latencies(run: JobRun, p: nat, c: Class, k: nat): seq<int>
    requires RunOk(run) && k <= |run.jobs|
  {
    if k == 0 then []
    else Latencies(run, p, c, k - 1)
         + if Is(run, p, k - 1, c) then [run.jobs[k - 1].finished - run.jobs[k - 1].scheduled] else []
  }

  /** In order, how long after their start the successes of phase `p` finished. */
  ghost function Services(run: JobRun, p: nat, k: nat): seq<int>
    requires RunOk(run) && k <= |run.jobs|
  {
    if k == 0 then []
    else Services(run, p, k - 1)
         + if Is(run, p, k - 1, Success) then [run.jobs[k - 1].finished - run.jobs[k - 1].started] else []
  }

  ghost function LateCount(run: JobRun, p: nat, k: nat): nat
    requires RunOk(run) && k <= |run.jobs|
  {
    if k == 0 then 0 else LateCount(run, p, k - 1) + if Is(run, p, k - 1, Late) then 1 else 0
  }

  /** Successes of phase `p` that finished before its end. */
  ghost function InWindow(run: JobRun, p: nat, k: nat): nat
    requires RunOk(run) && k <= |run.jobs|
  {
    if k == 0 then 0
    else InWindow(run, p, k - 1)
         + if Is(run, p, k - 1, Success) && run.jobs[k - 1].finished < run.ends[p] then 1 else 0
  }

  /** Started jobs of phase `p` that ended with a failure of this kind. */
  ghost function OfKind(run: JobRun, p: nat, kind: string, k: nat): nat
    requires RunOk(run) && k <= |run.jobs|
  {
    if k == 0 then 0
    else OfKind(run, p, kind, k - 1)
         + if run.jobs[k - 1].phase == p && FailsAs(run, k - 1, kind) then 1 else 0
  }

  /** Job `k` of phase `p` was started and met none of the first `n` obstacles. */
  ghost predicate Gets(run: JobRun, p: nat, k: nat, n: nat)
    requires RunOk(run) && k < |run.jobs| && n <= 7
  {
    run.jobs[k].phase == p && Got(run.o, run.ends[p], Connection(run, k).open, run.jobs[k], n)
  }

  /** How many jobs of phase `p` got that far; `closed` counts those without an open connection only. */
  ghost function Reaching(run: JobRun, p: nat, n: nat, closed: bool, k: nat): nat
    requires RunOk(run) && k <= |run.jobs| && n <= 7
  {
    if k == 0 then 0
    else Reaching(run, p, n, closed, k - 1)
         + if Gets(run, p, k - 1, n) && (closed ==> !Connection(run, k - 1).open) then 1 else 0
  }

  ghost function Written(run: JobRun, p: nat, k: nat): nat
    requires RunOk(run) && k <= |run.jobs|
  {
    if k == 0 then 0 else Written(run, p, k - 1) + if Gets(run, p, k - 1, 2) then run.jobs[k - 1].plan.written else 0
  }

  /** The record of phase `p` says which of the first `k` jobs ended how, and when. */
  ghost predicate SaysEnds(run: JobRun, p: nat, r: Outcome, k: nat)
    requires RunOk(run) && k <= |run.jobs|
  {
    && r.expired == LateCount(run, p, k)
    && r.success == Latencies(run, p, Success, k)
    && r.service == Services(run, p, k)
    && r.rejected == Latencies(run, p, Rejection, k)
    && r.failed == Latencies(run, p, Failed, k)
    && r.windowSuccesses == InWindow(run, p, k)
  }

  /** And what they did on the wire. */
  ghost predicate SaysWire(run: JobRun, p: nat, r: Outcome, k: nat)
    requires RunOk(run) && k <= |run.jobs|
  {
    && r.started == Reaching(run, p, 0, false, k)
    && r.dialAttempts == Reaching(run, p, 0, true, k)
    && r.connections == Reaching(run, p, 1, true, k)
    && r.writtenBytes == Written(run, p, k)
    && r.sent == Reaching(run, p, 4, false, k)
  }

  ghost predicate SaysKinds(run: JobRun, p: nat, r: Outcome, k: nat)
    requires RunOk(run) && k <= |run.jobs|
  {
    forall kind :: (if kind in r.failures then r.failures[kind] else 0) == OfKind(run, p, kind, k)
  }

  lemma WorkedNext(run: JobRun, k: nat)
    requires RunOk(run) && k < |run.jobs|
    ensures Worked(run.o, run.ends, run.w, run.jobs[..k + 1])
         == Handled(run.o, run.ends, Worked(run.o, run.ends, run.w, run.jobs[..k]), run.jobs[k])
  {
    assert run.jobs[..k + 1][..k] == run.jobs[..k];
  }

  /** The worker's connection is the one the jobs leave. */
  lemma {:induction false} ConnectionIs(run: JobRun, k: nat)
    requires RunOk(run) && k <= |run.jobs|
    ensures ClientBefore(run, k) == Connection(run, k)
  {
    if k > 0 {
      ConnectionIs(run, k - 1);
      WorkedNext(run, k - 1);
      NextMeans(run.o, Connection(run, k - 1), run.jobs[k - 1].plan);
    }
  }

  /** The record of phase `p` after `k` jobs. */
  ghost function After(run: JobRun, p: nat, k: nat): Outcome
    requires RunOk(run) && k <= |run.jobs| && p < |run.ends|
  {
    RecordOf(Worked(run.o, run.ends, run.w, run.jobs[..k]), p)
  }

  lemma AfterNext(run: JobRun, p: nat, k: nat)
    requires RunOk(run) && k < |run.jobs| && p < |run.ends|
    ensures After(run, p, k + 1) ==
              if run.jobs[k].phase == p
              then OfferedWorker.Recorded(run.o, run.ends[p], Connection(run, k), After(run, p, k), run.jobs[k]).1
              else After(run, p, k)
  {
    WorkedNext(run, k);
    ConnectionIs(run, k);
  }

  lemma EndsAdd(run: JobRun, p: nat, k: nat, c: Class, r: Outcome, later: Outcome)
    requires RunOk(run) && k < |run.jobs| && p < |run.ends| && SaysEnds(run, p, r, k)
    requires if run.jobs[k].phase == p then Adds(run.ends[p], run.jobs[k], c, r, later) else later == r
    requires forall d :: Is(run, p, k, d) <==> run.jobs[k].phase == p && c == d
    ensures SaysEnds(run, p, later, k + 1)
  {
  }

  lemma EndsNext(run: JobRun, p: nat, k: nat)
    requires RunOk(run) && k < |run.jobs| && p < |run.ends| && SaysEnds(run, p, After(run, p, k), k)
    ensures SaysEnds(run, p, After(run, p, k + 1), k + 1)
  {
    var r, c := After(run, p, k), Connection(run, k);
    AfterNext(run, p, k);
    RecordedEnds(run.o, run.ends[p], c, r, run.jobs[k]);
    EndsAdd(run, p, k, ClassOf(run.o, run.ends[p], c.open, run.jobs[k]), r, After(run, p, k + 1));
  }

  lemma WireNext(run: JobRun, p: nat, k: nat)
    requires RunOk(run) && k < |run.jobs| && p < |run.ends| && SaysWire(run, p, After(run, p, k), k)
    ensures SaysWire(run, p, After(run, p, k + 1), k + 1)
  {
    AfterNext(run, p, k);
    RecordedWire(run.o, run.ends[p], Connection(run, k), After(run, p, k), run.jobs[k]);
  }

  lemma KindsNext(run: JobRun, p: nat, k: nat)
    requires RunOk(run) && k < |run.jobs| && p < |run.ends| && SaysKinds(run, p, After(run, p, k), k)
    ensures SaysKinds(run, p, After(run, p, k + 1), k + 1)
  {
    AfterNext(run, p, k);
    RecordedKinds(run.o, run.ends[p], Connection(run, k), After(run, p, k), run.jobs[k]);
    var before, r := After(run, p, k).failures, After(run, p, k + 1).failures;
    forall kind ensures (if kind in r then r[kind] else 0) == OfKind(run, p, kind, k + 1) {
      assert (if kind in before then before[kind] else 0) == OfKind(run, p, kind, k);
    }
  }

  /**
   Over every job list, for every phase: exactly the jobs taken up too late or after the end of the
   phase are expired; the success latencies are, in order, from the instants to the ends of the
   started jobs that met no obstacle and got a 200, the service times from their starts; rejected
   and failed hold the others by outcome; and the counters count what reached the wire.
   */
  lemma {:induction false} RecordsSayWhatHappened(run: JobRun, p: nat, k: nat)
    requires RunOk(run) && k <= |run.jobs| && p < |run.ends| && run.w.results[p].None?
    ensures SaysEnds(run, p, After(run, p, k), k)
    ensures SaysWire(run, p, After(run, p, k), k)
    ensures SaysKinds(run, p, After(run, p, k), k)
  {
    if k > 0 {
      RecordsSayWhatHappened(run, p, k - 1);
      EndsNext(run, p, k - 1);
      WireNext(run, p, k - 1);
      KindsNext(run, p, k - 1);
    }
  }
}
