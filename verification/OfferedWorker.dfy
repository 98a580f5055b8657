/**
 A worker of the open-loop generator (bench/load/offered.go): one connection at a time, one
 outcome record per phase.  Everything the network decides is part of the job.
 */
module OfferedWorker {
  import opened Basics
  import opened Tally

  datatype Options = Options(churn: bool, maxRequests: nat, maxLag: int, requestBytes: nat)

  /** An error from the network or the response checks, as far as classification looks at it. */
  datatype Fault = Fault(op: Option<string>, timeout: bool, reset: bool, refused: bool, unavailable: bool, eof: bool)

  datatype Failure = HttpFailure(status: nat) | Other(fault: Fault)

  function Decimal(n: nat): string {
    if n < 10 then ["0123456789"[n]] else Decimal(n / 10) + ["0123456789"[n % 10]]
  }

  /** The failure's kind, in the order the classifier tests. */
  function Kind(failure: Failure): string {
    match failure
    case HttpFailure(status) => "http_" + Decimal(status)
    case Other(f) =>
      if f.op.Some? && f.timeout then f.op.value + "_timeout"
      else if f.reset then "connection_reset"
      else if f.refused then "connection_refused"
      else if f.unavailable then "source_address_unavailable"
      else if f.eof then "eof"
      else if f.op.Some? then "transport_error"
      else "invalid_response"
  }

  predicate IsRejection(kind: string) { "http_" <= kind }

  /** A timed-out network operation whose name makes its kind look like an HTTP status. */
  predicate NamedLikeStatus(failure: Failure) {
    failure.Other? && failure.fault.op.Some? && failure.fault.timeout && "http_" <= failure.fault.op.value + "_timeout"
  }

  /** Rejections are the complete HTTP error responses, and the timeouts named like one. */
  lemma RejectionIsHttp(failure: Failure)
    ensures IsRejection(Kind(failure)) <==> failure.HttpFailure? || NamedLikeStatus(failure)
  {
    if failure.Other? && !(failure.fault.op.Some? && failure.fault.timeout) {
      assert Kind(failure)[0] != 'h';
    }
  }

  /** An operation named `http` that timed out would be one, although no HTTP response came. */
  lemma TimeoutLooksRejected()
    ensures var failure := Other(Fault(Some("http"), true, false, false, false, false));
            Kind(failure) == "http_timeout" && IsRejection(Kind(failure)) && !failure.HttpFailure?
  {
  }

  /** A failure with one cause is counted under that cause's name; a timeout under its operation's. */
  lemma SingleCause(op: Option<string>, name: string, status: nat)
    ensures Kind(HttpFailure(status)) == "http_" + Decimal(status)
    ensures Kind(Other(Fault(Some(name), true, false, false, false, false))) == name + "_timeout"
    ensures Kind(Other(Fault(op, false, true, false, false, false))) == "connection_reset"
    ensures Kind(Other(Fault(op, false, false, true, false, false))) == "connection_refused"
    ensures Kind(Other(Fault(op, false, false, false, true, false))) == "source_address_unavailable"
    ensures Kind(Other(Fault(op, false, false, false, false, true))) == "eof"
    ensures Kind(Other(Fault(Some(name), false, false, false, false, false))) == "transport_error"
    ensures Kind(Other(SHORT_WRITE)) == Kind(Other(Fault(None, true, false, false, false, false))) == "invalid_response"
  {
  }

  /** The number written in decimal digits, most significant first. */
  ghost function Number(digits: string): int {
    if digits == [] then 0
    else 10 * Number(digits[..|digits| - 1]) + (digits[|digits| - 1] as int - '0' as int)
  }

  /** So every status has a kind of its own. */
  lemma {:induction false} DecimalNumber(n: nat)
    ensures Number(Decimal(n)) == n
  {
    var digit := ["0123456789"[n % 10]];
    if n >= 10 {
      DecimalNumber(n / 10);
      assert (Decimal(n / 10) + digit)[..|Decimal(n / 10)|] == Decimal(n / 10);
    } else {
      assert Decimal(n)[..0] == [];
    }
  }

  /** What happens if this job is started. */
  datatype Plan = Plan(
    dialError: Option<Fault>, deadlineError: Option<Fault>,
    written: nat, writeError: Option<Fault>, readError: Option<Fault>,
    status: nat, bodyError: Option<Fault>, closeError: Option<Fault>, closes: bool)

  /** An offer as the worker sees it: clock readings and the network's plan are oracles. */
  datatype Job = Job(phase: nat, scheduled: int, started: int, finished: int, plan: Plan)

  datatype Outcome = Outcome(
    started: nat, sent: nat, connections: nat, expired: nat, dialAttempts: nat, writtenBytes: nat,
    success: seq<int>, service: seq<int>, rejected: seq<int>, failed: seq<int>,
    failures: Counts, windowSuccesses: nat)

  const EMPTY := Outcome(0, 0, 0, 0, 0, 0, [], [], [], [], map[], 0)
  const SHORT_WRITE := Fault(None, false, false, false, false, false)

  datatype Client = Client(open: bool, requests: nat)

  datatype WorkerState = WorkerState(client: Client, results: seq<Option<Outcome>>)

  /** What one exchange did: the connection it leaves, the counters it moved and how it ended. */
  datatype Trace = Trace(client: Client, dialed: bool, connected: bool, written: nat, sent: bool, err: Option<Failure>)

  function Exchanged(o: Options, c: Client, plan: Plan): Trace {
    var dialed := !c.open;
    if dialed && plan.dialError.Some? then Trace(c, true, false, 0, false, Some(Other(plan.dialError.value)))
    else
      var c1 := c.(open := true);
      if plan.deadlineError.Some? then Trace(c1, dialed, dialed, 0, false, Some(Other(plan.deadlineError.value)))
      else if plan.writeError.Some? then Trace(c1, dialed, dialed, plan.written, false,
                                               Some(Other(plan.writeError.value)))
      else if plan.written != o.requestBytes then Trace(c1, dialed, dialed, plan.written, false,
                                                        Some(Other(SHORT_WRITE)))
      else
        var c2 := c1.(requests := c1.requests + 1);
        if plan.readError.Some? then Trace(c2, dialed, dialed, plan.written, true, Some(Other(plan.readError.value)))
        else if plan.bodyError.Some? then Trace(c2, dialed, dialed, plan.written, true,
                                                Some(Other(plan.bodyError.value)))
        else if plan.closeError.Some? then Trace(c2, dialed, dialed, plan.written, true,
                                                 Some(Other(plan.closeError.value)))
        else
          var done := plan.closes || o.churn || (o.maxRequests != 0 && c2.requests >= o.maxRequests);
          Trace(if done then Client(false, 0) else c2, dialed, dialed, plan.written, true,
                if plan.status != 200 then Some(HttpFailure(plan.status)) else None)
  }

  function One(b: bool): nat { if b then 1 else 0 }

  /** The record with an exchange's counters added. */
  function Tallied(r: Outcome, x: Trace): Outcome {
    r.(dialAttempts := r.dialAttempts + One(x.dialed), connections := r.connections + One(x.connected),
       writtenBytes := r.writtenBytes + x.written, sent := r.sent + One(x.sent))
  }

  function KindOf(err: Option<Failure>): Option<string> { if err.None? then None else Some(Kind(err.value)) }

  /** The record after an exchange that succeeded, or failed in the given way. */
  function Finished(end: int, r: Outcome, job: Job, kind: Option<string>): Outcome {
    if kind.None? then
      r.(success := r.success + [job.finished - job.scheduled], service := r.service + [job.finished - job.started],
         windowSuccesses := r.windowSuccesses + if job.finished < end then 1 else 0)
    else
      var r1 := r.(failures := Add(r.failures, kind.value, 1));
      if IsRejection(kind.value) then r1.(rejected := r1.rejected + [job.finished - job.scheduled])
      else r1.(failed := r1.failed + [job.finished - job.scheduled])
  }

  /** A job that comes too late, or after the end of its phase, is not started. */
  predicate Expired(o: Options, end: int, job: Job) { job.started - job.scheduled > o.maxLag || job.started >= end }

  /** The connection and the record after a job that was started. */
  function AfterClient(x: Trace): Client { if x.err.Some? && x.err.value.Other? then Client(false, 0) else x.client }

  function AfterRecord(end: int, r: Outcome, job: Job, x: Trace, kind: Option<string>): Outcome {
    Finished(end, Tallied(r.(started := r.started + 1), x), job, kind)
  }

  /** What one job does to the connection and its phase's record. */
  function Recorded(o: Options, end: int, c: Client, r: Outcome, job: Job): (Client, Outcome) {
    if Expired(o, end, job) then (c, r.(expired := r.expired + 1))
    else (AfterClient(Exchanged(o, c, job.plan)),
          AfterRecord(end, r, job, Exchanged(o, c, job.plan), KindOf(Exchanged(o, c, job.plan).err)))
  }

  function RecordOf(w: WorkerState, p: nat): Outcome
    requires p < |w.results|
  {
    if w.results[p].Some? then w.results[p].value else EMPTY
  }

  /** What one job does to the worker. */
  function Handled(o: Options, ends: seq<int>, w: WorkerState, job: Job): WorkerState
    requires job.phase < |w.results| == |ends|
  {
    var (c, r) := Recorded(o, ends[job.phase], w.client, RecordOf(w, job.phase), job);
    WorkerState(c, w.results[job.phase := Some(r)])
  }

  function Accounted(r: Option<Outcome>): nat {
    if r.None? then 0 else |r.value.success| + |r.value.rejected| + |r.value.failed| + r.value.expired
  }

  // ---------------------------------------------------------------- invariants

  /** The counters of a record agree with each other while `running` exchanges are unfinished. */
  ghost predicate Consistent(r: Outcome, running: nat) {
    && r.started == |r.success| + |r.rejected| + |r.failed| + running
    && Total(r.failures) == |r.rejected| + |r.failed|
    && |r.service| == |r.success|
    && r.windowSuccesses <= |r.success|
    && r.sent <= r.started
    && r.connections <= r.dialAttempts <= r.started
  }

  ghost predicate OutcomeOk(r: Outcome) { Consistent(r, 0) }

  /** An idle open connection may still carry a request; a closed one starts counting again. */
  ghost predicate ClientOk(o: Options, c: Client) {
    && (c.open ==> !o.churn && (o.maxRequests == 0 || c.requests < o.maxRequests))
    && (!c.open ==> c.requests == 0)
  }

  ghost predicate WorkerOk(o: Options, w: WorkerState) {
    && ClientOk(o, w.client)
    && forall p :: 0 <= p < |w.results| && w.results[p].Some? ==> OutcomeOk(w.results[p].value)
  }

  lemma ExchangedOk(o: Options, c: Client, plan: Plan)
    requires ClientOk(o, c)
    ensures var x := Exchanged(o, c, plan);
            && (x.connected ==> x.dialed)
            && (x.err.None? || x.err.value.HttpFailure? ==> ClientOk(o, x.client) && x.sent)
  {
  }

  /** An exchange moves only the connection counters, each at most once and dialling first. */
  lemma TalliedOk(r: Outcome, x: Trace)
    requires OutcomeOk(r) && (x.connected ==> x.dialed)
    ensures var r' := Tallied(r.(started := r.started + 1), x);
            Consistent(r', 1) && Accounted(Some(r')) == Accounted(Some(r))
  {
  }

  lemma FinishedOk(end: int, r: Outcome, job: Job, kind: Option<string>)
    requires Consistent(r, 1)
    ensures var r' := Finished(end, r, job, kind); Consistent(r', 0) && Accounted(Some(r')) == Accounted(Some(r)) + 1
  {
    if kind.Some? { TotalAdd(r.failures, kind.value, 1); }
  }

  lemma ExpiredOk(r: Outcome)
    requires OutcomeOk(r)
    ensures var r' := r.(expired := r.expired + 1); OutcomeOk(r') && Accounted(Some(r')) == Accounted(Some(r)) + 1
  {
  }

  lemma StartedOk(end: int, r: Outcome, job: Job, x: Trace, kind: Option<string>)
    requires OutcomeOk(r) && (x.connected ==> x.dialed)
    ensures OutcomeOk(AfterRecord(end, r, job, x, kind))
    ensures Accounted(Some(AfterRecord(end, r, job, x, kind))) == Accounted(Some(r)) + 1
  {
    TalliedOk(r, x);
    var running := Tallied(r.(started := r.started + 1), x);
    FinishedOk(end, running, job, kind);
    assert AfterRecord(end, r, job, x, kind) == Finished(end, running, job, kind);
  }

  lemma RecordedClient(o: Options, end: int, c: Client, r: Outcome, job: Job)
    requires ClientOk(o, c)
    ensures ClientOk(o, Recorded(o, end, c, r, job).0)
  {
    ExchangedOk(o, c, job.plan);
  }

  lemma RecordedOk(o: Options, end: int, c: Client, r: Outcome, job: Job)
    requires ClientOk(o, c) && OutcomeOk(r)
    ensures var r' := Recorded(o, end, c, r, job).1; OutcomeOk(r') && Accounted(Some(r')) == Accounted(Some(r)) + 1
  {
    if Expired(o, end, job) {
      ExpiredOk(r);
    } else {
      ExchangedOk(o, c, job.plan);
      StartedOk(end, r, job, Exchanged(o, c, job.plan), KindOf(Exchanged(o, c, job.plan).err));
    }
  }

  lemma EmptyOk()
    ensures OutcomeOk(EMPTY) && Accounted(Some(EMPTY)) == 0
  {
  }

  /** Every job is accounted once, in its own phase, and keeps the records consistent. */
  lemma HandledOk(o: Options, ends: seq<int>, w: WorkerState, job: Job, p: nat)
    requires WorkerOk(o, w) && job.phase < |w.results| == |ends| && p < |ends|
    ensures var w' := Handled(o, ends, w, job);
            && WorkerOk(o, w') && |w'.results| == |ends|
            && Accounted(w'.results[p]) == Accounted(w.results[p]) + if p == job.phase then 1 else 0
  {
    EmptyOk();
    RecordedClient(o, ends[job.phase], w.client, RecordOf(w, job.phase), job);
    RecordedOk(o, ends[job.phase], w.client, RecordOf(w, job.phase), job);
  }

  ghost function Jobs(jobs: seq<Job>, p: nat): nat {
    if jobs == [] then 0 else (if jobs[|jobs| - 1].phase == p then 1 else 0) + Jobs(jobs[..|jobs| - 1], p)
  }

  ghost function Worked(o: Options, ends: seq<int>, w: WorkerState, jobs: seq<Job>): (r: WorkerState)
    requires |w.results| == |ends| && forall i :: 0 <= i < |jobs| ==> jobs[i].phase < |ends|
    ensures |r.results| == |ends|
  {
    if jobs == [] then w else Handled(o, ends, Worked(o, ends, w, jobs[..|jobs| - 1]), jobs[|jobs| - 1])
  }

  lemma JobsNext(o: Options, ends: seq<int>, w: WorkerState, jobs: seq<Job>, k: nat)
    requires k < |jobs| && |w.results| == |ends| && forall i :: 0 <= i < |jobs| ==> jobs[i].phase < |ends|
    ensures Worked(o, ends, w, jobs[..k + 1]) == Handled(o, ends, Worked(o, ends, w, jobs[..k]), jobs[k])
  {
    assert jobs[..k + 1][..k] == jobs[..k];
  }

  /** From a fresh worker on, every job is accounted once in its phase and the records stay consistent. */
  lemma {:induction false} WorkedOk(o: Options, ends: seq<int>, w: WorkerState, jobs: seq<Job>)
    requires w == WorkerState(Client(false, 0), seq(|ends|, _ => None))
    requires forall i :: 0 <= i < |jobs| ==> jobs[i].phase < |ends|
    ensures WorkerOk(o, Worked(o, ends, w, jobs))
    ensures forall p :: 0 <= p < |ends| ==> Accounted(Worked(o, ends, w, jobs).results[p]) == Jobs(jobs, p)
  {
    if jobs != [] {
      var k := |jobs| - 1;
      WorkedOk(o, ends, w, jobs[..k]);
      var before := Worked(o, ends, w, jobs[..k]);
      HandledOk(o, ends, before, jobs[k], jobs[k].phase);
      forall p | 0 <= p < |ends| ensures Accounted(Worked(o, ends, w, jobs).results[p]) == Jobs(jobs, p) {
        HandledOk(o, ends, before, jobs[k], p);
      }
    }
  }

  /** A worker that starts in state `w` and handles `jobs`. */
  datatype JobRun = JobRun(o: Options, ends: seq<int>, w: WorkerState, jobs: seq<Job>)

  ghost predicate RunOk(run: JobRun) {
    |run.w.results| == |run.ends| && forall i :: 0 <= i < |run.jobs| ==> run.jobs[i].phase < |run.ends|
  }

  /** The connection before job `k`. */
  ghost function ClientBefore(run: JobRun, k: nat): Client
    requires RunOk(run) && k <= |run.jobs|
  {
    Worked(run.o, run.ends, run.w, run.jobs[..k]).client
  }

  /** Job `k` is started, and what its exchange does. */
  ghost predicate StartedAt(run: JobRun, k: nat)
    requires RunOk(run) && k < |run.jobs|
  {
    !Expired(run.o, run.ends[run.jobs[k].phase], run.jobs[k])
  }

  ghost function TraceAt(run: JobRun, k: nat): Trace
    requires RunOk(run) && k < |run.jobs|
  {
    Exchanged(run.o, ClientBefore(run, k), run.jobs[k].plan)
  }

  /** Job `j` opened a connection. */
  ghost predicate OpenedAt(run: JobRun, j: nat)
    requires RunOk(run) && j < |run.jobs|
  {
    StartedAt(run, j) && TraceAt(run, j).connected
  }

  /** Job `i` ended in a transport error. */
  ghost predicate ErredAt(run: JobRun, i: nat)
    requires RunOk(run) && i < |run.jobs|
  {
    StartedAt(run, i) && var err := TraceAt(run, i).err; err.Some? && err.value.Other?
  }

  ghost predicate OpenedBetween(run: JobRun, i: nat, k: nat)
    requires RunOk(run) && k <= |run.jobs|
  {
    exists j :: i < j < k && OpenedAt(run, j)
  }

  /** After one job the connection is open only if that job opened it or left it open without an error. */
  lemma OpenAfterJob(o: Options, end: int, c: Client, r: Outcome, job: Job)
    requires Recorded(o, end, c, r, job).0.open
    ensures Expired(o, end, job) ==> c.open
    ensures var x := Exchanged(o, c, job.plan);
            !Expired(o, end, job) ==> !(x.err.Some? && x.err.value.Other?) && (x.connected || c.open)
  {
  }

  lemma OpenAfter(run: JobRun, k: nat)
    requires RunOk(run) && k < |run.jobs| && ClientBefore(run, k + 1).open
    ensures !ErredAt(run, k) && (OpenedAt(run, k) || ClientBefore(run, k).open)
  {
    var job, before := run.jobs[k], Worked(run.o, run.ends, run.w, run.jobs[..k]);
    assert run.jobs[..k + 1][..k] == run.jobs[..k];
    OpenAfterJob(run.o, run.ends[job.phase], before.client, RecordOf(before, job.phase), job);
  }

  lemma BetweenGrows(run: JobRun, i: nat, k: nat)
    requires RunOk(run) && i <= k < |run.jobs|
    ensures OpenedBetween(run, i, k) || (i < k && OpenedAt(run, k)) ==> OpenedBetween(run, i, k + 1)
  {
    if OpenedBetween(run, i, k) {
      var j :| i < j < k && OpenedAt(run, j);
      assert i < j < k + 1;
    }
  }

  /** A connection that is open some time after a transport error was opened after it. */
  lemma {:induction false} OpenSinceError(run: JobRun, i: nat, k: nat)
    requires RunOk(run) && i < k <= |run.jobs| && ErredAt(run, i)
    ensures ClientBefore(run, k).open ==> OpenedBetween(run, i, k)
    decreases k
  {
    if ClientBefore(run, k).open {
      OpenAfter(run, k - 1);
      if !OpenedAt(run, k - 1) { OpenSinceError(run, i, k - 1); }
      BetweenGrows(run, i, k - 1);
    }
  }

  /**
   Over every job list: a connection that carried a transport error is never used again.  A later
   job either dials, or uses a connection that some job after the error opened.
   */
  lemma ErrorNeverReused(run: JobRun, i: nat, k: nat)
    requires RunOk(run) && i < k < |run.jobs| && ErredAt(run, i)
    ensures TraceAt(run, k).dialed || OpenedBetween(run, i, k)
    ensures k == i + 1 ==> TraceAt(run, k).dialed
  {
    OpenSinceError(run, i, k);
  }

  // ----------------------------------------------------------------- the object

  class Worker {
    const options: Options
    const ends: seq<int>
    var open: bool
    var requests: nat
    var results: seq<Option<Outcome>>

    ghost function State(): WorkerState
      reads this
    {
      WorkerState(Client(open, requests), results)
    }

    constructor (options: Options, ends: seq<int>)
      ensures this.options == options && this.ends == ends
      ensures State() == WorkerState(Client(false, 0), seq(|ends|, _ => None))
    {
      this.options, this.ends := options, ends;
      open, requests := false, 0;
      results := seq(|ends|, _ => None);
    }

    method Close()
      modifies this`open, this`requests
      ensures !open && requests == 0
    {
      if open { open := false; }
      requests := 0;
    }

    method Exchange(r: Outcome, plan: Plan) returns (result: Outcome, err: Option<Failure>)
      modifies this`open, this`requests
      ensures var x := Exchanged(options, old(Client(open, requests)), plan);
              Client(open, requests) == x.client && err == x.err && result == Tallied(r, x)
    {
      result := r;
      if !open {
        result := result.(dialAttempts := result.dialAttempts + 1);
        if plan.dialError.Some? { return result, Some(Other(plan.dialError.value)); }
        open := true;
        result := result.(connections := result.connections + 1);
      }
      if plan.deadlineError.Some? { return result, Some(Other(plan.deadlineError.value)); }
      result := result.(writtenBytes := result.writtenBytes + plan.written);
      if plan.writeError.Some? { return result, Some(Other(plan.writeError.value)); }
      if plan.written != options.requestBytes { return result, Some(Other(SHORT_WRITE)); }
      result := result.(sent := result.sent + 1);
      requests := requests + 1;
      if plan.readError.Some? { return result, Some(Other(plan.readError.value)); }
      if plan.bodyError.Some? { return result, Some(Other(plan.bodyError.value)); }
      if plan.closeError.Some? { return result, Some(Other(plan.closeError.value)); }
      if plan.closes || options.churn || (options.maxRequests != 0 && requests >= options.maxRequests) {
        Close();
      }
      err := if plan.status != 200 then Some(HttpFailure(plan.status)) else None;
    }

    /** After an exchange: the latencies of a success, or the failure's kind; only errors close the connection. */
    method Finish(r: Outcome, job: Job, err: Option<Failure>) returns (result: Outcome)
      requires job.phase < |ends|
      modifies this`open, this`requests
      ensures result == Finished(ends[job.phase], r, job, KindOf(err))
      ensures Client(open, requests) ==
                if err.Some? && err.value.Other? then Client(false, 0) else old(Client(open, requests))
    {
      if err.None? {
        result := r.(success := r.success + [job.finished - job.scheduled],
                     service := r.service + [job.finished - job.started]);
        if job.finished < ends[job.phase] {
          result := result.(windowSuccesses := result.windowSuccesses + 1);
        }
      } else {
        var kind := Kind(err.value);
        result := r.(failures := Add(r.failures, kind, 1));
        if IsRejection(kind) {
          result := result.(rejected := result.rejected + [job.finished - job.scheduled]);
        } else {
          result := result.(failed := result.failed + [job.finished - job.scheduled]);
        }
        if !err.value.HttpFailure? { Close(); }
      }
    }

    method Start(r: Outcome, job: Job) returns (result: Outcome)
      requires job.phase < |ends|
      modifies this`open, this`requests
      ensures var x := Exchanged(options, old(Client(open, requests)), job.plan);
              && result == AfterRecord(ends[job.phase], r, job, x, KindOf(x.err))
              && Client(open, requests) == AfterClient(x)
    {
      var err;
      result, err := Exchange(r.(started := r.started + 1), job.plan);
      result := Finish(result, job, err);
    }

    /** The body of the loop. */
    method HandleJob(job: Job)
      requires job.phase < |results| == |ends|
      modifies this
      ensures State() == Handled(options, ends, old(State()), job) && |results| == |ends|
    {
      var result := if results[job.phase].Some? then results[job.phase].value else EMPTY;
      if job.started - job.scheduled > options.maxLag || job.started >= ends[job.phase] {
        result := result.(expired := result.expired + 1);
      } else {
        result := Start(result, job);
      }
      results := results[job.phase := Some(result)];
    }

    /** One job: it is accounted once, records stay consistent and the connection below its limit. */
    method Handle(job: Job)
      requires job.phase < |results| == |ends|
      modifies this
      ensures State() == Handled(options, ends, old(State()), job) && |results| == |ends|
      ensures WorkerOk(options, old(State())) ==>
                && WorkerOk(options, State())
                && forall p :: 0 <= p < |ends| ==>
                     Accounted(results[p]) == Accounted(old(results[p])) + if p == job.phase then 1 else 0
    {
      HandleJob(job);
      forall p | 0 <= p < |ends| && WorkerOk(options, old(State()))
        ensures WorkerOk(options, State())
                && Accounted(results[p]) == Accounted(old(results[p])) + if p == job.phase then 1 else 0
      {
        HandledOk(options, ends, old(State()), job, p);
      }
    }

    /** The worker's loop over its channel: every received job is accounted exactly once. */
    method Work(jobs: seq<Job>)
      requires State() == WorkerState(Client(false, 0), seq(|ends|, _ => None))
      requires forall i :: 0 <= i < |jobs| ==> jobs[i].phase < |ends|
      modifies this
      ensures |results| == |ends| && WorkerOk(options, WorkerState(Client(false, 0), results))
      ensures forall p :: 0 <= p < |ends| ==> Accounted(results[p]) == Jobs(jobs, p)
      ensures results == Worked(options, ends, old(State()), jobs).results
      ensures !open && requests == 0
    {
      var i := 0;
      while i < |jobs|
        invariant i <= |jobs| && |results| == |ends|
        invariant State() == Worked(options, ends, old(State()), jobs[..i])
      {
        JobsNext(options, ends, old(State()), jobs, i);
        Handle(jobs[i]);
        i := i + 1;
      }
      assert jobs[..i] == jobs;
      WorkedOk(options, ends, old(State()), jobs);
      Close();
    }
  }
}
