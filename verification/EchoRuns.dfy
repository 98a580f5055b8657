/**
 Whole runs of the echo probe: what is transmitted is always what was received,
 no check fails, no party ever waits for nothing, and every run ends.
 */
module EchoRuns {
  import Ids
  import opened Basics
  import opened EchoModel
  import opened EchoInvariant
  import opened EchoSteps

  // ------------------------------------------------------------- termination

  ghost function Gap(total: nat, done: nat): nat { if done <= total then total - done else 0 }

  /** Bytes not yet moved across each of the six hops between client and client. */
  ghost function BytesLeft(c: Config, s: State): nat {
    Gap(c.Total(), s.client.written) + Gap(c.Total(), s.kernel.taken) + Gap(c.Total(), s.user.received)
    + Gap(c.Total(), |s.kernel.output|) + Gap(c.Total(), s.client.echoed) + Gap(c.Total(), s.user.sent)
  }

  ghost function ReceiveRank(c: Config, u: User, armed: bool): nat {
    if !u.receiving then (if u.received < c.Total() then 6 else 0) else if armed then 4 else 0
  }

  ghost function SendRank(u: User, send: SendOp): nat {
    if !u.sending then (if u.queue != [] then 12 else 0)
    else match send
      case Armed(_, _, _) => 10
      case Pinned(_, _, _) => 6
      case Transmitted(_) => 3
      case NoSend => 0
  }

  ghost function LoopRank(u: User, cancelPending: bool): nat {
    match u.pc
    case Top => 21
    case Waiting => 20
    case Draining => 10 + if cancelPending then 3 else 0
    case _ => 0
  }

  ghost function UnreadRank(k: Kernel): nat {
    2 * (|k.recvCq| + |k.sendCq| + |k.cancelCq|)
  }

  ghost function Rank(c: Config, u: User, k: Kernel): nat {
    ReceiveRank(c, u, k.recvArmed) + SendRank(u, k.send) + LoopRank(u, k.cancelPending) + UnreadRank(k)
  }

  /** Bytes left on every hop, the stage of each operation, and unread completions. */
  ghost function Measure(c: Config, s: State): nat {
    32 * BytesLeft(c, s) + (if s.client.closed then 0 else 1)
    + Rank(c, s.user, s.kernel)
  }

  /** The six counters never pass the total, so each hop's gap is the exact remainder. */
  lemma CountersBounded(c: Config, s: State)
    requires Inv(c, s)
    ensures s.user.sent <= s.user.received <= s.kernel.taken <= s.client.written <= c.Total()
    ensures s.user.sent <= |s.kernel.output| <= s.kernel.taken
    ensures s.client.echoed <= |s.kernel.output|
  {
    Balance(c, s);
  }

  lemma MeasureSmaller(c: Config, s: State, t: State)
    requires t.client == s.client
    requires || (BytesLeft(c, t) == BytesLeft(c, s) && Rank(c, t.user, t.kernel) < Rank(c, s.user, s.kernel))
             || (BytesLeft(c, t) < BytesLeft(c, s) && Rank(c, t.user, t.kernel) <= Rank(c, s.user, s.kernel) + 17)
    ensures Measure(c, t) < Measure(c, s)
  {
  }

  lemma ClientDecreases(c: Config, s: State, step: Step)
    requires Inv(c, s) && Enabled(c, s, step)
    requires step.ClientWrite? || step.ClientRead? || step.ClientClose?
    ensures Measure(c, Apply(c, s, step)) < Measure(c, s)
  {
    ClientStep(c, s, step);
    CountersBounded(c, s);
    CountersBounded(c, Apply(c, s, step));
  }

  /** Kernel steps that move no byte. */
  predicate IsStage(step: Step) {
    step.ReceiveEof? || step.SendPin? || step.Notify? || step.CancelFound? || step.CancelMissed? || step.CancelBusy?
  }

  /** A kernel step that moves no byte lowers the rank; one that does raises it by at most 2. */
  lemma KernelRank(c: Config, u: User, k: Kernel, step: Step)
    requires k.send != NoSend ==> u.sending
    requires k.recvArmed ==> u.receiving
    requires k.cancelPending ==> u.pc == Draining
    requires step.ReceiveEof? || step.CancelFound? ==> k.recvArmed
    requires step.CancelFound? || step.CancelMissed? || step.CancelBusy? ==> k.cancelPending
    requires step.SendPin? || step.SendCopied? ==> k.send.Armed?
    requires step.Notify? ==> k.send.Transmitted?
    requires step.Transmit? ==> k.send.Pinned?
    requires step.Receive? && step.more ==> k.recvArmed
    ensures Rank(c, u, KernelApply(c, k, step)) <= Rank(c, u, k) + 2
    ensures IsStage(step) ==> Rank(c, u, KernelApply(c, k, step)) < Rank(c, u, k)
  {
  }

  /** What the invariant says about a kernel step's operation. */
  lemma KernelRanked(c: Config, s: State, step: Step)
    requires Inv(c, s) && Enabled(c, s, step) && !IsUserStep(step)
    ensures Rank(c, s.user, KernelApply(c, s.kernel, step)) <= Rank(c, s.user, s.kernel) + 2
    ensures IsStage(step) ==> Rank(c, s.user, KernelApply(c, s.kernel, step)) < Rank(c, s.user, s.kernel)
  {
    KernelRank(c, s.user, s.kernel, step);
  }

  lemma TransmitDecreases(c: Config, s: State, step: Step)
    requires Inv(c, s) && Enabled(c, s, step) && (step.SendCopied? || step.Transmit?)
    ensures Measure(c, Apply(c, s, step)) < Measure(c, s)
  {
    var t := Apply(c, s, step);
    KernelRanked(c, s, step);
    TransmitStep(c, s, step);
    CountersBounded(c, s);
    CountersBounded(c, t);
    assert FlownOf(s) == 0 && 0 < FlownOf(t);
    assert BytesLeft(c, t) < BytesLeft(c, s);
    MeasureSmaller(c, s, t);
  }

  lemma ReceiveDecreases(c: Config, s: State, step: Step)
    requires Inv(c, s) && Enabled(c, s, step) && step.Receive?
    ensures Measure(c, Apply(c, s, step)) < Measure(c, s)
  {
    KernelRanked(c, s, step);
    CountersBounded(c, s);
    assert BytesLeft(c, Apply(c, s, step)) < BytesLeft(c, s);
    MeasureSmaller(c, s, Apply(c, s, step));
  }

  lemma StageDecreases(c: Config, s: State, step: Step)
    requires Inv(c, s) && Enabled(c, s, step) && IsStage(step)
    ensures Measure(c, Apply(c, s, step)) < Measure(c, s)
  {
    KernelRanked(c, s, step);
    StageMeasure(c, s, step);
  }

  lemma StageMeasure(c: Config, s: State, step: Step)
    requires Enabled(c, s, step) && IsStage(step)
    requires Rank(c, s.user, KernelApply(c, s.kernel, step)) < Rank(c, s.user, s.kernel)
    ensures Measure(c, Apply(c, s, step)) < Measure(c, s)
  {
    assert BytesLeft(c, Apply(c, s, step)) == BytesLeft(c, s);
    MeasureSmaller(c, s, Apply(c, s, step));
  }

  lemma TopRank(c: Config, u: User, k: Kernel)
    requires u.pc == Top && !k.cancelPending && (!u.receiving ==> !k.recvArmed)
    ensures Rank(c, AtTop(c, u), Submit(c, u, k)) < Rank(c, u, k)
  {
  }

  lemma TopDecreases(c: Config, s: State)
    requires Inv(c, s) && s.user.pc == Top
    ensures Measure(c, Apply(c, s, UserTop)) < Measure(c, s)
  {
    TopRank(c, s.user, s.kernel);
    assert BytesLeft(c, Apply(c, s, UserTop)) == BytesLeft(c, s);
  }

  /** Taking a completion lowers the rank, or moves bytes and raises it by less than one byte is worth. */
  lemma TakeRank(c: Config, u: User, k: Kernel, v: User, source: Source, recycled: set<nat>)
    requires u.pc == Waiting && v.pc == Top && QueueOf(k, source) != []
    ensures Rank(c, v, Pop(k, source).(available := recycled)) <= Rank(c, u, k) + 17
    ensures v.queue == u.queue && v.sending == u.sending && v.received == u.received
            && (v.receiving == u.receiving || (v.received >= c.Total() && !v.receiving))
            ==> Rank(c, v, Pop(k, source).(available := recycled)) < Rank(c, u, k)
  {
  }

  lemma TakeDataDecreases(c: Config, s: State)
    requires Inv(c, s) && s.user.pc == Waiting && s.kernel.recvCq != [] && s.kernel.recvCq[0].res > 0
    ensures Measure(c, Apply(c, s, UserTake(FromReceive))) < Measure(c, s)
  {
    var t := Apply(c, s, UserTake(FromReceive));
    TakeDataUser(c, s);
    CountersBounded(c, s);
    TakeData(c, s);
    CountersBounded(c, t);
    assert BytesLeft(c, t) < BytesLeft(c, s);
    TakeRank(c, s.user, s.kernel, t.user, FromReceive, t.kernel.available);
    MeasureSmaller(c, s, t);
  }

  lemma TakeEofDecreases(c: Config, s: State)
    requires Inv(c, s) && s.user.pc == Waiting && s.kernel.recvCq != [] && s.kernel.recvCq[0].res <= 0
    ensures Measure(c, Apply(c, s, UserTake(FromReceive))) < Measure(c, s)
  {
    var k, t := s.kernel, Apply(c, s, UserTake(FromReceive));
    RecvRead(c, false, k.taken, k.recvArmed, k.recvCq);
    TakeEof(c, s);
    assert BytesLeft(c, t) == BytesLeft(c, s);
    TakeRank(c, s.user, k, t.user, FromReceive, t.kernel.available);
    MeasureSmaller(c, s, t);
  }

  lemma TakeMoreDecreases(c: Config, s: State)
    requires Inv(c, s) && s.user.pc == Waiting && s.kernel.sendCq != [] && s.kernel.sendCq[0].more
    ensures Measure(c, Apply(c, s, UserTake(FromSend))) < Measure(c, s)
  {
    var k, t := s.kernel, Apply(c, s, UserTake(FromSend));
    TakeSendMore(c, s);
    assert t.user == s.user.(pc := Top, zcResult := t.user.zcResult);
    assert BytesLeft(c, t) == BytesLeft(c, s);
    TakeRank(c, s.user, k, t.user, FromSend, t.kernel.available);
    MeasureSmaller(c, s, t);
  }

  lemma TakeFinalDecreases(c: Config, s: State)
    requires Inv(c, s) && s.user.pc == Waiting && s.kernel.sendCq != [] && !s.kernel.sendCq[0].more
    ensures Measure(c, Apply(c, s, UserTake(FromSend))) < Measure(c, s)
  {
    var k, t := s.kernel, Apply(c, s, UserTake(FromSend));
    CountersBounded(c, s);
    TakeSendFinalUser(c, s);
    TakeSendFinal(c, s);
    CountersBounded(c, t);
    assert BytesLeft(c, t) < BytesLeft(c, s);
    TakeRank(c, s.user, k, t.user, FromSend, t.kernel.available);
    MeasureSmaller(c, s, t);
  }

  /** The drain loop only clears its own two flags, and each completion brings it closer to the end. */
  lemma DrainRank(c: Config, u: User, k: Kernel, source: Source)
    requires u.pc == Draining && QueueOf(k, source) != []
    requires u.queue == [] && !u.sending && u.received == c.Total()
    ensures var v := Handle(c, u, QueueOf(k, source)[0]);
            && v.sent == u.sent && v.received == u.received
            && Rank(c, v, Pop(k, source)) < Rank(c, u, k)
  {
  }

  lemma TakeDrainDecreases(c: Config, s: State, source: Source)
    requires Inv(c, s) && s.user.pc == Draining && QueueOf(s.kernel, source) != []
    ensures Measure(c, Apply(c, s, UserTake(source))) < Measure(c, s)
  {
    AllSent(c, s);
    DrainRank(c, s.user, s.kernel, source);
    DrainMeasure(c, s, source);
  }

  lemma DrainMeasure(c: Config, s: State, source: Source)
    requires s.user.pc == Draining && QueueOf(s.kernel, source) != []
    requires var v := Handle(c, s.user, QueueOf(s.kernel, source)[0]);
             v.sent == s.user.sent && v.received == s.user.received
             && Rank(c, v, Pop(s.kernel, source)) < Rank(c, s.user, s.kernel)
    ensures Measure(c, Apply(c, s, UserTake(source))) < Measure(c, s)
  {
    var t := Apply(c, s, UserTake(source));
    assert t.kernel == Pop(s.kernel, source).(available := t.kernel.available);
    assert BytesLeft(c, t) == BytesLeft(c, s);
  }

  /** Every step of every party makes progress towards the end of the run. */
  lemma StepDecreases(c: Config, s: State, step: Step)
    requires Inv(c, s) && Enabled(c, s, step)
    ensures Measure(c, Apply(c, s, step)) < Measure(c, s)
  {
    if step.UserTop? { TopDecreases(c, s); }
    else if step.UserTake? {
      if s.user.pc == Draining { TakeDrainDecreases(c, s, step.source); }
      else if step.source.FromReceive? {
        if s.kernel.recvCq[0].res > 0 { TakeDataDecreases(c, s); } else { TakeEofDecreases(c, s); }
      }
      else if s.kernel.sendCq[0].more { TakeMoreDecreases(c, s); }
      else { TakeFinalDecreases(c, s); }
    }
    else if step.ClientWrite? || step.ClientRead? || step.ClientClose? { ClientDecreases(c, s, step); }
    else if step.Receive? { ReceiveDecreases(c, s, step); }
    else if step.SendCopied? || step.Transmit? { TransmitDecreases(c, s, step); }
    else { StageDecreases(c, s, step); }
  }

  // ------------------------------------------------------- deadlock freedom

  predicate NothingUnread(k: Kernel) {
    k.recvCq == [] && k.sendCq == [] && k.cancelCq == []
  }

  /** With nothing left to send, an armed receive or the client itself can always move. */
  lemma ReceiveCanMove(c: Config, s: State) returns (step: Step)
    requires Inv(c, s) && s.kernel.recvArmed && Live(s) == [] && !s.user.sending
    ensures Enabled(c, s, step) && !IsUserStep(step)
  {
    var k, cl := s.kernel, s.client;
    Balance(c, s);
    BlockBound(cl.iteration, c.iterations, c.size);
    if k.taken < cl.written {
      if c.Multi() {
        assert |k.available| == BUFFERS;
        var bid :| bid in k.available;
        step := Receive(1, bid, false);
      } else {
        step := Receive(1, 0, false);
      }
    } else if cl.written < cl.base + c.size {
      step := ClientWrite(1);
    } else if cl.echoed < |k.output| {
      step := ClientRead(1);
    } else if cl.closed {
      step := ReceiveEof;
    } else {
      step := ClientClose;
    }
  }

  /** A loop that waits always has something in flight that can complete, or the client can act. */
  lemma WaitingCanMove(c: Config, s: State) returns (step: Step)
    requires Inv(c, s) && (s.user.pc == Waiting || s.user.pc == Draining) && NothingUnread(s.kernel)
    ensures Enabled(c, s, step) && !IsUserStep(step)
    ensures s.kernel.recvArmed || s.kernel.send != NoSend || s.kernel.cancelPending
  {
    var u, k := s.user, s.kernel;
    assert Unread(k.recvCq) == [];
    if u.pc == Draining {
      AllSent(c, s);
      if k.cancelPending {
        step := if k.recvArmed then CancelFound else CancelMissed;
      } else {
        step := ReceiveCanMove(c, s);
      }
    } else if u.sending {
      match k.send
      case Armed(_, _, _) => step := SendCopied(1);
      case Pinned(_, _, _) => step := Transmit;
      case Transmitted(_) => step := Notify(0);
    } else {
      assert u.queue == [];
      Balance(c, s);
      step := ReceiveCanMove(c, s);
    }
  }

  /** A state with no enabled step is a finished one. */
  lemma Progress(c: Config, s: State) returns (step: Step)
    requires Inv(c, s) && s.user.pc != Done
    ensures Enabled(c, s, step)
  {
    if s.user.pc == Top {
      step := UserTop;
    } else if !NothingUnread(s.kernel) {
      step := TakeEnabled(c, s);
    } else {
      step := WaitingCanMove(c, s);
    }
  }

  lemma TakeEnabled(c: Config, s: State) returns (step: Step)
    requires !NothingUnread(s.kernel) && (s.user.pc == Waiting || s.user.pc == Draining)
    ensures Enabled(c, s, step) && step.UserTake?
  {
    var k := s.kernel;
    step := UserTake(if k.recvCq != [] then FromReceive else if k.sendCq != [] then FromSend else FromCancel);
  }

  // ---------------------------------------------------------------- theorems

  lemma {:induction false} RunInv(c: Config, s: State, steps: seq<Step>)
    requires Inv(c, s) && Feasible(c, s, steps)
    ensures Inv(c, Final(c, s, steps))
    ensures |steps| + Measure(c, Final(c, s, steps)) <= Measure(c, s)
    decreases |steps|
  {
    if steps != [] {
      StepInv(c, s, steps[0]);
      StepDecreases(c, s, steps[0]);
      RunInv(c, Apply(c, s, steps[0]), steps[1..]);
    }
  }

  ghost predicate RunTo(c: Config, storage: seq<seq<Byte>>, provided: set<nat>, steps: seq<Step>, s: State) {
    && c.Valid() && StorageShape(storage) && ProvidedOk(c, provided)
    && Feasible(c, Init(c, storage, provided), steps)
    && Final(c, Init(c, storage, provided), steps) == s
  }

  /** Some run of client, kernel and user loop leads to `s`. */
  ghost predicate Reachable(c: Config, s: State) {
    exists storage, provided, steps :: RunTo(c, storage, provided, steps, s)
  }

  lemma {:induction false} RunAppend(c: Config, s: State, steps: seq<Step>, step: Step)
    requires Feasible(c, s, steps) && Enabled(c, Final(c, s, steps), step)
    ensures Feasible(c, s, steps + [step])
    ensures Final(c, s, steps + [step]) == Apply(c, Final(c, s, steps), step)
    decreases |steps|
  {
    if steps == [] {
      assert steps + [step] == [step] && [step][1..] == [];
    } else {
      assert (steps + [step])[0] == steps[0] && (steps + [step])[1..] == steps[1..] + [step];
      RunAppend(c, Apply(c, s, steps[0]), steps[1..], step);
    }
  }

  lemma ReachableInit(c: Config, storage: seq<seq<Byte>>, provided: set<nat>)
    requires c.Valid() && StorageShape(storage) && ProvidedOk(c, provided)
    ensures Reachable(c, Init(c, storage, provided))
  {
    assert RunTo(c, storage, provided, [], Init(c, storage, provided));
  }

  lemma ReachableStep(c: Config, s: State, step: Step)
    requires Reachable(c, s) && Enabled(c, s, step)
    ensures Reachable(c, Apply(c, s, step))
  {
    var storage, provided, steps :| RunTo(c, storage, provided, steps, s);
    RunAppend(c, Init(c, storage, provided), steps, step);
    assert RunTo(c, storage, provided, steps + [step], Apply(c, s, step));
  }

  lemma ReachableInv(c: Config, s: State)
    requires Reachable(c, s)
    ensures Inv(c, s)
  {
    var storage, provided, steps :| RunTo(c, storage, provided, steps, s);
    InitInv(c, storage, provided);
    RunInv(c, Init(c, storage, provided), steps);
  }

  /** What the invariant means to an observer of the run. */
  lemma Observed(c: Config, s: State)
    requires Inv(c, s)
    ensures s.kernel.taken <= c.Total() && s.kernel.output <= c.input[..s.kernel.taken] <= c.input
    ensures s.client.echoed <= |s.kernel.output| && s.kernel.output[..s.client.echoed] == c.input[..s.client.echoed]
    ensures s.user.pc != Failed
    ensures s.user.pc == Done ==>
              && s.kernel.output == c.input && s.user.sent == s.user.received == c.Total()
              && !s.kernel.recvArmed && s.kernel.send == NoSend && !s.kernel.cancelPending && NothingUnread(s.kernel)
  {
    var k := s.kernel;
    CountersBounded(c, s);
    assert k.output == c.input[..k.taken][..|k.output|];
    if s.user.pc == Done { AllSent(c, s); }
  }

  /**
   Echo correctness.  In every reachable state of every run the transmitted bytes are a
   prefix of the received bytes, which are a prefix of the input, and no check has failed.
   Runs are bounded, and a run that cannot be extended has echoed the whole input and left
   no operation outstanding.
   */
  lemma EchoTheorem(c: Config, storage: seq<seq<Byte>>, provided: set<nat>, steps: seq<Step>)
    requires c.Valid() && StorageShape(storage) && ProvidedOk(c, provided)
    requires Feasible(c, Init(c, storage, provided), steps)
    ensures var s := Final(c, Init(c, storage, provided), steps);
            && s.kernel.taken <= c.Total() && s.kernel.output <= c.input[..s.kernel.taken] <= c.input
            && s.user.pc != Failed
            && ((forall step :: !Enabled(c, s, step)) ==>
                  && s.user.pc == Done && s.kernel.output == c.input
                  && s.user.sent == s.user.received == c.size * c.iterations
                  && !s.kernel.recvArmed && s.kernel.send == NoSend && !s.kernel.cancelPending
                  && NothingUnread(s.kernel))
    ensures |steps| <= 192 * (c.size * c.iterations) + 28
  {
    BlocksIsProduct(c.iterations, c.size);
    var s0 := Init(c, storage, provided);
    InitInv(c, storage, provided);
    RunInv(c, s0, steps);
    var s := Final(c, s0, steps);
    Observed(c, s);
    if s.user.pc != Done {
      var step := Progress(c, s);
    }
  }

  /**
   Buffer ownership in multishot mode: the ids split exactly into kernel-available buffers and
   live fragments (queued or received but unread), no id twice, so the queue has room for every
   unread completion.
   */
  lemma MultishotOwnership(c: Config, s: State)
    requires Reachable(c, s) && c.Multi()
    ensures forall b :: 0 <= b < BUFFERS ==>
              (b in s.kernel.available <==> !exists i :: 0 <= i < |Live(s)| && Live(s)[i].bid == b)
    ensures Distinct(Live(s))
    ensures |s.user.queue| + |Unread(s.kernel.recvCq)| + |s.kernel.available| == BUFFERS
    ensures s.kernel.recvCq != [] && s.kernel.recvCq[0].res > 0 ==> |s.user.queue| < BUFFERS
  {
    ReachableInv(c, s);
    var live, available := Live(s), s.kernel.available;
    var owned := Owned(live);
    assert owned !! available;
    assert |owned + available| == BUFFERS;
    forall b | 0 <= b < BUFFERS && b !in available
      ensures exists i :: 0 <= i < |live| && live[i].bid == b
    {
      if b !in owned { Ids.Pigeonhole(BUFFERS, owned + available, b); }
    }
  }

  /** The ids of a list of fragments. */
  ghost function Owned(fs: seq<Fragment>): (r: set<nat>)
    ensures forall b :: b in r <==> exists i :: 0 <= i < |fs| && fs[i].bid == b
    ensures Distinct(fs) ==> |r| == |fs|
  {
    if fs == [] then {}
    else
      var rest := Owned(fs[..|fs| - 1]);
      assert forall i :: 0 <= i < |fs| - 1 ==> fs[..|fs| - 1][i] == fs[i];
      rest + {fs[|fs| - 1].bid}
  }

  /**
   Buffer ownership in the single-buffer modes: while a receive is armed no fragment, send or
   pinned zero-copy transfer refers to the storage, so the kernel never overwrites bytes it has
   still to transmit; and no receive in any mode lands in a buffer that is being sent.
   */
  lemma ReceiveNeverOverwrites(c: Config, s: State, step: Step)
    requires Reachable(c, s) && Enabled(c, s, step) && step.Receive?
    ensures s.kernel.send.Armed? ==> s.kernel.send.bid != step.bid
    ensures s.kernel.send.Pinned? ==> s.kernel.send.bid != step.bid
    ensures !c.Multi() ==> Live(s) == [] && s.kernel.send == NoSend
  {
    ReachableInv(c, s);
    if s.user.sending {
      assert Live(s)[0] == s.user.queue[0];
    }
  }
}
