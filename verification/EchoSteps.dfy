/** Every step of every party preserves the echo invariant. */
module EchoSteps {
  import opened Basics
  import opened EchoModel
  import opened EchoInvariant

  lemma ClientMoved(c: Config, s: State, step: Step)
    requires c.Valid() && Enabled(c, s, step)
    requires step.ClientWrite? || step.ClientRead? || step.ClientClose?
    requires ClientInv(c, s.client, s.kernel.taken, |s.kernel.output|) && |s.kernel.output| <= s.kernel.taken
    ensures ClientInv(c, ClientApply(c, s, step), s.kernel.taken, |s.kernel.output|)
  {
    var cl := s.client;
    BlockBound(cl.iteration, c.iterations, c.size);
    if step.ClientRead? && cl.iteration + 1 < c.iterations {
      BlockBound(cl.iteration + 1, c.iterations, c.size);
    }
  }

  lemma ClientStep(c: Config, s: State, step: Step)
    requires Inv(c, s) && Enabled(c, s, step)
    requires step.ClientWrite? || step.ClientRead? || step.ClientClose?
    ensures Inv(c, Apply(c, s, step))
  {
    var t := Apply(c, s, step);
    assert t.user == s.user && t.kernel == s.kernel && Live(t) == Live(s) && FlownOf(t) == FlownOf(s);
    Balance(c, s);
    ClientMoved(c, s, step);
  }

  // ---------------------------------------------------- facts about live lists

  /** Reading a data completion moves its fragment from the unread to the queued part. */
  lemma LiveMoved(c: Config, queue: seq<Fragment>, cq: seq<Cqe>, available: set<nat>, armed: bool)
    requires cq != [] && cq[0].res > 0 && OwnInv(c, queue + Unread(cq), available, armed)
    ensures var f := Unread(cq)[0];
            && FragmentOk(f) && f.sent == 0 && f.len == cq[0].res
            && f.bid == (if cq[0].bid.Some? then cq[0].bid.value else 0)
            && (queue + [f]) + Unread(cq[1..]) == queue + Unread(cq)
            && (|queue| < |queue + Unread(cq)| <= BUFFERS)
  {
    var f := Unread(cq)[0];
    assert Unread(cq) == [f] + Unread(cq[1..]);
    assert (queue + Unread(cq))[|queue|] == f;
  }

  lemma HeadOk(c: Config, queue: seq<Fragment>, rest: seq<Fragment>, available: set<nat>, armed: bool)
    requires queue != [] && OwnInv(c, queue + rest, available, armed)
    ensures FragmentOk(queue[0]) && (queue + rest)[0] == queue[0]
  {
    assert (queue + rest)[0] == queue[0];
  }

  // ------------------------------------------------------------------ receive

  lemma RecvPosted(c: Config, draining: bool, receiving: bool, taken: nat, taken': nat, cq: seq<Cqe>, cqe: Cqe,
                   armed': bool)
    requires RecvInv(c, draining, receiving, taken, true, cq)
    requires taken <= taken' <= c.Total() && RecvCqeOk(c, draining, taken', cqe)
    requires cqe.more == armed' && (!c.Multi() ==> !armed')
    ensures RecvInv(c, draining, receiving, taken', armed', cq + [cqe])
  {
    forall i | 0 <= i < |cq|
      ensures RecvCqeOk(c, draining, taken', cq[i])
    {
      assert RecvCqeOk(c, draining, taken, cq[i]);
      assert i == |cq| - 1 || cq[i].more;
    }
  }

  lemma OwnPosted(c: Config, live: seq<Fragment>, available: set<nat>, f: Fragment, armed': bool)
    requires OwnInv(c, live, available, true) && FragmentOk(f)
    requires if c.Multi() then f.bid in available else f.bid == 0 && !armed'
    ensures OwnInv(c, live + [f], available - {f.bid}, armed')
  {
  }

  lemma ConservedReceive(c: Config, taken: nat, output: seq<Byte>, held: seq<Byte>, flown: nat, data: seq<Byte>)
    requires Conserved(c, taken, output, held, flown)
    requires taken + |data| <= c.Total() && data == c.input[taken..taken + |data|]
    ensures Conserved(c, taken + |data|, output, held + data, flown)
  {
    assert (held + data)[flown..] == held[flown..] + data;
    assert c.input[..taken] + data == c.input[..taken + |data|];
    assert output + (held[flown..] + data) == (output + held[flown..]) + data;
  }

  lemma StorageWrite(storage: seq<seq<Byte>>, bid: nat, data: seq<Byte>)
    requires StorageShape(storage) && bid < BUFFERS && |data| <= BUFFER_BYTES
    ensures StorageShape(WriteStorage(storage, bid, data))
    ensures Bytes(WriteStorage(storage, bid, data), [Fragment(bid, |data|, 0)]) == data
  {
    var f := Fragment(bid, |data|, 0);
    assert [f][1..] == [];
    assert Slice(WriteStorage(storage, bid, data), f) == data;
  }

  lemma LivePosted(queue: seq<Fragment>, cq: seq<Cqe>, cqe: Cqe)
    ensures queue + Unread(cq + [cqe]) == (queue + Unread(cq)) + Unread([cqe])
  {
    UnreadAppend(cq, cqe);
  }

  ghost function DataCqe(c: Config, step: Step): Cqe
    requires step.Receive?
  {
    Cqe(RECV, step.n, step.more, false, if c.Multi() then Some(step.bid) else None)
  }

  lemma ReceiveLive(c: Config, s: State, step: Step)
    requires OwnInv(c, Live(s), s.kernel.available, s.kernel.recvArmed) && Enabled(c, s, step) && step.Receive?
    ensures Live(Apply(c, s, step)) == Live(s) + [Fragment(step.bid, step.n, 0)]
    ensures forall i :: 0 <= i < |Live(s)| ==> Live(s)[i].bid != step.bid
  {
    var cqe := DataCqe(c, step);
    LivePosted(s.user.queue, s.kernel.recvCq, cqe);
    assert [cqe][1..] == [] && Unread([]) == [];
    assert Unread([cqe]) == [Fragment(step.bid, step.n, 0)];
  }

  /** A receive into an unused buffer leaves the held bytes alone and adds its own at the end. */
  lemma HeldAfterWrite(storage: seq<seq<Byte>>, live: seq<Fragment>, bid: nat, data: seq<Byte>)
    requires StorageShape(storage) && bid < BUFFERS && |data| <= BUFFER_BYTES
    requires forall i :: 0 <= i < |live| ==> live[i].bid != bid
    ensures Bytes(WriteStorage(storage, bid, data), live) == Bytes(storage, live)
    ensures Bytes(WriteStorage(storage, bid, data), live + [Fragment(bid, |data|, 0)]) == Bytes(storage, live) + data
  {
    StorageWrite(storage, bid, data);
    BytesFrame(storage, live, bid, data);
    BytesAppend(WriteStorage(storage, bid, data), live, [Fragment(bid, |data|, 0)]);
  }

  lemma ReceiveBytes(c: Config, k: Kernel, queue: seq<Fragment>, unread: seq<Fragment>, flown: nat, bid: nat,
                     data: seq<Byte>)
    requires StorageShape(k.storage) && bid < BUFFERS && |data| <= BUFFER_BYTES
    requires k.taken + |data| <= c.Total() && data == c.input[k.taken..k.taken + |data|]
    requires forall i :: 0 <= i < |queue + unread| ==> (queue + unread)[i].bid != bid
    requires Conserved(c, k.taken, k.output, Bytes(k.storage, queue + unread), flown)
    ensures var storage := WriteStorage(k.storage, bid, data);
            && StorageShape(storage)
            && Conserved(c, k.taken + |data|, k.output, Bytes(storage, (queue + unread) + [Fragment(bid, |data|, 0)]),
                         flown)
            && Bytes(storage, queue) == Bytes(k.storage, queue)
  {
    StorageWrite(k.storage, bid, data);
    HeldAfterWrite(k.storage, queue + unread, bid, data);
    ConservedReceive(c, k.taken, k.output, Bytes(k.storage, queue + unread), flown, data);
    forall i | 0 <= i < |queue|
      ensures queue[i].bid != bid
    {
      assert (queue + unread)[i] == queue[i];
    }
    BytesFrame(k.storage, queue, bid, data);
  }

  lemma ReceiveByteInv(c: Config, s: State, step: Step)
    requires Enabled(c, s, step) && step.Receive? && step.bid < BUFFERS && step.n <= BUFFER_BYTES
    requires s.kernel.taken + step.n <= c.Total()
    requires ByteInv(c, s) && Live(Apply(c, s, step)) == Live(s) + [Fragment(step.bid, step.n, 0)]
    requires forall i :: 0 <= i < |Live(s)| ==> Live(s)[i].bid != step.bid
    ensures ByteInv(c, Apply(c, s, step))
  {
    var u, k, t := s.user, s.kernel, Apply(c, s, step);
    var data := c.input[k.taken..k.taken + step.n];
    ReceiveBytes(c, k, u.queue, Unread(k.recvCq), FlownOf(s), step.bid, data);
    assert t.kernel.storage == WriteStorage(k.storage, step.bid, data);
    assert FlownOf(t) == FlownOf(s);
  }

  lemma ReceiveStep(c: Config, s: State, step: Step)
    requires Inv(c, s) && Enabled(c, s, step) && step.Receive?
    ensures Inv(c, Apply(c, s, step))
  {
    var u, k := s.user, s.kernel;
    ReceiveLive(c, s, step);
    ReceiveByteInv(c, s, step);
    RecvPosted(c, u.pc == Draining, u.receiving, k.taken, k.taken + step.n, k.recvCq, DataCqe(c, step), step.more);
    OwnPosted(c, Live(s), k.available, Fragment(step.bid, step.n, 0), step.more);
  }

  /** An end-of-stream or cancelled completion carries no fragment. */
  lemma EmptyPosted(queue: seq<Fragment>, cq: seq<Cqe>, cqe: Cqe)
    requires cqe.res <= 0
    ensures queue + Unread(cq + [cqe]) == queue + Unread(cq)
  {
    LivePosted(queue, cq, cqe);
    assert [cqe][1..] == [] && Unread([]) == [];
  }

  lemma EofStep(c: Config, s: State, step: Step)
    requires Inv(c, s) && Enabled(c, s, step) && step.ReceiveEof?
    ensures Inv(c, Apply(c, s, step))
  {
    var u, k, t := s.user, s.kernel, Apply(c, s, step);
    Balance(c, s);
    RecvPosted(c, u.pc == Draining, u.receiving, k.taken, k.taken, k.recvCq, Post(RECV, 0, false), false);
    EmptyPosted(u.queue, k.recvCq, Post(RECV, 0, false));
    assert Live(t) == Live(s) && FlownOf(t) == FlownOf(s);
  }

  lemma CancelStep(c: Config, s: State, step: Step)
    requires Inv(c, s) && Enabled(c, s, step)
    requires step.CancelFound? || step.CancelMissed? || step.CancelBusy?
    ensures Inv(c, Apply(c, s, step))
  {
    var u, k, t := s.user, s.kernel, Apply(c, s, step);
    if step.CancelFound? {
      AllSent(c, s);
      RecvPosted(c, true, u.receiving, k.taken, k.taken, k.recvCq, Post(RECV, -ECANCELED, false), false);
      EmptyPosted(u.queue, k.recvCq, Post(RECV, -ECANCELED, false));
    }
    assert Live(t) == Live(s) && FlownOf(t) == FlownOf(s);
    assert UserInv(c, t.user, t.kernel.cancelPending, t.kernel.cancelCq);
  }

  // --------------------------------------------------------------------- send

  lemma ConservedSend(c: Config, taken: nat, output: seq<Byte>, held: seq<Byte>, n: nat)
    requires Conserved(c, taken, output, held, 0) && n <= |held|
    ensures Conserved(c, taken, output + held[..n], held, n)
  {
    assert held[..n] + held[n..] == held == held[0..];
    assert (output + held[..n]) + held[n..] == output + (held[..n] + held[n..]);
  }

  /** The engine copies or transmits `n` bytes of the head fragment. */
  lemma TransmitStep(c: Config, s: State, step: Step)
    requires Inv(c, s) && Enabled(c, s, step)
    requires step.SendCopied? || step.Transmit?
    ensures Inv(c, Apply(c, s, step))
  {
    var k, t := s.kernel, Apply(c, s, step);
    var n := if step.SendCopied? then step.n else k.send.n;
    assert Live(t) == Live(s);
    HeadOk(c, s.user.queue, Unread(k.recvCq), k.available, k.recvArmed);
    BytesAdvance(k.storage, Live(s), n);
    assert FlownOf(s) == 0 && FlownOf(t) == n;
    ConservedSend(c, k.taken, k.output, Bytes(k.storage, Live(s)), n);
  }

  lemma SendPosted(c: Config, u: User, k: Kernel, step: Step)
    requires SendInv(c, u.sending, u.zcResult, u.queue, k.send, k.sendCq)
    requires || (step.SendPin? && c.mode == ZeroCopy && k.send.Armed? && 0 < step.n <= k.send.len)
             || (step.Notify? && k.send.Transmitted?)
    ensures var k' := KernelApply(c, k, step);
            && SendInv(c, u.sending, u.zcResult, u.queue, k'.send, k'.sendCq)
            && Flown(u.sending, u.zcResult, k'.send, k'.sendCq) == Flown(u.sending, u.zcResult, k.send, k.sendCq)
  {
    var k' := KernelApply(c, k, step);
    assert k'.sendCq[..|k'.sendCq| - 1] == k.sendCq;
  }

  lemma PinStep(c: Config, s: State, step: Step)
    requires Inv(c, s) && Enabled(c, s, step) && (step.SendPin? || step.Notify?)
    ensures Inv(c, Apply(c, s, step))
  {
    var t := Apply(c, s, step);
    SendPosted(c, s.user, s.kernel, step);
    assert Live(t) == Live(s);
  }

  // ---------------------------------------------------------------- user loop

  /** Once the loop has sent everything, nothing is queued, unread or in flight. */
  lemma AllSent(c: Config, s: State)
    requires Inv(c, s) && s.user.sent >= c.Total()
    ensures s.user.queue == [] && Live(s) == [] && !s.user.sending && FlownOf(s) == 0
    ensures s.user.received == s.user.sent == s.kernel.taken == c.Total()
  {
    var u, k := s.user, s.kernel;
    var held := Bytes(k.storage, Live(s));
    assert |k.output| + |held[FlownOf(s)..]| == k.taken;
    if u.sending {
      assert FlownOf(s) == 0;
    }
    BytesLength(k.storage, Live(s));
  }

  /** Bytes taken from the network are transmitted, in flight, queued or unread. */
  lemma Balance(c: Config, s: State)
    requires ByteInv(c, s)
    ensures |s.kernel.output| + |Bytes(s.kernel.storage, Live(s))| - FlownOf(s) == s.kernel.taken
    ensures s.user.received + |Bytes(s.kernel.storage, Unread(s.kernel.recvCq))| == s.kernel.taken
  {
    var k := s.kernel;
    BytesAppend(k.storage, s.user.queue, Unread(k.recvCq));
    assert |k.output + Bytes(k.storage, Live(s))[FlownOf(s)..]| == k.taken;
  }

  lemma TopStep(c: Config, s: State)
    requires Inv(c, s) && Enabled(c, s, UserTop)
    ensures Inv(c, Apply(c, s, UserTop))
  {
    var u, k, t := s.user, s.kernel, Apply(c, s, UserTop);
    assert Live(t) == Live(s);
    if u.sent < c.Total() {
      TopArms(c, s);
    } else {
      AllSent(c, s);
    }
  }

  lemma SendArmed(c: Config, u: User, k: Kernel)
    requires SendInv(c, u.sending, u.zcResult, u.queue, k.send, k.sendCq) && u.sent < c.Total()
    requires u.queue != [] ==> FragmentOk(u.queue[0])
    ensures var k', sending := Submit(c, u, k), u.sending || ArmsSend(u);
            && SendInv(c, sending, u.zcResult, u.queue, k'.send, k.sendCq)
            && Flown(sending, u.zcResult, k'.send, k.sendCq) == Flown(u.sending, u.zcResult, k.send, k.sendCq)
  {
  }

  lemma ReceiveArmed(c: Config, u: User, k: Kernel)
    requires RecvInv(c, false, u.receiving, k.taken, k.recvArmed, k.recvCq)
    requires OwnInv(c, u.queue + Unread(k.recvCq), k.available, k.recvArmed)
    ensures var arms := ArmsReceive(c, u);
            && RecvInv(c, false, u.receiving || arms, k.taken, k.recvArmed || arms, k.recvCq)
            && OwnInv(c, u.queue + Unread(k.recvCq), k.available, k.recvArmed || arms)
  {
    if ArmsReceive(c, u) {
      assert k.recvCq == [] && Unread(k.recvCq) == [];
    }
  }

  lemma TopArms(c: Config, s: State)
    requires Inv(c, s) && Enabled(c, s, UserTop) && s.user.sent < c.Total()
    ensures Inv(c, Apply(c, s, UserTop))
  {
    var u, k, t := s.user, s.kernel, Apply(c, s, UserTop);
    Balance(c, s);
    if u.queue != [] {
      HeadOk(c, u.queue, Unread(k.recvCq), k.available, k.recvArmed);
    }
    SendArmed(c, u, k);
    ReceiveArmed(c, u, k);
    assert Live(t) == Live(s);
  }

  /** Reading a receive completion. */
  lemma RecvRead(c: Config, draining: bool, taken: nat, armed: bool, cq: seq<Cqe>)
    requires cq != [] && RecvInv(c, draining, true, taken, armed, cq)
    ensures RecvInv(c, draining, cq[0].more, taken, armed, cq[1..])
    ensures RecvCqeOk(c, draining, taken, cq[0])
    ensures cq[0].res <= 0 ==> |cq| == 1
  {
    assert forall i :: 0 <= i < |cq| - 1 ==> cq[1..][i] == cq[i + 1];
  }

  lemma TakeEof(c: Config, s: State)
    requires Inv(c, s) && s.user.pc == Waiting && s.kernel.recvCq != [] && s.kernel.recvCq[0].res <= 0
    ensures Inv(c, Apply(c, s, UserTake(FromReceive)))
  {
    var u, k, t := s.user, s.kernel, Apply(c, s, UserTake(FromReceive));
    RecvRead(c, false, k.taken, k.recvArmed, k.recvCq);
    assert Unread(k.recvCq) == Unread(k.recvCq[1..]) == [];
    assert Live(t) == Live(s) == u.queue;
    assert |k.output| + |Bytes(k.storage, Live(s))[FlownOf(s)..]| == k.taken;
    assert u.received == c.Total();
  }

  lemma TakeDataUser(c: Config, s: State)
    requires Inv(c, s) && s.user.pc == Waiting && s.kernel.recvCq != [] && s.kernel.recvCq[0].res > 0
    ensures var f, cqe := Unread(s.kernel.recvCq)[0], s.kernel.recvCq[0];
            Handle(c, s.user, cqe) ==
              s.user.(queue := s.user.queue + [f], received := s.user.received + f.len,
                      receiving := s.user.receiving && cqe.more, pc := Top)
  {
    var u, k := s.user, s.kernel;
    RecvRead(c, false, k.taken, k.recvArmed, k.recvCq);
    LiveMoved(c, u.queue, k.recvCq, k.available, k.recvArmed);
    Balance(c, s);
    FirstFits(k.storage, k.recvCq);
  }

  lemma FirstFits(storage: seq<seq<Byte>>, cq: seq<Cqe>)
    requires StorageShape(storage) && cq != [] && cq[0].res > 0 && FragmentOk(Unread(cq)[0])
    ensures cq[0].res <= |Bytes(storage, Unread(cq))|
  {
    assert |Slice(storage, Unread(cq)[0])| == cq[0].res;
  }

  lemma BytesPush(storage: seq<seq<Byte>>, queue: seq<Fragment>, f: Fragment)
    requires StorageShape(storage) && FragmentOk(f) && f.sent == 0
    ensures |Bytes(storage, queue + [f])| == |Bytes(storage, queue)| + f.len
  {
    BytesAppend(storage, queue, [f]);
    assert [f][1..] == [];
    assert Bytes(storage, [f]) == Slice(storage, f);
  }

  lemma TakeData(c: Config, s: State)
    requires Inv(c, s) && s.user.pc == Waiting && s.kernel.recvCq != [] && s.kernel.recvCq[0].res > 0
    ensures Inv(c, Apply(c, s, UserTake(FromReceive)))
  {
    var u, k, t := s.user, s.kernel, Apply(c, s, UserTake(FromReceive));
    TakeDataUser(c, s);
    LiveMoved(c, u.queue, k.recvCq, k.available, k.recvArmed);
    BytesPush(k.storage, u.queue, Unread(k.recvCq)[0]);
    RecvRead(c, false, k.taken, k.recvArmed, k.recvCq);
    SendPush(c, u, k, Unread(k.recvCq)[0]);
  }

  /** Queueing a fragment behind the head leaves the outstanding send as it was. */
  lemma SendPush(c: Config, u: User, k: Kernel, f: Fragment)
    requires SendInv(c, u.sending, u.zcResult, u.queue, k.send, k.sendCq)
    ensures SendInv(c, u.sending, u.zcResult, u.queue + [f], k.send, k.sendCq)
  {
    if u.sending {
      assert (u.queue + [f])[0] == u.queue[0];
    }
  }

  /** Reading the first half of a zero-copy completion. */
  lemma MoreRead(c: Config, u: User, k: Kernel)
    requires SendInv(c, u.sending, u.zcResult, u.queue, k.send, k.sendCq) && u.pc == Waiting
    requires k.sendCq != [] && k.sendCq[0].more
    ensures var n, cq := k.sendCq[0].res, k.sendCq[1..];
            && Handle(c, u, k.sendCq[0]) == u.(zcResult := n, pc := Top)
            && SendInv(c, u.sending, n, u.queue, k.send, cq)
            && Flown(u.sending, n, k.send, cq) == Flown(u.sending, u.zcResult, k.send, k.sendCq)
  {
    var cq := k.sendCq[1..];
    if k.send.NoSend? {
      assert k.sendCq[..|k.sendCq| - 1][0] == k.sendCq[0];
      assert cq[..|cq| - 1] == [];
    }
  }

  lemma TakeSendMore(c: Config, s: State)
    requires Inv(c, s) && s.user.pc == Waiting && s.kernel.sendCq != [] && s.kernel.sendCq[0].more
    ensures Inv(c, Apply(c, s, UserTake(FromSend)))
  {
    var t := Apply(c, s, UserTake(FromSend));
    MoreRead(c, s.user, s.kernel);
    assert Live(t) == Live(s);
  }

  /** A finished fragment leaves the live list and, in multishot mode, returns its buffer. */
  lemma OwnRecycled(c: Config, live: seq<Fragment>, available: set<nat>, armed: bool)
    requires OwnInv(c, live, available, armed) && live != []
    ensures OwnInv(c, live[1..], if c.Multi() then available + {live[0].bid} else available, armed)
  {
  }

  lemma ConservedAdvance(c: Config, taken: nat, output: seq<Byte>, held: seq<Byte>, n: nat)
    requires Conserved(c, taken, output, held, n)
    ensures Conserved(c, taken, output, held[n..], 0)
  {
    assert held[n..][0..] == held[n..];
  }

  /** The bytes and buffers after `n` bytes of the head fragment are counted as sent. */
  lemma AdvanceHead(c: Config, storage: seq<seq<Byte>>, fs: seq<Fragment>, n: nat)
    requires StorageShape(storage) && fs != [] && FragmentOk(fs[0]) && n <= fs[0].len - fs[0].sent
    ensures n <= |Bytes(storage, fs)| && Bytes(storage, Advanced(fs, n)) == Bytes(storage, fs)[n..]
  {
    BytesAdvance(storage, fs, n);
    DropFinished(storage, fs[0].(sent := fs[0].len), fs[1..]);
  }

  ghost function Advanced(fs: seq<Fragment>, n: nat): seq<Fragment>
    requires fs != []
  {
    var g := fs[0].(sent := fs[0].sent + n);
    if g.sent == g.len then fs[1..] else [g] + fs[1..]
  }

  lemma FinalSend(c: Config, u: User, send: SendOp, cq: seq<Cqe>)
    requires SendInv(c, u.sending, u.zcResult, u.queue, send, cq) && cq != [] && !cq[0].more && u.pc == Waiting
    ensures send == NoSend && |cq| == 1 && u.queue != [] && cq[0].userData == SEND
    ensures var n := Flown(u.sending, u.zcResult, send, cq);
            && 0 < n <= u.queue[0].len - u.queue[0].sent
            && Handle(c, u, cq[0]) == u.(sent := u.sent + n, sending := false, pc := Top, queue := Advanced(u.queue, n))
  {
  }

  lemma TakeSendFinalUser(c: Config, s: State)
    requires Inv(c, s) && s.user.pc == Waiting && s.kernel.sendCq != [] && !s.kernel.sendCq[0].more
    ensures var u, k, n := s.user, s.kernel, FlownOf(s);
            && k.send == NoSend && |k.sendCq| == 1 && k.sendCq[0].userData == SEND && u.queue != [] && Live(s) != []
            && Live(s)[0] == u.queue[0]
            && 0 < n <= u.queue[0].len - u.queue[0].sent
            && Handle(c, u, k.sendCq[0]) ==
                 u.(sent := u.sent + n, sending := false, pc := Top, queue := Advanced(u.queue, n))
            && Advanced(Live(s), n) == Advanced(u.queue, n) + Unread(k.recvCq)
  {
    var u, k := s.user, s.kernel;
    FinalSend(c, u, k.send, k.sendCq);
    HeadOk(c, u.queue, Unread(k.recvCq), k.available, k.recvArmed);
    AdvancedAppend(u.queue, Unread(k.recvCq), FlownOf(s));
  }

  lemma AdvancedAppend(fs: seq<Fragment>, gs: seq<Fragment>, n: nat)
    requires fs != []
    ensures Advanced(fs + gs, n) == Advanced(fs, n) + gs
  {
    assert (fs + gs)[1..] == fs[1..] + gs;
  }

  lemma TakeSendFinalBytes(c: Config, s: State)
    requires Inv(c, s) && s.user.pc == Waiting && s.kernel.sendCq != [] && !s.kernel.sendCq[0].more
    ensures ByteInv(c, Apply(c, s, UserTake(FromSend)))
  {
    var u, k, t := s.user, s.kernel, Apply(c, s, UserTake(FromSend));
    var n, live := FlownOf(s), Live(s);
    TakeSendFinalUser(c, s);
    AdvanceHead(c, k.storage, live, n);
    AdvanceHead(c, k.storage, u.queue, n);
    ConservedAdvance(c, k.taken, k.output, Bytes(k.storage, live), n);
    assert FlownOf(t) == 0;
  }

  lemma OwnAdvanced(c: Config, live: seq<Fragment>, available: set<nat>, armed: bool, n: nat)
    requires OwnInv(c, live, available, armed) && live != [] && n <= live[0].len - live[0].sent
    ensures var done := live[0].sent + n == live[0].len;
            OwnInv(c, Advanced(live, n), if c.Multi() && done then available + {live[0].bid} else available, armed)
  {
    var g := live[0].(sent := live[0].sent + n);
    if g.sent == g.len {
      OwnRecycled(c, live, available, armed);
    } else {
      assert Advanced(live, n) == live[0 := g];
    }
  }

  lemma TakeSendFinal(c: Config, s: State)
    requires Inv(c, s) && s.user.pc == Waiting && s.kernel.sendCq != [] && !s.kernel.sendCq[0].more
    ensures Inv(c, Apply(c, s, UserTake(FromSend)))
  {
    var u, k, t := s.user, s.kernel, Apply(c, s, UserTake(FromSend));
    TakeSendFinalUser(c, s);
    TakeSendFinalBytes(c, s);
    OwnAdvanced(c, Live(s), k.available, k.recvArmed, FlownOf(s));
    FinalRecycled(c, u, k.sendCq[0], FlownOf(s));
  }

  lemma FinalRecycled(c: Config, u: User, cqe: Cqe, n: nat)
    requires u.pc == Waiting && u.queue != [] && cqe.userData == SEND
    requires Handle(c, u, cqe) == u.(sent := u.sent + n, sending := false, pc := Top, queue := Advanced(u.queue, n))
    ensures Recycled(c, u, cqe) == if c.Multi() && u.queue[0].sent + n == u.queue[0].len then {u.queue[0].bid} else {}
  {
  }

  lemma DropFinished(storage: seq<seq<Byte>>, g: Fragment, rest: seq<Fragment>)
    requires g.sent == g.len
    ensures Bytes(storage, [g] + rest) == Bytes(storage, rest)
  {
    assert ([g] + rest)[1..] == rest;
    assert Slice(storage, g) == [];
  }

  /** The drain loop only clears its own two flags, and never fails a check. */
  lemma DrainUser(c: Config, u: User, cqe: Cqe)
    requires u.pc == Draining && u.queue == [] && !u.sending && u.received == c.Total()
    requires CancelAnswer(cqe) || (cqe.userData == RECV && cqe.res <= 0 && !cqe.more)
    ensures var receiving, canceled := u.receiving && cqe.userData != RECV, u.canceled || cqe.userData == CANCEL;
            Handle(c, u, cqe) ==
              u.(receiving := receiving, canceled := canceled, pc := if receiving || !canceled then Draining else Done)
  {
  }

  lemma NoDataUnread(cq: seq<Cqe>)
    requires cq != [] && Unread(cq) == []
    ensures cq[0].res <= 0 && Unread(cq[1..]) == []
  {
  }

  lemma DrainReceive(c: Config, s: State)
    requires Inv(c, s) && s.user.pc == Draining && s.kernel.recvCq != []
    ensures Inv(c, Apply(c, s, UserTake(FromReceive)))
  {
    AllSent(c, s);
    var k, t := s.kernel, Apply(c, s, UserTake(FromReceive));
    assert Unread(k.recvCq) == [];
    RecvRead(c, true, k.taken, k.recvArmed, k.recvCq);
    NoDataUnread(k.recvCq);
    DrainUser(c, s.user, k.recvCq[0]);
    assert Live(t) == Live(s) == [];
    RecvLeavesDrain(c, k.taken, k.recvArmed, t.kernel.recvCq, t.user.receiving);
  }

  lemma TakeDraining(c: Config, s: State, source: Source)
    requires Inv(c, s) && s.user.pc == Draining && QueueOf(s.kernel, source) != []
    ensures Inv(c, Apply(c, s, UserTake(source)))
  {
    if source.FromReceive? {
      DrainReceive(c, s);
    } else {
      AllSent(c, s);
      var k, t := s.kernel, Apply(c, s, UserTake(source));
      assert Unread(k.recvCq) == [];
      DrainUser(c, s.user, QueueOf(k, source)[0]);
      assert Live(t) == Live(s) == [];
      RecvLeavesDrain(c, k.taken, k.recvArmed, t.kernel.recvCq, t.user.receiving);
    }
  }

  /** Without an unread cancellation, what holds while draining holds after it. */
  lemma RecvLeavesDrain(c: Config, taken: nat, armed: bool, cq: seq<Cqe>, receiving: bool)
    requires RecvInv(c, true, receiving, taken, armed, cq)
    ensures !receiving ==> RecvInv(c, false, receiving, taken, armed, cq)
  {
  }

  lemma KernelStepInv(c: Config, s: State, step: Step)
    requires Inv(c, s) && Enabled(c, s, step) && !IsUserStep(step)
    ensures Inv(c, Apply(c, s, step))
  {
    match step
    case ClientWrite(_) => ClientStep(c, s, step);
    case ClientRead(_) => ClientStep(c, s, step);
    case ClientClose => ClientStep(c, s, step);
    case Receive(_, _, _) => ReceiveStep(c, s, step);
    case ReceiveEof => EofStep(c, s, step);
    case SendCopied(_) => TransmitStep(c, s, step);
    case Transmit => TransmitStep(c, s, step);
    case SendPin(_) => PinStep(c, s, step);
    case Notify(_) => PinStep(c, s, step);
    case CancelFound => CancelStep(c, s, step);
    case CancelMissed => CancelStep(c, s, step);
    case CancelBusy => CancelStep(c, s, step);
  }

  lemma TakeStepInv(c: Config, s: State, source: Source)
    requires Inv(c, s) && Enabled(c, s, UserTake(source))
    ensures Inv(c, Apply(c, s, UserTake(source)))
  {
    if s.user.pc == Draining { TakeDraining(c, s, source); }
    else if source.FromReceive? {
      if s.kernel.recvCq[0].res > 0 { TakeData(c, s); } else { TakeEof(c, s); }
    } else if s.kernel.sendCq[0].more { TakeSendMore(c, s); }
    else { TakeSendFinal(c, s); }
  }

  /** The invariant is inductive over every step of client, kernel and user loop. */
  lemma StepInv(c: Config, s: State, step: Step)
    requires Inv(c, s) && Enabled(c, s, step)
    ensures Inv(c, Apply(c, s, step))
  {
    if step.UserTop? { TopStep(c, s); }
    else if step.UserTake? { TakeStepInv(c, s, step.source); }
    else { KernelStepInv(c, s, step); }
  }
}
