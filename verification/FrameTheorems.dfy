/**
 What the control-frame client has recorded after any list of frames, in terms of what the peer
 sent: bodies, header blocks, statuses, resets, windows and answers.
 */
module FrameTheorems {
  import opened Basics
  import opened FrameCodec
  import opened FramePayload
  import opened FrameClient

  lemma Assoc<T>(a: seq<T>, b: seq<T>, c: seq<T>)
    ensures a + b + c == a + (b + c)
  {
  }

  // ------------------------------------------------- exactly when handling ends

  predicate NeedsAnswer(f: Frame) { (f.kind == 4 || f.kind == 6) && !Flag(f.flags, 1) }

  /** A frame the client raises on, given the streams with an open header block. */
  predicate Malformed(f: Frame, open: set<nat>) {
    || (f.kind == 4 && !Flag(f.flags, 1) && |f.payload| % 6 != 0)
    || ((f.kind == 0 || f.kind == 1) && Flag(f.flags, 8) && f.payload == [])
    || (f.kind == 9 && f.stream !in open)
  }

  function OpenAfter(f: Frame, open: set<nat>): set<nat> {
    if f.kind != 1 && f.kind != 9 then open
    else if Flag(f.flags, 4) then open - {f.stream} else open + {f.stream}
  }

  /** A frame list in which no frame is malformed. */
  predicate Accepted(fs: seq<Frame>, open: set<nat>) {
    fs == [] || (!Malformed(fs[0], open) && Accepted(fs[1..], OpenAfter(fs[0], open)))
  }

  /** The frame completes a block that the decoder rejects. */
  predicate Undecoded(env: Env, t: Streams, f: Frame) {
    && (f.kind == 1 || f.kind == 9)
    && var a := Assemble(f, OpenBlock(t.blocks, f.stream));
       a.Grown? && a.complete && env.decode(t.decoded + [Decoded(f.stream, a.pending.block)]).Undecodable?
  }

  /** A decoder that rejects nothing and a socket that sends everything. */
  ghost predicate Calm(env: Env) { (forall h :: env.decode(h).Fields?) && forall k :: env.sendOk(k) }

  lemma ControlOutcome(env: Env, k: Control, f: Frame)
    ensures OnControl(env, k, f).1 ==
              if f.kind == 4 && !Flag(f.flags, 1) && |f.payload| % 6 != 0 then Raised
              else if NeedsAnswer(f) && !env.sendOk(|k.sent|) then Lost else Fine
  {
    ConfigureOk(k.settings, f.payload);
  }

  lemma StreamOutcome(env: Env, t: Streams, f: Frame)
    ensures OnStreams(env, t, f).1 ==
              if f.kind != 4 && (Malformed(f, t.blocks.Keys) || Undecoded(env, t, f)) then Raised else Fine
  {
  }

  lemma StreamKeys(env: Env, t: Streams, f: Frame)
    requires OnStreams(env, t, f).1 == Fine
    ensures OnStreams(env, t, f).0.blocks.Keys == OpenAfter(f, t.blocks.Keys)
  {
  }

  /** What one frame leads to, from its bytes, the open blocks and the two oracles. */
  lemma HaltsExactly(env: Env, c: Conn, f: Frame)
    ensures Process(env, c, f).halt ==
              if Malformed(f, c.streams.blocks.Keys) || Undecoded(env, c.streams, f) then Raised
              else if NeedsAnswer(f) && !env.sendOk(|c.control.sent|) then Lost else Fine
    ensures Process(env, c, f).halt == Fine ==>
              Process(env, c, f).streams.blocks.Keys == OpenAfter(f, c.streams.blocks.Keys)
  {
    ControlOutcome(env, c.control, f);
    StreamOutcome(env, c.streams, f);
    if OnStreams(env, c.streams, f).1 == Fine { StreamKeys(env, c.streams, f); }
  }

  lemma HaltedStays(env: Env, c: Conn, fs: seq<Frame>)
    ensures c.halt != Fine ==> ProcessAll(env, c, fs) == c
  {
  }

  /** With calm oracles, handling a frame list to its end is exactly that no frame of it is malformed. */
  lemma {:induction false} AcceptedRuns(env: Env, c: Conn, fs: seq<Frame>)
    requires Calm(env) && c.halt == Fine
    ensures ProcessAll(env, c, fs).halt == Fine <==> Accepted(fs, c.streams.blocks.Keys)
    decreases |fs|
  {
    if fs != [] {
      var next := Process(env, c, fs[0]);
      HaltsExactly(env, c, fs[0]);
      HaltedStays(env, next, fs[1..]);
      if next.halt == Fine { AcceptedRuns(env, next, fs[1..]); }
    }
  }

  /** The frames that are handled before one ends handling. */
  function Handled(env: Env, c: Conn, fs: seq<Frame>): (r: seq<Frame>)
    ensures r <= fs
    decreases |fs|
  {
    if fs == [] || c.halt != Fine then []
    else
      var next := Process(env, c, fs[0]);
      if next.halt != Fine then [] else [fs[0]] + Handled(env, next, fs[1..])
  }

  /** One frame into a list. */
  lemma Into(env: Env, c: Conn, fs: seq<Frame>) returns (next: Conn)
    requires fs != [] && c.halt == Fine
    ensures next == Process(env, c, fs[0]) && ProcessAll(env, c, fs) == ProcessAll(env, next, fs[1..])
    ensures next.halt != Fine ==> ProcessAll(env, c, fs) == next && Handled(env, c, fs) == []
    ensures next.halt == Fine ==> Handled(env, c, fs) == [fs[0]] + Handled(env, next, fs[1..])
  {
    next := Process(env, c, fs[0]);
    HaltedStays(env, next, fs[1..]);
  }

  /** Everything is handled exactly when handling does not end. */
  lemma {:induction false} AllHandled(env: Env, c: Conn, fs: seq<Frame>)
    requires c.halt == Fine
    ensures Handled(env, c, fs) == fs <==> ProcessAll(env, c, fs).halt == Fine
    decreases |fs|
  {
    if fs != [] {
      var next := Into(env, c, fs);
      if next.halt == Fine {
        AllHandled(env, next, fs[1..]);
        assert fs == [fs[0]] + fs[1..];
      }
    }
  }

  /** Handling does not end within the handled frames. */
  lemma {:induction false} HandledFine(env: Env, c: Conn, fs: seq<Frame>, j: nat)
    requires c.halt == Fine && j <= |Handled(env, c, fs)|
    ensures ProcessAll(env, c, fs[..j]).halt == Fine
    decreases |fs|
  {
    if j > 0 {
      var next := Into(env, c, fs);
      HandledFine(env, next, fs[1..], j - 1);
      assert fs[..j][1..] == fs[1..][..j - 1];
    }
  }

  // -------------------------------------------------------------- sent bodies

  /** A piece of a body as its sender frames it; the padding is there when the flag says so. */
  datatype Piece = Piece(flags: Byte, data: Bytes, pad: Bytes)

  predicate PieceOk(piece: Piece) { |piece.pad| < 256 }

  function DataFrame(s: nat, piece: Piece): Frame
    requires PieceOk(piece)
  {
    Frame(0, s, piece.flags, if Flag(piece.flags, 8) then Padded(piece.data, piece.pad) else piece.data)
  }

  function Data(pieces: seq<Piece>): Bytes { if pieces == [] then [] else pieces[0].data + Data(pieces[1..]) }

  predicate IsData(f: Frame, s: nat) { f.kind == 0 && f.stream == s }

  /** The DATA frames of stream `s` in `fs` are these pieces in order; anything else may come between. */
  predicate Carries(fs: seq<Frame>, s: nat, pieces: seq<Piece>) {
    if fs == [] then pieces == []
    else if IsData(fs[0], s) then
      pieces != [] && PieceOk(pieces[0]) && fs[0] == DataFrame(s, pieces[0]) && Carries(fs[1..], s, pieces[1..])
    else Carries(fs[1..], s, pieces)
  }

  function DataCount(fs: seq<Frame>, s: nat): nat {
    if fs == [] then 0 else (if IsData(fs[0], s) then 1 else 0) + DataCount(fs[1..], s)
  }

  lemma DataCountFirst(f: Frame, fs: seq<Frame>, s: nat)
    ensures DataCount([f] + fs, s) == (if IsData(f, s) then 1 else 0) + DataCount(fs, s)
  {
    assert ([f] + fs)[1..] == fs;
  }

  /** A response that has received exactly `body`. */
  ghost predicate Holds(r: Response, body: Bytes) { r.bodyBytes == |body| && r.prefix == Take(body, 64) }

  lemma HoldsMore(r: Response, body: Bytes, more: Bytes)
    requires Holds(r, body)
    ensures r.prefix + Take(more, if |r.prefix| < 64 then 64 - |r.prefix| else 0) == Take(body + more, 64)
  {
  }

  lemma PieceHeld(r: Response, s: nat, piece: Piece, body: Bytes)
    requires PieceOk(piece) && Holds(r, body)
    ensures Holds(OnData(r, DataFrame(s, piece)).0, body + piece.data) && OnData(r, DataFrame(s, piece)).1 == Fine
    ensures OnData(r, DataFrame(s, piece)).0.ended <==> r.ended || Flag(piece.flags, 1)
  {
    if Flag(piece.flags, 8) { UnpadPadded(piece.data, piece.pad); }
    HoldsMore(r, body, piece.data);
  }

  /** Other frames leave a stream's body alone and never take its end back. */
  lemma OthersKeepBody(env: Env, t: Streams, f: Frame, s: nat)
    requires !IsData(f, s)
    ensures var r, after := Of(t.responses, s), Of(OnStreams(env, t, f).0.responses, s);
            after.bodyBytes == r.bodyBytes && after.prefix == r.prefix && (r.ended ==> after.ended)
  {
  }

  ghost predicate EndFlag(pieces: seq<Piece>) { exists i :: 0 <= i < |pieces| && Flag(pieces[i].flags, 1) }

  /** What a stream holds of the pieces that were handled. */
  ghost predicate Received(before: Response, r: Response, body: Bytes, pieces: seq<Piece>) {
    Holds(r, body + Data(pieces)) && (before.ended || EndFlag(pieces) ==> r.ended)
  }

  lemma ReceivedFirst(before: Response, middle: Response, r: Response, body: Bytes, pieces: seq<Piece>)
    requires pieces != [] && (before.ended || Flag(pieces[0].flags, 1) ==> middle.ended)
    requires Received(middle, r, body + pieces[0].data, pieces[1..])
    ensures Received(before, r, body, pieces)
  {
    Assoc(body, pieces[0].data, Data(pieces[1..]));
    EndLater(pieces);
  }

  lemma EndLater(pieces: seq<Piece>)
    requires pieces != []
    ensures EndFlag(pieces) ==> Flag(pieces[0].flags, 1) || EndFlag(pieces[1..])
  {
    if i :| 0 <= i < |pieces| && Flag(pieces[i].flags, 1) {
      if i > 0 { assert pieces[1..][i - 1] == pieces[i]; }
    }
  }

  lemma ReceivedNothing(before: Response, r: Response, body: Bytes)
    requires Holds(before, body) && r.bodyBytes == before.bodyBytes && r.prefix == before.prefix
    requires (before.ended ==> r.ended)
    ensures Received(before, r, body, [])
  {
    assert body + [] == body;
  }

  /** A piece of a body never ends handling. */
  lemma PieceFine(env: Env, c: Conn, s: nat, piece: Piece)
    requires PieceOk(piece)
    ensures Process(env, c, DataFrame(s, piece)).halt == Fine
    ensures Of(Process(env, c, DataFrame(s, piece)).streams.responses, s) ==
              OnData(Of(c.streams.responses, s), DataFrame(s, piece)).0
  {
    ControlOutcome(env, c.control, DataFrame(s, piece));
    if Flag(piece.flags, 8) { UnpadPadded(piece.data, piece.pad); }
  }

  lemma {:induction false} BodyFrom(env: Env, c: Conn, fs: seq<Frame>, s: nat, body: Bytes, pieces: seq<Piece>)
    requires c.halt == Fine && Holds(Of(c.streams.responses, s), body) && Carries(fs, s, pieces)
    ensures var m := DataCount(Handled(env, c, fs), s);
            && m <= |pieces| && (Handled(env, c, fs) == fs ==> m == |pieces|)
            && Received(Of(c.streams.responses, s), Of(ProcessAll(env, c, fs).streams.responses, s), body, pieces[..m])
    decreases |fs|
  {
    var before := Of(c.streams.responses, s);
    if fs == [] {
      ReceivedNothing(before, before, body);
    } else {
      var next := Into(env, c, fs);
      var after := Of(next.streams.responses, s);
      var rest := Handled(env, next, fs[1..]);
      var end := Of(ProcessAll(env, c, fs).streams.responses, s);
      DataCountFirst(fs[0], rest, s);
      assert fs == [fs[0]] + fs[1..];
      if IsData(fs[0], s) {
        PieceFine(env, c, s, pieces[0]);
        PieceHeld(before, s, pieces[0], body);
        BodyFrom(env, next, fs[1..], s, body + pieces[0].data, pieces[1..]);
        var m := DataCount(rest, s);
        assert pieces[..m + 1][1..] == pieces[1..][..m];
        ReceivedFirst(before, after, end, body, pieces[..m + 1]);
      } else {
        OthersKeepBody(env, c.streams, fs[0], s);
        if next.halt == Fine {
          BodyFrom(env, next, fs[1..], s, body, pieces);
        } else {
          ReceivedNothing(before, after, body);
        }
      }
    }
  }

  /**
   However a sender cuts a body into DATA frames, padded or not, and whatever it sends in between,
   the length and the first 64 bytes recorded are those of the pieces handled, and END_STREAM on one
   of them is noted; all pieces are handled unless some frame ends handling.
   */
  lemma BodyRecorded(env: Env, fs: seq<Frame>, s: nat, pieces: seq<Piece>)
    requires Carries(fs, s, pieces)
    ensures var r, m := Of(ProcessAll(env, START, fs).streams.responses, s), DataCount(Handled(env, START, fs), s);
            && m <= |pieces| && (Handled(env, START, fs) == fs ==> m == |pieces|)
            && r.bodyBytes == |Data(pieces[..m])| && r.prefix == Take(Data(pieces[..m]), 64)
            && (EndFlag(pieces[..m]) ==> r.ended)
  {
    BodyFrom(env, START, fs, s, [], pieces);
    var m := DataCount(Handled(env, START, fs), s);
    assert [] + Data(pieces[..m]) == Data(pieces[..m]);
  }

  // ----------------------------------------------------------------- answers

  /** What a frame makes the client send. */
  function AnswerTo(f: Frame): seq<Frame> {
    if f.kind == 4 && !Flag(f.flags, 1) then [Frame(4, 0, 1, [])]
    else if f.kind == 6 && !Flag(f.flags, 1) then [Frame(6, 0, 1, f.payload)]
    else []
  }

  function Answers(fs: seq<Frame>): seq<Frame> { if fs == [] then [] else AnswerTo(fs[0]) + Answers(fs[1..]) }

  function Kinds(fs: seq<Frame>, kind: nat): nat {
    if fs == [] then 0 else (if fs[0].kind == kind then 1 else 0) + Kinds(fs[1..], kind)
  }

  lemma ControlAnswers(env: Env, k: Control, f: Frame, kind: nat)
    ensures OnControl(env, k, f).0.sent == if OnControl(env, k, f).1 == Fine then k.sent + AnswerTo(f) else k.sent
    ensures Count(OnControl(env, k, f).0.counts, kind) == Count(k.counts, kind) + if f.kind == kind then 1 else 0
  {
    assert k.sent + [] == k.sent;
  }

  /** A frame on which the stream side raises needs no answer. */
  lemma NoAnswer(env: Env, c: Conn, f: Frame)
    requires OnStreams(env, c.streams, f).1 != Fine
    ensures AnswerTo(f) == [] && OnControl(env, c.control, f).1 == Fine
  {
  }

  /** The frames begun: those handled and the one that ended handling. */
  function Begun(env: Env, c: Conn, fs: seq<Frame>): seq<Frame> {
    var k := |Handled(env, c, fs)|;
    if k < |fs| && c.halt == Fine then fs[..k + 1] else fs[..k]
  }

  lemma BegunFirst(env: Env, c: Conn, fs: seq<Frame>)
    requires fs != [] && c.halt == Fine
    ensures var next := Process(env, c, fs[0]);
            Begun(env, c, fs) == [fs[0]] + if next.halt == Fine then Begun(env, next, fs[1..]) else []
  {
    var next := Into(env, c, fs);
  }

  lemma KindsFirst(f: Frame, fs: seq<Frame>, kind: nat)
    ensures Kinds([f] + fs, kind) == (if f.kind == kind then 1 else 0) + Kinds(fs, kind)
  {
    assert ([f] + fs)[1..] == fs;
  }

  lemma AnswersFirst(f: Frame, fs: seq<Frame>)
    ensures Answers([f] + fs) == AnswerTo(f) + Answers(fs)
  {
    assert ([f] + fs)[1..] == fs;
  }

  lemma {:induction false} AnsweredFrom(env: Env, c: Conn, fs: seq<Frame>)
    requires c.halt == Fine
    ensures ProcessAll(env, c, fs).control.sent == c.control.sent + Answers(Handled(env, c, fs))
    decreases |fs|
  {
    if fs == [] {
      assert c.control.sent + [] == c.control.sent;
    } else {
      var next := Into(env, c, fs);
      ControlAnswers(env, c.control, fs[0], 0);
      if next.halt == Fine {
        AnsweredFrom(env, next, fs[1..]);
        AnswersFirst(fs[0], Handled(env, next, fs[1..]));
        Assoc(c.control.sent, AnswerTo(fs[0]), Answers(Handled(env, next, fs[1..])));
      } else {
        if OnStreams(env, c.streams, fs[0]).1 != Fine { NoAnswer(env, c, fs[0]); }
        assert c.control.sent + [] == c.control.sent;
      }
    }
  }

  lemma {:induction false} CountedFrom(env: Env, c: Conn, fs: seq<Frame>, kind: nat)
    requires c.halt == Fine
    ensures Count(ProcessAll(env, c, fs).control.counts, kind) ==
              Count(c.control.counts, kind) + Kinds(Begun(env, c, fs), kind)
    decreases |fs|
  {
    if fs != [] {
      var next := Into(env, c, fs);
      ControlAnswers(env, c.control, fs[0], kind);
      BegunFirst(env, c, fs);
      KindsFirst(fs[0], if next.halt == Fine then Begun(env, next, fs[1..]) else [], kind);
      if next.halt == Fine { CountedFrom(env, next, fs[1..], kind); }
    }
  }

  /**
   Every SETTINGS and PING handled that asks for it is answered once, in order, nothing else is
   sent, and every frame begun is counted.
   */
  lemma AllAnswered(env: Env, fs: seq<Frame>, kind: nat)
    ensures ProcessAll(env, START, fs).control.sent == Answers(Handled(env, START, fs))
    ensures Count(ProcessAll(env, START, fs).control.counts, kind) == Kinds(Begun(env, START, fs), kind)
  {
    AnsweredFrom(env, START, fs);
    CountedFrom(env, START, fs, kind);
    assert [] + Answers(Handled(env, START, fs)) == Answers(Handled(env, START, fs));
  }

  // --------------------------------------------------------- resets and windows

  function CodeOf(f: Frame, s: nat): seq<nat> { if f.kind == 3 && f.stream == s then [FromBytes(f.payload)] else [] }

  /** The codes of a stream's RST_STREAM frames. */
  function Codes(fs: seq<Frame>, s: nat): seq<nat> { if fs == [] then [] else CodeOf(fs[0], s) + Codes(fs[1..], s) }

  lemma CodesFirst(f: Frame, fs: seq<Frame>, s: nat)
    ensures Codes([f] + fs, s) == CodeOf(f, s) + Codes(fs, s)
  {
    assert ([f] + fs)[1..] == fs;
  }

  /** A response that was reset with `codes`: all are kept and the first one is the reset. */
  ghost predicate ResetWith(r: Response, codes: seq<nat>) {
    r.resetCodes == codes && r.reset == if codes == [] then None else Some(codes[0])
  }

  lemma StreamReset(env: Env, t: Streams, f: Frame, s: nat, codes: seq<nat>)
    requires ResetWith(Of(t.responses, s), codes)
    ensures ResetWith(Of(OnStreams(env, t, f).0.responses, s), codes + CodeOf(f, s))
  {
    assert codes + [] == codes;
  }

  /** RST_STREAM and WINDOW_UPDATE frames never end handling. */
  lemma EndingKind(env: Env, c: Conn, f: Frame, s: nat)
    requires Process(env, c, f).halt != Fine
    ensures CodeOf(f, s) == [] && Increment(f, s) == 0
  {
  }

  lemma {:induction false} ResetsFrom(env: Env, c: Conn, fs: seq<Frame>, s: nat, codes: seq<nat>)
    requires c.halt == Fine && ResetWith(Of(c.streams.responses, s), codes)
    ensures ResetWith(Of(ProcessAll(env, c, fs).streams.responses, s), codes + Codes(Handled(env, c, fs), s))
    decreases |fs|
  {
    if fs == [] {
      assert codes + [] == codes;
    } else {
      var next := Into(env, c, fs);
      StreamReset(env, c.streams, fs[0], s, codes);
      if next.halt == Fine {
        ResetsFrom(env, next, fs[1..], s, codes + CodeOf(fs[0], s));
        CodesFirst(fs[0], Handled(env, next, fs[1..]), s);
        Assoc(codes, CodeOf(fs[0], s), Codes(Handled(env, next, fs[1..]), s));
      } else {
        EndingKind(env, c, fs[0], s);
        assert codes + [] == codes;
      }
    }
  }

  /** All reset codes of a stream that were handled are kept in order, and the first one stands. */
  lemma ResetsRecorded(env: Env, fs: seq<Frame>, s: nat)
    ensures ResetWith(Of(ProcessAll(env, START, fs).streams.responses, s), Codes(Handled(env, START, fs), s))
  {
    ResetsFrom(env, START, fs, s, []);
    assert [] + Codes(Handled(env, START, fs), s) == Codes(Handled(env, START, fs), s);
  }

  function Increment(f: Frame, s: nat): nat {
    if f.kind == 8 && f.stream == s then FromBytes(f.payload) % RESERVED_BIT else 0
  }

  function Increments(fs: seq<Frame>, s: nat): nat {
    if fs == [] then 0 else Increment(fs[0], s) + Increments(fs[1..], s)
  }

  lemma IncrementsFirst(f: Frame, fs: seq<Frame>, s: nat)
    ensures Increments([f] + fs, s) == Increment(f, s) + Increments(fs, s)
  {
    assert ([f] + fs)[1..] == fs;
  }

  lemma ControlWindow(env: Env, k: Control, f: Frame, s: nat)
    ensures Count(OnControl(env, k, f).0.windows, s) == Count(k.windows, s) + Increment(f, s)
  {
  }

  lemma {:induction false} WindowsFrom(env: Env, c: Conn, fs: seq<Frame>, s: nat)
    requires c.halt == Fine
    ensures Count(ProcessAll(env, c, fs).control.windows, s) ==
              Count(c.control.windows, s) + Increments(Handled(env, c, fs), s)
    decreases |fs|
  {
    if fs != [] {
      var next := Into(env, c, fs);
      ControlWindow(env, c.control, fs[0], s);
      if next.halt == Fine {
        WindowsFrom(env, next, fs[1..], s);
        IncrementsFirst(fs[0], Handled(env, next, fs[1..]), s);
      } else {
        EndingKind(env, c, fs[0], s);
      }
    }
  }

  /** A stream's window is the sum of the increments handled. */
  lemma WindowsSummed(env: Env, fs: seq<Frame>, s: nat)
    ensures Count(ProcessAll(env, START, fs).control.windows, s) == Increments(Handled(env, START, fs), s)
  {
    WindowsFrom(env, START, fs, s);
  }

  // ------------------------------------------------------- sent header blocks

  /** The first fragment of a header block as its sender frames it. */
  datatype Head = Head(flags: Byte, priority: Bytes, fragment: Bytes, pad: Bytes)

  predicate HeadOk(h: Head) { |h.priority| == (if Flag(h.flags, 32) then 5 else 0) && |h.pad| < 256 }

  function HeadersFrame(s: nat, h: Head): Frame
    requires HeadOk(h)
  {
    Frame(1, s, h.flags, if Flag(h.flags, 8) then Padded(h.priority + h.fragment, h.pad) else h.priority + h.fragment)
  }

  /** The blocks handed to the decoder for one stream. */
  function BlocksFor(decoded: seq<Decoded>, s: nat): seq<Bytes> {
    if decoded == [] then []
    else
      var last := decoded[|decoded| - 1];
      BlocksFor(decoded[..|decoded| - 1], s) + if last.stream == s then [last.block] else []
  }

  lemma BlocksPush(decoded: seq<Decoded>, d: Decoded, s: nat)
    ensures BlocksFor(decoded + [d], s) == BlocksFor(decoded, s) + if d.stream == s then [d.block] else []
  {
    assert (decoded + [d])[..|decoded|] == decoded;
  }

  predicate Own(f: Frame, s: nat) { (f.kind == 1 || f.kind == 9) && f.stream == s }

  /** The open block of a stream and the blocks it has finished. */
  ghost predicate Collecting(t: Streams, s: nat, block: Bytes, ending: bool, finished: seq<Bytes>) {
    OpenBlock(t.blocks, s) == Some(Pending(block, ending)) && BlocksFor(t.decoded, s) == finished
  }

  /** Frames of other kinds and other streams leave a stream's open block alone. */
  lemma OthersLeave(env: Env, t: Streams, f: Frame, s: nat)
    requires !Own(f, s)
    ensures OpenBlock(OnStreams(env, t, f).0.blocks, s) == OpenBlock(t.blocks, s)
    ensures BlocksFor(OnStreams(env, t, f).0.decoded, s) == BlocksFor(t.decoded, s)
  {
    if (f.kind == 1 || f.kind == 9) && !Undecoded(env, t, f) {
      var a := Assemble(f, OpenBlock(t.blocks, f.stream));
      if a.Grown? && a.complete {
        BlocksPush(t.decoded, Decoded(f.stream, a.pending.block), s);
        assert BlocksFor(t.decoded, s) + [] == BlocksFor(t.decoded, s);
      }
    }
  }

  /** The CONTINUATION fragments of a stream. */
  function FragmentOf(f: Frame, s: nat): Bytes { if Own(f, s) then f.payload else [] }

  function Fragments(fs: seq<Frame>, s: nat): Bytes {
    if fs == [] then [] else FragmentOf(fs[0], s) + Fragments(fs[1..], s)
  }

  /** In the middle of a block: its own CONTINUATION frames without END_HEADERS, and anything that is not its own. */
  ghost predicate Inner(f: Frame, s: nat) { Own(f, s) ==> f.kind == 9 && !Flag(f.flags, 4) }

  ghost predicate Middle(fs: seq<Frame>, s: nat) { forall i :: 0 <= i < |fs| ==> Inner(fs[i], s) }

  lemma InnerCollects(env: Env, t: Streams, f: Frame, s: nat, block: Bytes, ending: bool, finished: seq<Bytes>)
    requires Collecting(t, s, block, ending, finished) && Inner(f, s)
    ensures Collecting(OnStreams(env, t, f).0, s, block + FragmentOf(f, s), ending, finished)
  {
    if !Own(f, s) {
      OthersLeave(env, t, f, s);
      assert block + [] == block;
    }
  }

  lemma {:induction false} MiddleCollects(env: Env, c: Conn, fs: seq<Frame>, s: nat, block: Bytes, ending: bool,
                                          finished: seq<Bytes>)
    requires Middle(fs, s) && Collecting(c.streams, s, block, ending, finished) && ProcessAll(env, c, fs).halt == Fine
    ensures Collecting(ProcessAll(env, c, fs).streams, s, block + Fragments(fs, s), ending, finished)
    decreases |fs|
  {
    if fs == [] {
      assert block + [] == block;
    } else {
      HaltedStays(env, c, fs);
      var next := Into(env, c, fs);
      InnerCollects(env, c.streams, fs[0], s, block, ending, finished);
      Assoc(block, FragmentOf(fs[0], s), Fragments(fs[1..], s));
      MiddleCollects(env, next, fs[1..], s, block + FragmentOf(fs[0], s), ending, finished);
    }
  }

  /** What becomes of a completed block: the decoder takes it, or rejects it and it stays open. */
  ghost predicate Delivered(env: Env, t: Streams, d: Conn, s: nat, block: Bytes, ending: bool) {
    var all := t.decoded + [Decoded(s, block)];
    match env.decode(all)
    case Fields(_) =>
      && d.halt == Fine && d.streams.decoded == all && OpenBlock(d.streams.blocks, s) == None
      && (ending ==> Of(d.streams.responses, s).ended)
    case Undecodable =>
      d.halt == Raised && d.streams.decoded == t.decoded
      && OpenBlock(d.streams.blocks, s) == Some(Pending(block, ending))
  }

  /** A frame that completes its stream's block. */
  lemma BlockCompleted(env: Env, c: Conn, f: Frame, pending: Pending)
    requires (f.kind == 1 || f.kind == 9) && Assemble(f, OpenBlock(c.streams.blocks, f.stream)) == Grown(pending, true)
    ensures Delivered(env, c.streams, Process(env, c, f), f.stream, pending.block, pending.ending)
  {
  }

  lemma HeadAssembled(s: nat, h: Head, open: Option<Pending>)
    requires HeadOk(h)
    ensures Assemble(HeadersFrame(s, h), open) == Grown(Pending(h.fragment, Flag(h.flags, 1)), Flag(h.flags, 4))
  {
    HeadersStripped(h.flags, h.priority, h.fragment, h.pad);
    assert [] + h.fragment == h.fragment;
  }

  /** What follows the HEADERS frame of a block: nothing when that ends it, else frames up to the last CONTINUATION. */
  ghost predicate Follows(tail: seq<Frame>, s: nat, h: Head) {
    if Flag(h.flags, 4) then tail == []
    else
      && tail != [] && Middle(tail[..|tail| - 1], s)
      && var last := tail[|tail| - 1]; last.kind == 9 && last.stream == s && Flag(last.flags, 4)
  }

  lemma {:induction false} FragmentsLast(fs: seq<Frame>, last: Frame, s: nat)
    requires Own(last, s)
    ensures Fragments(fs + [last], s) == Fragments(fs, s) + last.payload
  {
    if fs == [] {
      assert fs + [last] == [last] && [last][1..] == [];
      assert [] + last.payload == last.payload + [];
    } else {
      assert (fs + [last])[1..] == fs[1..] + [last];
      FragmentsLast(fs[1..], last, s);
      Assoc(FragmentOf(fs[0], s), Fragments(fs[1..], s), last.payload);
    }
  }

  lemma OneFrame(env: Env, c: Conn, f: Frame)
    requires c.halt == Fine
    ensures ProcessAll(env, c, [f]) == Process(env, c, f)
  {
    assert [f][1..] == [];
  }

  /** The block is complete in its HEADERS frame. */
  lemma WholeBlock(env: Env, c: Conn, s: nat, h: Head)
    requires HeadOk(h) && Flag(h.flags, 4) && c.halt == Fine
    ensures Delivered(env, c.streams, ProcessAll(env, c, [HeadersFrame(s, h)]), s, h.fragment, Flag(h.flags, 1))
  {
    OneFrame(env, c, HeadersFrame(s, h));
    HeadAssembled(s, h, OpenBlock(c.streams.blocks, s));
    BlockCompleted(env, c, HeadersFrame(s, h), Pending(h.fragment, Flag(h.flags, 1)));
  }

  /** A HEADERS frame and what follows it collect the block up to its last frame. */
  lemma BlockCollected(env: Env, c: Conn, s: nat, h: Head, mid: seq<Frame>)
    requires HeadOk(h) && !Flag(h.flags, 4) && Middle(mid, s)
    requires c.halt == Fine && ProcessAll(env, c, [HeadersFrame(s, h)] + mid).halt == Fine
    ensures Collecting(ProcessAll(env, c, [HeadersFrame(s, h)] + mid).streams, s,
                       h.fragment + Fragments(mid, s), Flag(h.flags, 1), BlocksFor(c.streams.decoded, s))
  {
    var fs, finished := [HeadersFrame(s, h)] + mid, BlocksFor(c.streams.decoded, s);
    var begun := Into(env, c, fs);
    assert fs[1..] == mid;
    HeadAssembled(s, h, OpenBlock(c.streams.blocks, s));
    assert Collecting(begun.streams, s, h.fragment, Flag(h.flags, 1), finished);
    MiddleCollects(env, begun, mid, s, h.fragment, Flag(h.flags, 1), finished);
  }

  /** The block is continued. */
  lemma CutBlock(env: Env, c: Conn, s: nat, h: Head, mid: seq<Frame>, last: Frame)
    requires HeadOk(h) && !Flag(h.flags, 4) && Middle(mid, s) && last.kind == 9 && last.stream == s
    requires Flag(last.flags, 4)
    requires c.halt == Fine && ProcessAll(env, c, [HeadersFrame(s, h)] + mid).halt == Fine
    ensures var t := ProcessAll(env, c, [HeadersFrame(s, h)] + mid).streams;
            && Delivered(env, t, ProcessAll(env, c, [HeadersFrame(s, h)] + mid + [last]), s,
                         h.fragment + Fragments(mid, s) + last.payload, Flag(h.flags, 1))
            && BlocksFor(t.decoded, s) == BlocksFor(c.streams.decoded, s)
  {
    var first := [HeadersFrame(s, h)] + mid;
    var collected := ProcessAll(env, c, first);
    BlockCollected(env, c, s, h, mid);
    ProcessAppend(env, c, first, [last]);
    OneFrame(env, collected, last);
    BlockCompleted(env, collected, last, Pending(h.fragment + Fragments(mid, s) + last.payload, Flag(h.flags, 1)));
  }

  /**
   For any decoder and socket: a header block, whole in its HEADERS frame or cut into CONTINUATION
   frames, padded or not, with a priority or not, reaches the decoder as it was sent, even with
   frames of other kinds and other streams in between, unless one of those ended handling before its
   last frame; END_STREAM on its HEADERS frame ends the response.
   */
  lemma BlockReassembled(env: Env, c: Conn, s: nat, h: Head, tail: seq<Frame>)
    requires c.halt == Fine && HeadOk(h) && Follows(tail, s, h)
    requires |Handled(env, c, [HeadersFrame(s, h)] + tail)| >= |tail|
    ensures var fs := [HeadersFrame(s, h)] + tail;
            var t := ProcessAll(env, c, fs[..|tail|]).streams;
            && Delivered(env, t, ProcessAll(env, c, fs), s, h.fragment + Fragments(tail, s), Flag(h.flags, 1))
            && BlocksFor(t.decoded, s) == BlocksFor(c.streams.decoded, s)
  {
    var f := HeadersFrame(s, h);
    var fs := [f] + tail;
    if Flag(h.flags, 4) {
      assert fs == [f] && fs[..0] == [];
      WholeBlock(env, c, s, h);
      assert h.fragment + [] == h.fragment;
    } else {
      var mid, last := tail[..|tail| - 1], tail[|tail| - 1];
      assert tail == mid + [last] && fs[..|tail|] == [f] + mid;
      HandledFine(env, c, fs, |tail|);
      Assoc([f], mid, [last]);
      CutBlock(env, c, s, h, mid, last);
      FragmentsLast(mid, last, s);
      Assoc(h.fragment, Fragments(mid, s), last.payload);
    }
  }

  // ----------------------------------------------------------------- statuses

  /** The statuses the decoder named for a stream's blocks. */
  ghost function Statuses(env: Env, decoded: seq<Decoded>, s: nat): seq<int> {
    if decoded == [] then []
    else
      var before, fields := Statuses(env, decoded[..|decoded| - 1], s), env.decode(decoded);
      if decoded[|decoded| - 1].stream == s && fields.Fields? && fields.status.Some? then before + [fields.status.value]
      else before
  }

  ghost predicate StatusesOk(env: Env, t: Streams, s: nat) {
    Of(t.responses, s).statuses == Statuses(env, t.decoded, s)
  }

  lemma BlockStatuses(env: Env, t: Streams, stream: nat, pending: Pending, s: nat)
    requires StatusesOk(env, t, s)
    ensures StatusesOk(env, OnBlock(env, t, stream, pending).0, s)
  {
    var all := t.decoded + [Decoded(stream, pending.block)];
    assert all[..|all| - 1] == t.decoded;
  }

  /** Only a completed block touches a stream's statuses. */
  lemma OthersKeepStatuses(env: Env, t: Streams, f: Frame, s: nat)
    requires f.kind == 1 || f.kind == 9 ==>
               var a := Assemble(f, OpenBlock(t.blocks, f.stream)); !(a.Grown? && a.complete)
    ensures var u := OnStreams(env, t, f).0;
            u.decoded == t.decoded && Of(u.responses, s).statuses == Of(t.responses, s).statuses
  {
  }

  lemma StreamStatuses(env: Env, t: Streams, f: Frame, s: nat)
    requires StatusesOk(env, t, s)
    ensures StatusesOk(env, OnStreams(env, t, f).0, s)
  {
    var a := Assemble(f, OpenBlock(t.blocks, f.stream));
    if (f.kind == 1 || f.kind == 9) && a.Grown? && a.complete {
      BlockStatuses(env, t, f.stream, a.pending, s);
    } else {
      OthersKeepStatuses(env, t, f, s);
    }
  }

  lemma {:induction false} StatusesFrom(env: Env, c: Conn, fs: seq<Frame>, s: nat)
    requires StatusesOk(env, c.streams, s)
    ensures StatusesOk(env, ProcessAll(env, c, fs).streams, s)
    decreases |fs|
  {
    if fs != [] && c.halt == Fine {
      StreamStatuses(env, c.streams, fs[0], s);
      StatusesFrom(env, Process(env, c, fs[0]), fs[1..], s);
    }
  }

  /** A stream's statuses are those of its decoded blocks in order, for every frame list and all oracles. */
  lemma StatusesRecorded(env: Env, fs: seq<Frame>, s: nat)
    ensures var t := ProcessAll(env, START, fs).streams; Of(t.responses, s).statuses == Statuses(env, t.decoded, s)
  {
    StatusesFrom(env, START, fs, s);
  }

  // ---------------------------------------------------------------- end to end

  /**
   For any decoder and socket, from pieces framed by a sender, over any cut of the bytes, to the
   recorded body and the answers.
   */
  lemma BodiesArrive(env: Env, fs: seq<Frame>, chunks: seq<Bytes>, s: nat, pieces: seq<Piece>)
    requires Sendable(fs) && Concat(chunks) == EncodeAll(fs)
    requires forall i :: 0 <= i < |fs| ==> fs[i].stream < RESERVED_BIT
    requires Carries(fs, s, pieces)
    ensures var got, done := FrameCodec.Observe([], chunks), Handled(env, START, fs);
            && got == Drained(fs, [], false) && DataCount(done, s) <= |pieces|
            && (done == fs ==> DataCount(done, s) == |pieces|)
            && Holds(Of(ProcessAll(env, START, got.frames).streams.responses, s), Data(pieces[..DataCount(done, s)]))
            && ProcessAll(env, START, got.frames).control.sent == Answers(done)
  {
    FrameRoundTrip(fs, chunks);
    NothingToClear(fs);
    BodyRecorded(env, fs, s, pieces);
    AllAnswered(env, fs, 0);
  }

  lemma {:induction false} NothingToClear(fs: seq<Frame>)
    requires forall i :: 0 <= i < |fs| ==> fs[i].stream < RESERVED_BIT
    ensures ClearedAll(fs) == fs
  {
    if fs != [] { NothingToClear(fs[1..]); }
  }
}
