/**
 The HTTP/2 frame layout of section 4.1 of RFC 9113 as tests/http2_control_comparison.py writes
 it and reads it back from a stream that arrives in arbitrary pieces.
 */
module FrameCodec {
  import opened Basics

  type Bytes = seq<Byte>

  // ---------------------------------------------------------- big-endian numbers

  function FromBytes(s: Bytes): nat {
    if s == [] then 0 else FromBytes(s[..|s| - 1]) * 256 + s[|s| - 1]
  }

  /** The last `width` bytes of a number. */
  function ToBytes(n: nat, width: nat): (s: Bytes)
    ensures |s| == width
  {
    if width == 0 then [] else ToBytes(n / 256, width - 1) + [n % 256]
  }

  /** `to_bytes` raises when the number does not fit. */
  predicate Fits(n: nat, width: nat) {
    if width == 0 then n == 0 else Fits(n / 256, width - 1)
  }

  lemma {:induction false} NumberRoundTrip(n: nat, width: nat)
    requires Fits(n, width)
    ensures FromBytes(ToBytes(n, width)) == n
  {
    if width > 0 {
      NumberRoundTrip(n / 256, width - 1);
      assert ToBytes(n, width)[..width - 1] == ToBytes(n / 256, width - 1);
    }
  }

  lemma {:induction false} BytesRoundTrip(s: Bytes)
    ensures Fits(FromBytes(s), |s|) && ToBytes(FromBytes(s), |s|) == s
  {
    if s != [] {
      BytesRoundTrip(s[..|s| - 1]);
      assert s == s[..|s| - 1] + [s[|s| - 1]];
      assert FromBytes(s) / 256 == FromBytes(s[..|s| - 1]) && FromBytes(s) % 256 == s[|s| - 1];
    }
  }

  lemma FitsBounds(n: nat)
    ensures Fits(n, 2) <==> n < 0x1_0000
    ensures Fits(n, 3) <==> n < 0x100_0000
    ensures Fits(n, 4) <==> n < 0x1_0000_0000
  {
    assert Fits(n / 256 / 256 / 256 / 256, 0) <==> n < 0x1_0000_0000;
    assert Fits(n / 256 / 256 / 256, 0) <==> n < 0x100_0000;
    assert Fits(n / 256 / 256, 0) <==> n < 0x1_0000;
    assert Fits(n / 256 / 256 / 256, 1) <==> n < 0x1_0000_0000;
    assert Fits(n / 256 / 256, 1) <==> n < 0x100_0000;
    assert Fits(n / 256 / 256, 2) <==> n < 0x1_0000_0000;
  }

  // --------------------------------------------------------------------- frames

  datatype Frame = Frame(kind: Byte, stream: nat, flags: Byte, payload: Bytes)

  predicate Encodable(f: Frame) { |f.payload| < 0x100_0000 && f.stream < 0x1_0000_0000 }

  /** `frame`; it raises OverflowError for a length or stream that does not fit its field. */
  function Encode(f: Frame): Option<Bytes> {
    if !Encodable(f) then None
    else Some(ToBytes(|f.payload|, 3) + [f.kind, f.flags] + ToBytes(f.stream, 4) + f.payload)
  }

  const BUDGET: nat := 1024 * 1024
  const RESERVED_BIT: nat := 0x8000_0000

  function Cleared(f: Frame): Frame { f.(stream := f.stream % RESERVED_BIT) }

  datatype Parsed = NeedMore | TooLarge | Got(frame: Frame, rest: Bytes)

  /** One turn of the parsing loop. */
  function Next(b: Bytes): (p: Parsed)
    ensures p.Got? ==> |p.rest| < |b|
  {
    if |b| < 9 then NeedMore
    else
      var size := FromBytes(b[..3]) + 9;
      if size > BUDGET then TooLarge
      else if |b| < size then NeedMore
      else Got(Frame(b[3], FromBytes(b[5..9]) % RESERVED_BIT, b[4], b[9..size]), b[size..])
  }

  datatype Drained = Drained(frames: seq<Frame>, rest: Bytes, tooLarge: bool)

  /** All frames at the front of a buffer. */
  function Drain(b: Bytes): Drained
    decreases |b|
  {
    match Next(b)
    case NeedMore => Drained([], b, false)
    case TooLarge => Drained([], b, true)
    case Got(f, rest) => var d := Drain(rest); d.(frames := [f] + d.frames)
  }

  // ---------------------------------------------------------- arbitrary pieces

  /** More input never changes a frame that is already there. */
  lemma NextExtends(b: Bytes, more: Bytes)
    ensures Next(b).TooLarge? ==> Next(b + more).TooLarge?
    ensures Next(b).Got? ==> Next(b + more) == Got(Next(b).frame, Next(b).rest + more)
  {
    if |b| >= 9 {
      assert (b + more)[..3] == b[..3] && (b + more)[5..9] == b[5..9];
      var size := FromBytes(b[..3]) + 9;
      if size <= |b| {
        assert (b + more)[9..size] == b[9..size] && (b + more)[size..] == b[size..] + more;
      }
    }
  }

  /** `e` drains what `d` left over, followed by `more`. */
  ghost predicate Resumes(d: Drained, more: Bytes, e: Drained) {
    if d.tooLarge then e.frames == d.frames && e.tooLarge
    else var f := Drain(d.rest + more); e == Drained(d.frames + f.frames, f.rest, f.tooLarge)
  }

  lemma ResumesLater(f: Frame, d: Drained, more: Bytes, e: Drained)
    requires Resumes(d, more, e)
    ensures Resumes(d.(frames := [f] + d.frames), more, e.(frames := [f] + e.frames))
  {
    if !d.tooLarge {
      var g := Drain(d.rest + more);
      assert [f] + (d.frames + g.frames) == [f] + d.frames + g.frames;
    }
  }

  lemma {:induction false} DrainExtends(b: Bytes, more: Bytes)
    ensures Resumes(Drain(b), more, Drain(b + more))
    decreases |b|
  {
    NextExtends(b, more);
    if Next(b).Got? {
      var f, rest := Next(b).frame, Next(b).rest;
      DrainExtends(rest, more);
      ResumesLater(f, Drain(rest), more, Drain(rest + more));
    } else if Next(b).NeedMore? {
      assert [] + Drain(b + more).frames == Drain(b + more).frames;
    }
  }

  function Concat(chunks: seq<Bytes>): Bytes {
    if chunks == [] then [] else chunks[0] + Concat(chunks[1..])
  }

  /** The observer: append a chunk, drain, repeat; an oversized frame ends it. */
  function Observe(buffer: Bytes, chunks: seq<Bytes>): Drained
    decreases |chunks|
  {
    if chunks == [] then Drained([], buffer, false)
    else
      var d := Drain(buffer + chunks[0]);
      if d.tooLarge then d
      else var e := Observe(d.rest, chunks[1..]); e.(frames := d.frames + e.frames)
  }

  /** Nothing is left to parse in what a drain leaves behind. */
  lemma {:induction false} DrainSettles(b: Bytes)
    ensures !Drain(b).tooLarge ==> Drain(Drain(b).rest) == Drained([], Drain(b).rest, false)
    decreases |b|
  {
    if Next(b).Got? { DrainSettles(Next(b).rest); }
  }

  /** However the stream is cut into pieces, the frames are those of the whole stream. */
  lemma {:induction false} ChunkInvariance(buffer: Bytes, chunks: seq<Bytes>)
    requires Drain(buffer) == Drained([], buffer, false)
    ensures var d, e := Drain(buffer + Concat(chunks)), Observe(buffer, chunks);
            && e.frames == d.frames && e.tooLarge == d.tooLarge && (!d.tooLarge ==> e.rest == d.rest)
    decreases |chunks|
  {
    if chunks == [] {
      assert buffer + Concat(chunks) == buffer;
    } else {
      var first, rest := buffer + chunks[0], Concat(chunks[1..]);
      assert buffer + Concat(chunks) == first + rest;
      DrainExtends(first, rest);
      if !Drain(first).tooLarge {
        DrainSettles(first);
        ChunkInvariance(Drain(first).rest, chunks[1..]);
      }
    }
  }

  // -------------------------------------------------------------------- round trip

  /** A written frame is read back, less its reserved bit, whatever follows it. */
  lemma EncodeNext(f: Frame, rest: Bytes)
    requires Encodable(f)
    ensures Next(Encode(f).value + rest) == if |f.payload| + 9 > BUDGET then TooLarge else Got(Cleared(f), rest)
  {
    var b := Encode(f).value + rest;
    FitsBounds(|f.payload|);
    FitsBounds(f.stream);
    NumberRoundTrip(|f.payload|, 3);
    NumberRoundTrip(f.stream, 4);
    assert b[..3] == ToBytes(|f.payload|, 3);
    assert b[3] == f.kind && b[4] == f.flags;
    assert b[5..9] == ToBytes(f.stream, 4);
    assert b[9..|f.payload| + 9] == f.payload;
    assert b[|f.payload| + 9..] == rest;
  }

  /** A frame that was read is exactly what was written, for some value of the reserved bit. */
  lemma NextEncodes(b: Bytes)
    requires Next(b).Got?
    ensures exists raw: nat :: raw % RESERVED_BIT == Next(b).frame.stream
              && Encode(Next(b).frame.(stream := raw)).Some?
              && b == Encode(Next(b).frame.(stream := raw)).value + Next(b).rest
  {
    var f, raw := Next(b).frame, FromBytes(b[5..9]);
    BytesRoundTrip(b[..3]);
    BytesRoundTrip(b[5..9]);
    FitsBounds(FromBytes(b[..3]));
    FitsBounds(raw);
    assert b == b[..3] + [b[3], b[4]] + b[5..9] + f.payload + Next(b).rest;
    assert Encode(f.(stream := raw)).value + Next(b).rest == b;
  }

  ghost predicate Sendable(fs: seq<Frame>) {
    forall i :: 0 <= i < |fs| ==> Encodable(fs[i]) && |fs[i].payload| + 9 <= BUDGET
  }

  function EncodeAll(fs: seq<Frame>): Bytes
    requires forall i :: 0 <= i < |fs| ==> Encodable(fs[i])
  {
    if fs == [] then [] else Encode(fs[0]).value + EncodeAll(fs[1..])
  }

  function ClearedAll(fs: seq<Frame>): seq<Frame> {
    if fs == [] then [] else [Cleared(fs[0])] + ClearedAll(fs[1..])
  }

  lemma {:induction false} DrainEncoded(fs: seq<Frame>)
    requires Sendable(fs)
    ensures Drain(EncodeAll(fs)) == Drained(ClearedAll(fs), [], false)
  {
    if fs != [] {
      EncodeNext(fs[0], EncodeAll(fs[1..]));
      DrainEncoded(fs[1..]);
    }
  }

  /** Any frames within the budget, cut into any pieces, are observed as they were written. */
  lemma FrameRoundTrip(fs: seq<Frame>, chunks: seq<Bytes>)
    requires Sendable(fs) && Concat(chunks) == EncodeAll(fs)
    ensures Observe([], chunks) == Drained(ClearedAll(fs), [], false)
  {
    DrainEncoded(fs);
    ChunkInvariance([], chunks);
    assert [] + Concat(chunks) == Concat(chunks);
  }

  /** A frame over the budget stops the observer after everything before it. */
  lemma OversizedStops(fs: seq<Frame>, big: Frame, rest: Bytes, chunks: seq<Bytes>)
    requires Sendable(fs) && Encodable(big) && |big.payload| + 9 > BUDGET
    requires Concat(chunks) == EncodeAll(fs) + (Encode(big).value + rest)
    ensures Observe([], chunks).frames == ClearedAll(fs) && Observe([], chunks).tooLarge
  {
    var tail := Encode(big).value + rest;
    DrainEncoded(fs);
    DrainExtends(EncodeAll(fs), tail);
    assert [] + tail == tail;
    EncodeNext(big, rest);
    ChunkInvariance([], chunks);
    assert [] + Concat(chunks) == Concat(chunks);
  }
}
