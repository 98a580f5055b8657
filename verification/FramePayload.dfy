/**
 Payload layouts of HTTP/2 frames: padding and priority (sections 6.1 and 6.2 of RFC 9113), settings
 (section 6.5) and GOAWAY (section 6.8), as tests/http2_control_comparison.py reads them.
 */
module FramePayload {
  import opened Basics
  import opened FrameCodec

  predicate Flag(flags: nat, bit: nat)
    requires bit > 0
  {
    flags / bit % 2 == 1
  }

  function Take(s: Bytes, n: nat): Bytes { if n < |s| then s[..n] else s }
  function Skip(s: Bytes, n: nat): Bytes { if n < |s| then s[n..] else [] }

  // ------------------------------------------------------------ stripping

  /** `payload[1:len(payload) - payload[0]]`, where a negative end counts from the back; empty input raises. */
  function Unpad(payload: Bytes): Option<Bytes> {
    if payload == [] then None
    else
      var n, end := |payload|, |payload| - payload[0];
      var stop := if end >= 0 then end else if end + n >= 0 then end + n else 0;
      Some(if 1 < stop then payload[1..stop] else [])
  }

  /** The fragment of a HEADERS frame. */
  function HeadersFragment(flags: Byte, payload: Bytes): Option<Bytes> {
    var unpadded := if Flag(flags, 8) then Unpad(payload) else Some(payload);
    if unpadded.None? then None else Some(if Flag(flags, 32) then Skip(unpadded.value, 5) else unpadded.value)
  }

  function DataBody(flags: Byte, payload: Bytes): Option<Bytes> {
    if Flag(flags, 8) then Unpad(payload) else Some(payload)
  }

  /** The padding layout of section 6.1 of RFC 9113. */
  function Padded(body: Bytes, pad: Bytes): Bytes
    requires |pad| < 256
  {
    [|pad|] + body + pad
  }

  lemma UnpadPadded(body: Bytes, pad: Bytes)
    requires |pad| < 256
    ensures Unpad(Padded(body, pad)) == Some(body)
  {
    var p := Padded(body, pad);
    assert p[1..|p| - |pad|] == body;
  }

  /**
   Section 6.1 calls a payload malformed when its padding is at least as long as the payload.  The
   client does not notice; it strips such a payload to nothing except when the slice's end wraps
   around to the back.
   */
  lemma UnpadMalformed(payload: Bytes)
    requires payload != [] && payload[0] >= |payload|
    ensures Unpad(payload) == Some([]) <==> payload[0] == |payload| || payload[0] + 1 >= 2 * |payload|
  {
  }

  /** Such a payload: the pad length is over the payload's length, the end is -1, and a byte is kept. */
  lemma UnpadWraps(a: Byte, b: Byte)
    ensures Unpad([4, a, b]) == Some([a])
  {
    assert [4, a, b][1..2] == [a];
  }

  lemma HeadersStripped(flags: Byte, priority: Bytes, body: Bytes, pad: Bytes)
    requires |priority| == (if Flag(flags, 32) then 5 else 0) && |pad| < 256
    ensures HeadersFragment(flags, if Flag(flags, 8) then Padded(priority + body, pad) else priority + body) ==
              Some(body)
  {
    if Flag(flags, 8) { UnpadPadded(priority + body, pad); }
    assert (priority + body)[|priority|..] == body;
  }

  // ------------------------------------------------------------- settings

  /** `setting`; both fields have to fit. */
  function Setting(code: nat, value: nat): (b: Bytes)
    ensures |b| == 6
  {
    ToBytes(code, 2) + ToBytes(value, 4)
  }

  /** The settings loop; a short last entry raises after the entries before it. */
  function Configure(m: map<nat, nat>, payload: Bytes): (map<nat, nat>, bool)
    decreases |payload|
  {
    if payload == [] then (m, true)
    else if |payload| < 6 then (m, false)
    else Configure(m[FromBytes(payload[..2]) := FromBytes(payload[2..6])], payload[6..])
  }

  function SettingsPayload(list: seq<(nat, nat)>): Bytes {
    if list == [] then [] else Setting(list[0].0, list[0].1) + SettingsPayload(list[1..])
  }

  function Assigned(m: map<nat, nat>, list: seq<(nat, nat)>): map<nat, nat>
    decreases |list|
  {
    if list == [] then m else Assigned(m[list[0].0 := list[0].1], list[1..])
  }

  lemma {:induction false} SettingsRoundTrip(m: map<nat, nat>, list: seq<(nat, nat)>)
    requires forall i :: 0 <= i < |list| ==> list[i].0 < 0x1_0000 && list[i].1 < 0x1_0000_0000
    ensures Configure(m, SettingsPayload(list)) == (Assigned(m, list), true)
    decreases |list|
  {
    if list != [] {
      var (code, value) := list[0];
      var p := SettingsPayload(list);
      FitsBounds(code);
      FitsBounds(value);
      NumberRoundTrip(code, 2);
      NumberRoundTrip(value, 4);
      assert p[..2] == ToBytes(code, 2) && p[2..6] == ToBytes(value, 4) && p[6..] == SettingsPayload(list[1..]);
      SettingsRoundTrip(m[code := value], list[1..]);
    }
  }

  lemma {:induction false} ConfigureOk(m: map<nat, nat>, payload: Bytes)
    ensures Configure(m, payload).1 <==> |payload| % 6 == 0
    decreases |payload|
  {
    if |payload| >= 6 { ConfigureOk(m[FromBytes(payload[..2]) := FromBytes(payload[2..6])], payload[6..]); }
  }

  // -------------------------------------------------------------- goaway

  datatype Goaway = Goaway(lastStream: nat, code: nat, debug: Bytes)

  function ReadGoaway(payload: Bytes): Goaway {
    Goaway(FromBytes(Take(payload, 4)) % RESERVED_BIT, FromBytes(Take(Skip(payload, 4), 4)),
           Take(Skip(payload, 8), 256))
  }

  lemma Fields(a: Bytes, b: Bytes, rest: Bytes)
    requires |a| == 4 && |b| == 4
    ensures var p := a + b + rest; Take(p, 4) == a && Take(Skip(p, 4), 4) == b && Skip(p, 8) == rest
  {
  }

  /** A GOAWAY payload is read back, with at most 256 bytes of debug data. */
  lemma GoawayRead(last: nat, code: nat, debug: Bytes)
    requires last < 0x1_0000_0000 && code < 0x1_0000_0000
    ensures ReadGoaway(ToBytes(last, 4) + ToBytes(code, 4) + debug) ==
              Goaway(last % RESERVED_BIT, code, Take(debug, 256))
  {
    FitsBounds(last);
    FitsBounds(code);
    NumberRoundTrip(last, 4);
    NumberRoundTrip(code, 4);
    Fields(ToBytes(last, 4), ToBytes(code, 4), debug);
  }
}
