/** The legacy command envelope: device parser, encoder, and the companion's image commands and ATT fragments. */
module StockProtocol {
  import opened Bytes

  const PAYLOAD_MAX := 256
  const FRAME_MAX := PAYLOAD_MAX + 4
  const IMAGE_CHUNK_MAX := 255

  datatype FrameResult = FrameOk | BadHeader | TooLarge
  datatype Frame = Frame(kind: byte, payload: seq<byte>)
  datatype Fed = Fed(buffer: seq<byte>, result: FrameResult, frame: Option<Frame>)

  function PayloadLength(b: seq<byte>): nat
    requires |b| >= 4
  {
    Read16(b, 2)
  }

  /** One ATT write into the parser: at most one frame comes out, and what follows it in the write is dropped. */
  function Feed(buffer: seq<byte>, data: seq<byte>): (r: Fed)
    ensures r.frame.Some? ==> r.buffer == [] && r.result == FrameOk
    decreases |data|
  {
    if data == [] then Fed(buffer, FrameOk, None)
    else if |buffer| >= FRAME_MAX then Fed([], BadHeader, None)
    else
      var b := buffer + [data[0]];
      if |b| < 4 then Feed(b, data[1..])
      else if b[0] != 1 then Fed([], BadHeader, None)
      else if PayloadLength(b) > PAYLOAD_MAX then Fed([], TooLarge, None)
      else if |b| == PayloadLength(b) + 4 then Fed([], FrameOk, Some(Frame(b[1], b[4..])))
      else Feed(b, data[1..])
  }

  /** The parser's fixed buffer. */
  class Stream {
    const bytes: array<byte>
    var used: nat

    ghost predicate Valid()
      reads this
    {
      bytes.Length == FRAME_MAX && used <= FRAME_MAX
    }

    ghost function Contents(): seq<byte>
      requires Valid()
      reads this, bytes
    {
      bytes[..used]
    }

    constructor ()
      ensures Valid() && Contents() == [] && fresh(bytes)
    {
      bytes := new byte[FRAME_MAX](_ => 0);
      used := 0;
    }

    method Reset()
      requires Valid()
      modifies this
      ensures Valid() && Contents() == []
    {
      used := 0;
    }

    method FeedWrite(data: seq<byte>) returns (result: FrameResult, frame: Option<Frame>)
      requires Valid()
      modifies this, bytes
      ensures Valid() && Fed(Contents(), result, frame) == Feed(old(Contents()), data)
    {
      var i := 0;
      while i < |data|
        invariant 0 <= i <= |data| && Valid()
        invariant Feed(old(Contents()), data) == Feed(Contents(), data[i..])
      {
        if used >= FRAME_MAX { used := 0; return BadHeader, None; }
        ghost var before := Contents();
        bytes[used] := data[i];
        used := used + 1;
        assert Contents() == before + [data[i]];
        assert data[i..][1..] == data[i + 1..];
        i := i + 1;
        if used < 4 { continue; }
        if bytes[0] != 1 { used := 0; return BadHeader, None; }
        var lo: int, hi: int := bytes[2], bytes[3];
        if lo + 0x100 * hi > PAYLOAD_MAX { used := 0; return TooLarge, None; }
        if used == lo + 0x100 * hi + 4 {
          frame := Some(Frame(bytes[1], bytes[4..used]));
          used := 0;
          return FrameOk, frame;
        }
      }
      result, frame := FrameOk, None;
    }
  }

  function Encode(f: Frame): (b: seq<byte>)
    requires |f.payload| <= PAYLOAD_MAX
    ensures |b| == |f.payload| + 4
  {
    [1, f.kind] + Le16(|f.payload|) + f.payload
  }

  lemma EncodedLength(f: Frame, b: seq<byte>)
    requires |f.payload| <= PAYLOAD_MAX && 4 <= |b| <= |Encode(f)| && b == Encode(f)[..|b|]
    ensures b[0] == 1 && b[1] == f.kind && PayloadLength(b) == |f.payload|
  {
    assert b[2..4] == Encode(f)[2..4] == Le16(|f.payload|);
    ReadLe16(b, 2, |f.payload|);
  }

  /** However an encoded frame is cut into writes, the parser holds exactly what came so far until the frame is whole, and
      then delivers it once; whatever the last write carries after the frame is dropped. */
  lemma {:induction false} FeedEncoded(f: Frame, held: seq<byte>, data: seq<byte>)
    requires |f.payload| <= PAYLOAD_MAX && |held| < |Encode(f)| && held == Encode(f)[..|held|]
    requires held + data <= Encode(f) || Encode(f) <= held + data
    ensures Feed(held, data) == if |held| + |data| < |Encode(f)| then Fed(held + data, FrameOk, None) else Fed([], FrameOk, Some(f))
    decreases |data|
  {
    var e := Encode(f);
    if data == [] {
      assert held + data == held;
    } else {
      var b := held + [data[0]];
      assert b == e[..|b|] by {
        assert (held + data)[|held|] == data[0];
        if held + data <= e { assert e[|held|] == data[0]; } else { assert e[|held|] == (held + data)[|held|]; }
      }
      assert b + data[1..] == held + data;
      if |b| >= 4 { EncodedLength(f, b); }
      if |b| == |e| {
        assert b == e && e[4..] == f.payload;
      } else {
        FeedEncoded(f, b, data[1..]);
      }
    }
  }

  // ----- the companion's fragments

  function Fragments(frame: seq<byte>, capacity: nat): (parts: seq<seq<byte>>)
    requires capacity > 0
    ensures forall p | p in parts :: 0 < |p| <= capacity
    ensures frame != [] ==> parts != []
    decreases |frame|
  {
    if frame == [] then []
    else
      var n := if capacity < |frame| then capacity else |frame|;
      [frame[..n]] + Fragments(frame[n..], capacity)
  }

  function Flatten(parts: seq<seq<byte>>): seq<byte> {
    if parts == [] then [] else parts[0] + Flatten(parts[1..])
  }

  lemma {:induction false} FragmentsFlatten(frame: seq<byte>, capacity: nat)
    requires capacity > 0
    ensures Flatten(Fragments(frame, capacity)) == frame
    decreases |frame|
  {
    if frame != [] {
      var n := if capacity < |frame| then capacity else |frame|;
      FragmentsFlatten(frame[n..], capacity);
      assert frame[..n] + frame[n..] == frame;
      assert Fragments(frame, capacity)[1..] == Fragments(frame[n..], capacity);
    }
  }

  lemma {:induction false} FlattenAppend(parts: seq<seq<byte>>, last: seq<byte>)
    ensures Flatten(parts + [last]) == Flatten(parts) + last
  {
    if parts == [] {
      assert parts + [last] == [last] && [last][1..] == [];
    } else {
      assert (parts + [last])[1..] == parts[1..] + [last];
      FlattenAppend(parts[1..], last);
    }
  }

  lemma FragmentStep(frame: seq<byte>, offset: nat, capacity: nat)
    requires capacity > 0 && offset < |frame|
    ensures var end := if |frame| < offset + capacity then |frame| else offset + capacity;
            Fragments(frame[offset..], capacity) == [frame[offset..end]] + Fragments(frame[end..], capacity)
  {
    var end := if |frame| < offset + capacity then |frame| else offset + capacity;
    assert frame[offset..][..end - offset] == frame[offset..end];
    assert frame[offset..][end - offset..] == frame[end..];
  }

  method BuildFragments(frame: seq<byte>, mtu: nat) returns (r: Option<seq<seq<byte>>>)
    ensures r.Some? <==> 23 <= mtu <= 517
    ensures r.Some? ==> r.value == Fragments(frame, mtu - 3)
  {
    hide Fragments;
    if mtu < 23 || mtu > 517 { return None; }
    var capacity, offset := mtu - 3, 0;
    var parts: seq<seq<byte>> := [];
    assert frame[0..] == frame;
    while offset < |frame|
      invariant offset >= 0
      invariant parts + Fragments(if offset < |frame| then frame[offset..] else [], capacity) == Fragments(frame, capacity)
    {
      FragmentStep(frame, offset, capacity);
      var end := if |frame| < offset + capacity then |frame| else offset + capacity;
      parts := parts + [frame[offset..end]];
      offset := offset + capacity;
      assert frame[end..] == if offset < |frame| then frame[offset..] else [];
    }
    assert Fragments([], capacity) == [] by { NoFragments(capacity); }
    r := Some(parts);
  }

  lemma NoFragments(capacity: nat)
    requires capacity > 0
    ensures Fragments([], capacity) == []
  {
  }

  // ----- the companion's image commands

  datatype Command = Command(frame: Frame, successStatus: byte)

  predicate JpegAccepted(jpeg: seq<byte>, maxBytes: nat) {
    4 <= |jpeg| <= maxBytes && jpeg[0] == 0xff && jpeg[1] == 0xd8 && jpeg[|jpeg| - 2] == 0xff && jpeg[|jpeg| - 1] == 0xd9
  }

  function BeginPayload(total: u32): (s: seq<byte>)
    ensures |s| == 5
  {
    [0] + Le32(total)
  }

  function DataCommands(jpeg: seq<byte>, offset: nat): (cs: seq<Command>)
    requires offset <= |jpeg|
    ensures forall c | c in cs :: c.frame.kind == 2 && c.successStatus == 0 && 2 <= |c.frame.payload| <= PAYLOAD_MAX
    decreases |jpeg| - offset
  {
    if offset == |jpeg| then []
    else
      var n := if IMAGE_CHUNK_MAX < |jpeg| - offset then IMAGE_CHUNK_MAX else |jpeg| - offset;
      [Command(Frame(2, [1] + jpeg[offset..offset + n]), 0)] + DataCommands(jpeg, offset + n)
  }

  /** The mode change, BEGIN with the length, the data in order, END. `modeJson` is the profile text that selects the mode. */
  function ImageCommands(modeJson: seq<byte>, jpeg: seq<byte>): (cs: seq<Command>)
    requires |jpeg| < 0x1_0000_0000 && |modeJson| <= PAYLOAD_MAX
    ensures |cs| >= 3
    ensures forall c | c in cs :: |c.frame.payload| <= PAYLOAD_MAX && (c.frame.kind == 1 || c.frame.kind == 2)
  {
    [Command(Frame(1, modeJson), 1), Command(Frame(2, BeginPayload(|jpeg|)), 0)] + DataCommands(jpeg, 0) + [Command(Frame(2, [2]), 0)]
  }

  method BuildImage(modeJson: seq<byte>, jpeg: seq<byte>, maxBytes: nat) returns (r: Option<seq<Command>>)
    requires |jpeg| < 0x8000_0000 && |modeJson| <= PAYLOAD_MAX
    ensures r.Some? <==> JpegAccepted(jpeg, maxBytes)
    ensures r.Some? ==> r.value == ImageCommands(modeJson, jpeg)
  {
    if !JpegAccepted(jpeg, maxBytes) { return None; }
    var head := [Command(Frame(1, modeJson), 1), Command(Frame(2, BeginPayload(|jpeg|)), 0)];
    var commands: seq<Command> := head;
    var offset := 0;
    while offset < |jpeg|
      invariant 0 <= offset <= |jpeg|
      invariant commands + DataCommands(jpeg, offset) == head + DataCommands(jpeg, 0)
    {
      var count := if IMAGE_CHUNK_MAX < |jpeg| - offset then IMAGE_CHUNK_MAX else |jpeg| - offset;
      commands := commands + [Command(Frame(2, [1] + jpeg[offset..offset + count]), 0)];
      offset := offset + count;
    }
    r := Some(commands + [Command(Frame(2, [2]), 0)]);
  }

  /** What is not a frame is refused as soon as its header is there, and the buffer starts over. */
  lemma BadFramesRefused(data: seq<byte>)
    requires |data| >= 4
    ensures data[0] != 1 ==> Feed([], data) == Fed([], BadHeader, None)
    ensures data[0] == 1 && Read16(data, 2) > 256 ==> Feed([], data) == Fed([], TooLarge, None)
  {
    var a: seq<byte>, b: seq<byte>, c: seq<byte>, d: seq<byte> := data[..1], data[..2], data[..3], data[..4];
    assert [] + [data[0]] == a && a + [data[1]] == b && b + [data[2]] == c && c + [data[3]] == d;
    assert data[1..][0] == data[1] && data[1..][1..] == data[2..];
    assert data[2..][0] == data[2] && data[2..][1..] == data[3..];
    assert Feed([], data) == Feed(a, data[1..]) == Feed(b, data[2..]) == Feed(c, data[3..]);
    assert data[3..][0] == data[3] && PayloadLength(d) == Read16(data, 2);
  }
}
