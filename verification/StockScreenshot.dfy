/** The screenshot sender: stop-and-wait packets of one captured frame, acknowledged by session and sequence number. */
module StockScreenshot {
  import opened Bytes
  import Crc32

  const FRAME_SIZE := 240 * 320 * 2
  const DATA_MAX := 500

  datatype Phase = Idle | Capturing | Begin | Data | End | Complete | Failed
  datatype Shot = Shot(phase: Phase, session: u16, sequence: u16, packets: u16, offset: nat, crc: u32, pixels: seq<byte>,
                       packet: seq<byte>, packetPixels: nat, awaitingAck: bool, retries: nat, deadline: nat, completedAt: nat)
  datatype Action = Action(reply: bool, capture: bool, release: bool, status: byte)

  const ZERO_SHOT: Shot := Shot(Idle, 0, 0, 0, 0, 0, [], [], 0, false, 0, 0, 0)
  const SILENT: Action := Action(false, false, false, 0)

  function Response(status: byte): Action { Action(true, false, false, status) }

  // ----- packets

  function BeginPacket(session: u16, sequence: u16): (p: seq<byte>)
    ensures |p| == 14
  {
    [1] + Le16(session) + Le16(sequence) + Le16(240) + Le16(320) + [1] + Le32(FRAME_SIZE)
  }

  function DataPacket(session: u16, sequence: u16, offset: u32, pixels: seq<byte>): (p: seq<byte>)
    ensures |p| == 17 + |pixels|
  {
    [2] + Le16(session) + Le16(sequence) + Le16(0) + Le16(0) + Le16(240) + Le16(320) + Le32(offset) + pixels
  }

  function EndPacket(session: u16, sequence: u16, packets: u16, crc: u32): (p: seq<byte>)
    ensures |p| == 15
  {
    [3] + Le16(session) + Le16(sequence) + Le16(packets) + Le32(FRAME_SIZE) + Le32(crc)
  }

  /** What a receiver reads from a packet of each kind. */
  predicate BeginSays(p: seq<byte>, session: u16, sequence: u16) {
    |p| == 14 && p[0] == 1 && Read16(p, 1) == session && Read16(p, 3) == sequence && Read16(p, 5) == 240 && Read16(p, 7) == 320 &&
    p[9] == 1 && Read32(p, 10) == 153600
  }

  predicate DataSays(p: seq<byte>, session: u16, sequence: u16, offset: nat, pixels: seq<byte>) {
    |p| == 17 + |pixels| && p[0] == 2 && Read16(p, 1) == session && Read16(p, 3) == sequence && Read16(p, 5) == 0 && Read16(p, 7) == 0 &&
    Read16(p, 9) == 240 && Read16(p, 11) == 320 && Read32(p, 13) == offset && p[17..] == pixels
  }

  predicate EndSays(p: seq<byte>, session: u16, count: nat, crc: u32) {
    |p| == 15 && p[0] == 3 && Read16(p, 1) == session && Read16(p, 5) == count && Read32(p, 7) == 153600 && Read32(p, 11) == crc
  }

  lemma BeginFields(session: u16, sequence: u16)
    ensures BeginSays(BeginPacket(session, sequence), session, sequence)
  {
    hide Le16, Le32;
    var p := BeginPacket(session, sequence);
    ReadLe16(p, 1, session);
    ReadLe16(p, 3, sequence);
    ReadLe16(p, 5, 240);
    ReadLe16(p, 7, 320);
    ReadLe32(p, 10, FRAME_SIZE);
  }

  lemma DataFields(session: u16, sequence: u16, offset: u32, pixels: seq<byte>)
    ensures DataSays(DataPacket(session, sequence, offset, pixels), session, sequence, offset, pixels)
  {
    hide Le16, Le32;
    var p := DataPacket(session, sequence, offset, pixels);
    ReadLe16(p, 1, session);
    ReadLe16(p, 3, sequence);
    ReadLe16(p, 5, 0);
    ReadLe16(p, 7, 0);
    ReadLe16(p, 9, 240);
    ReadLe16(p, 11, 320);
    ReadLe32(p, 13, offset);
  }

  lemma EndFields(session: u16, sequence: u16, packets: u16, crc: u32)
    ensures EndSays(EndPacket(session, sequence, packets, crc), session, packets, crc)
    ensures Read16(EndPacket(session, sequence, packets, crc), 3) == sequence
  {
    hide Le16, Le32;
    var p := EndPacket(session, sequence, packets, crc);
    ReadLe16(p, 1, session);
    ReadLe16(p, 3, sequence);
    ReadLe16(p, 5, packets);
    ReadLe32(p, 7, FRAME_SIZE);
    assert p[11..] == Le32(crc);
    ReadLe32(p, 11, crc);
  }

  predicate Active(s: Shot) { s.phase.Begin? || s.phase.Data? || s.phase.End? }

  // ----- operations

  function AckedShot(s: Shot, now: nat): (Shot, Action) {
    var t := s.(awaitingAck := false, retries := 0, packet := [], sequence := (s.sequence + 1) % 0x1_0000);
    match s.phase
    case Begin => (t.(phase := Data), SILENT)
    case Data =>
      var offset := s.offset + s.packetPixels;
      (t.(offset := offset, packets := (s.packets + 1) % 0x1_0000, phase := if offset == FRAME_SIZE then End else Data), SILENT)
    case End => (t.(phase := Complete, completedAt := now, pixels := []), Action(true, false, true, 1))
    case _ => (t, Response(0x12))
  }

  function Command(s: Shot, p: seq<byte>, id: u16, now: nat): (Shot, Action) {
    if |p| == 0 || !((p[0] == 1 && |p| == 1) || (p[0] == 2 && |p| == 5) || ((p[0] == 3 || p[0] == 4) && |p| == 3)) then (s, Response(0x10))
    else if p[0] == 1 then
      if s.phase.Capturing? || Active(s) then (s, Response(0x1b))
      else if id == 0 then (s, Response(0x1c))
      else (ZERO_SHOT.(phase := Capturing, session := id, deadline := now + 30000), Action(false, true, true, 0))
    else if Read16(p, 1) == 0 || Read16(p, 1) != s.session then (s, Response(0x12))
    else if p[0] == 2 then
      if !s.awaitingAck || Read16(p, 3) != s.sequence then (s, Response(0x12)) else AckedShot(s, now)
    else if (s.phase.Complete? && now - s.completedAt < 300000) || (p[0] == 4 && (s.phase.Capturing? || Active(s))) then
      (ZERO_SHOT, Action(true, false, true, 1))
    else (s, Response(0x12))
  }

  function Captured(s: Shot, pixels: seq<byte>): (Shot, bool) {
    if !s.phase.Capturing? || |pixels| != FRAME_SIZE then (s, false)
    else (s.(pixels := pixels, crc := Crc32.Crc(0, pixels), phase := Begin), true)
  }

  /** Octets of the next data packet: the room behind the 17-octet header, even, at most 500, at most what is left. */
  function PieceSize(capacity: nat, left: nat): (n: nat)
    ensures n <= left && n <= DATA_MAX
  {
    if capacity <= 17 then 0
    else
      var room := (capacity - 17) / 2 * 2;
      var bounded := if room > DATA_MAX then DATA_MAX else room;
      if bounded > left then left else bounded
  }

  function Packet(s: Shot, capacity: nat, now: nat): (Shot, seq<byte>)
    requires s.offset <= |s.pixels| || !s.phase.Data?
  {
    if !Active(s) || (s.awaitingAck && now < s.deadline) || (s.awaitingAck && s.retries >= 3) then (s, [])
    else if s.packet != [] then (s, if |s.packet| > capacity then [] else s.packet)
    else if s.phase.Begin? then
      if capacity < 14 then (s, []) else var b := BeginPacket(s.session, s.sequence); (s.(packet := b), b)
    else if s.phase.End? then
      if capacity < 15 then (s, []) else var e := EndPacket(s.session, s.sequence, s.packets, s.crc); (s.(packet := e), e)
    else
      var n := PieceSize(capacity, |s.pixels| - s.offset);
      if n == 0 then (s, [])
      else var d := DataPacket(s.session, s.sequence, s.offset % 0x1_0000_0000, s.pixels[s.offset..s.offset + n]);
           (s.(packet := d, packetPixels := n), d)
  }

  function MarkSent(s: Shot, now: nat): Shot {
    if s.packet == [] then s
    else s.(retries := if s.awaitingAck then s.retries + 1 else s.retries, awaitingAck := true, deadline := now + 3000)
  }

  function Polled(s: Shot, now: nat): (Shot, Action) {
    if (s.awaitingAck && now >= s.deadline && s.retries >= 3) || (s.phase.Capturing? && now >= s.deadline) then
      (s.(phase := Failed, pixels := [], awaitingAck := false), Action(true, false, true, 0x11))
    else (s, SILENT)
  }

  /** The sender's own fields. */
  class Sender {
    var phase: Phase
    var session: u16
    var sequence: u16
    var packets: u16
    var offset: nat
    var crc: u32
    var pixels: seq<byte>
    var packet: seq<byte>
    var packetPixels: nat
    var awaitingAck: bool
    var retries: nat
    var deadline: nat
    var completedAt: nat

    ghost function State(): Shot
      reads this
    {
      Shot(phase, session, sequence, packets, offset, crc, pixels, packet, packetPixels, awaitingAck, retries, deadline, completedAt)
    }

    constructor ()
      ensures State() == ZERO_SHOT
    {
      phase, session, sequence, packets, offset, crc, pixels := Idle, 0, 0, 0, 0, 0, [];
      packet, packetPixels, awaitingAck, retries, deadline, completedAt := [], 0, false, 0, 0, 0;
    }

    method Reset(to: Phase, id: u16, until: nat)
      modifies this
      ensures State() == ZERO_SHOT.(phase := to, session := id, deadline := until)
    {
      phase, session, sequence, packets, offset, crc, pixels := to, id, 0, 0, 0, 0, [];
      packet, packetPixels, awaitingAck, retries, deadline, completedAt := [], 0, false, 0, until, 0;
    }

    method OnAck(now: nat) returns (a: Action)
      modifies this
      ensures (State(), a) == AckedShot(old(State()), now)
    {
      awaitingAck, retries, packet, sequence := false, 0, [], (sequence + 1) % 0x1_0000;
      match phase {
        case Begin => phase := Data; a := SILENT;
        case Data =>
          offset, packets := offset + packetPixels, (packets + 1) % 0x1_0000;
          if offset == FRAME_SIZE { phase := End; }
          a := SILENT;
        case End =>
          phase, completedAt, pixels := Complete, now, [];
          a := Action(true, false, true, 1);
        case _ => a := Response(0x12);
      }
    }

    method OnCommand(p: seq<byte>, id: u16, now: nat) returns (a: Action)
      modifies this
      ensures (State(), a) == Command(old(State()), p, id, now)
    {
      if |p| == 0 { return Response(0x10); }
      if !((p[0] == 1 && |p| == 1) || (p[0] == 2 && |p| == 5) || ((p[0] == 3 || p[0] == 4) && |p| == 3)) { return Response(0x10); }
      var active := phase.Capturing? || phase.Begin? || phase.Data? || phase.End?;
      if p[0] == 1 {
        if active { return Response(0x1b); }
        if id == 0 { return Response(0x1c); }
        Reset(Capturing, id, now + 30000);
        return Action(false, true, true, 0);
      }
      if Read16(p, 1) == 0 || Read16(p, 1) != session { return Response(0x12); }
      if p[0] == 2 {
        if !awaitingAck || Read16(p, 3) != sequence { return Response(0x12); }
        a := OnAck(now);
        return;
      }
      var recent := phase.Complete? && now - completedAt < 300000;
      if !recent && !(p[0] == 4 && active) { return Response(0x12); }
      Reset(Idle, 0, 0);
      a := Action(true, false, true, 1);
    }

    method OnCaptured(frame: seq<byte>) returns (ok: bool)
      modifies this
      ensures (State(), ok) == Captured(old(State()), frame)
    {
      if !phase.Capturing? || |frame| != FRAME_SIZE { return false; }
      pixels := frame;
      crc := Crc32.Compute(0, frame);
      phase := Begin;
      ok := true;
    }

    method NextPacket(capacity: nat, now: nat) returns (out: seq<byte>)
      requires offset <= |pixels| || !phase.Data?
      modifies this
      ensures (State(), out) == Packet(old(State()), capacity, now)
    {
      if !(phase.Begin? || phase.Data? || phase.End?) { return []; }
      if awaitingAck && now < deadline { return []; }
      if awaitingAck && retries >= 3 { return []; }
      if packet != [] { return if |packet| > capacity then [] else packet; }
      if phase.Begin? {
        if capacity >= 14 { packet := BeginPacket(session, sequence); }
      } else if phase.End? {
        if capacity >= 15 { packet := EndPacket(session, sequence, packets, crc); }
      } else {
        if capacity <= 17 { return []; }
        var count := (capacity - 17) / 2 * 2;
        if count > DATA_MAX { count := DATA_MAX; }
        if count > |pixels| - offset { count := |pixels| - offset; }
        if count == 0 { return []; }
        packetPixels := count;
        packet := DataPacket(session, sequence, offset % 0x1_0000_0000, pixels[offset..offset + count]);
      }
      out := packet;
    }

    method OnSent(now: nat)
      modifies this
      ensures State() == MarkSent(old(State()), now)
    {
      if packet == [] { return; }
      if awaitingAck { retries := retries + 1; }
      awaitingAck, deadline := true, now + 3000;
    }

    method Poll(now: nat) returns (a: Action)
      modifies this
      ensures (State(), a) == Polled(old(State()), now)
    {
      if (awaitingAck && now >= deadline && retries >= 3) || (phase.Capturing? && now >= deadline) {
        phase, pixels, awaitingAck := Failed, [], false;
        return Action(true, false, true, 0x11);
      }
      a := SILENT;
    }
  }

  // ----- runs

  /** The sender with what a receiver has acknowledged: the frame being sent, the acknowledged octets and data packets, how
      often the current packet was sent, the acknowledged END, and whether a data packet was built for less than 21 octets
      and whether one was for at least 21. */
  datatype Track = Track(shot: Shot, frame: seq<byte>, acked: seq<byte>, count: nat, copies: nat, ended: seq<byte>, narrow: bool, wide: bool)

  datatype Event =
    | Cmd(p: seq<byte>, id: u16, now: nat)
    | Capture(pixels: seq<byte>)
    | Send(capacity: nat, now: nat, accepted: bool)
    | Tick(now: nat)

  const NEW_TRACK: Track := Track(ZERO_SHOT, [], [], 0, 0, [], false, false)

  predicate IsAck(s: Shot, p: seq<byte>) {
    |p| == 5 && p[0] == 2 && s.session != 0 && Read16(p, 1) == s.session && s.awaitingAck && Read16(p, 3) == s.sequence
  }

  function OnCmd(t: Track, p: seq<byte>, id: u16, now: nat): Track {
    var shot := Command(t.shot, p, id, now).0;
    if IsAck(t.shot, p) then
      if t.shot.phase.Data? && |t.shot.packet| >= 17 then
        t.(shot := shot, acked := t.acked + t.shot.packet[17..], count := t.count + 1, copies := 0)
      else t.(shot := shot, copies := 0, ended := if t.shot.phase.End? then t.shot.packet else t.ended)
    else if shot == t.shot then t
    else NEW_TRACK.(shot := shot)
  }

  function OnSend(t: Track, capacity: nat, now: nat, accepted: bool): Track
    requires t.shot.offset <= |t.shot.pixels| || !t.shot.phase.Data?
  {
    var (shot, out) := Packet(t.shot, capacity, now);
    var built := t.shot.phase.Data? && t.shot.packet == [] && shot.packet != [];
    var u := t.(shot := shot, narrow := t.narrow || (built && capacity < 21), wide := t.wide || (built && capacity >= 21));
    if out != [] && accepted then u.(shot := MarkSent(shot, now), copies := u.copies + 1) else u
  }

  function Apply(t: Track, e: Event): Track
    requires Inv(t)
  {
    match e
    case Cmd(p, id, now) => OnCmd(t, p, id, now)
    case Capture(pixels) =>
      var (shot, ok) := Captured(t.shot, pixels);
      if ok then t.(shot := shot, frame := pixels) else t
    case Send(capacity, now, accepted) => OnSend(t, capacity, now, accepted)
    case Tick(now) => t.(shot := Polled(t.shot, now).0)
  }

  predicate Progress(t: Track)
    requires |t.frame| == FRAME_SIZE
  {
    var s := t.shot;
    match s.phase
    case Begin => s.offset == 0 && t.acked == [] && t.count == 0 && s.sequence == 0
    case Data => s.offset == |t.acked| < FRAME_SIZE && s.offset % 2 == 0 && t.acked == t.frame[..s.offset] &&
                 (!t.narrow ==> 4 * t.count <= s.offset)
    case _ => t.acked == t.frame && (!t.narrow ==> 4 * t.count <= FRAME_SIZE + 2)
  }

  predicate PacketOk(t: Track)
    requires |t.frame| == FRAME_SIZE
  {
    var s := t.shot;
    s.packet != [] ==>
      match s.phase
      case Begin => s.packet == BeginPacket(s.session, s.sequence)
      case Data => s.offset % 2 == 0 && 0 < s.packetPixels && s.packetPixels % 2 == 0 && s.offset + s.packetPixels <= FRAME_SIZE &&
                   s.packet == DataPacket(s.session, s.sequence, s.offset, t.frame[s.offset..s.offset + s.packetPixels]) &&
                   (!t.narrow ==> s.packetPixels >= 4 || s.offset + s.packetPixels == FRAME_SIZE)
      case _ => s.packet == EndPacket(s.session, s.sequence, s.packets, s.crc)
  }

  predicate Inv(t: Track) {
    var s := t.shot;
    t.copies <= 4 &&
    (Active(s) ==>
       s.session != 0 && |t.frame| == FRAME_SIZE && s.pixels == t.frame && s.crc == Crc32.Crc(0, t.frame) && s.packets == t.count % 0x1_0000 &&
       Progress(t) && PacketOk(t) && (if s.awaitingAck then s.packet != [] && t.copies == s.retries + 1 else t.copies == 0 && s.retries == 0)) &&
    (s.phase.Capturing? ==> t == NEW_TRACK.(shot := s) && s.packet == [] && s.session != 0 && s.sequence == 0 && s.offset == 0 && s.packets == 0 &&
                            !s.awaitingAck && s.retries == 0) &&
    (s.phase.Complete? ==> t.acked == t.frame && !s.awaitingAck && (!t.narrow ==> t.count < 0x1_0000) &&
                           EndSays(t.ended, s.session, t.count % 0x1_0000, Crc32.Crc(0, t.frame))) &&
    (s.phase.Idle? || s.phase.Failed? ==> !s.awaitingAck)
  }

  lemma AckInv(t: Track, p: seq<byte>, id: u16, now: nat)
    requires Inv(t) && IsAck(t.shot, p)
    ensures Inv(OnCmd(t, p, id, now))
  {
    hide Crc32.Crc, BeginPacket, DataPacket, EndPacket;
    var s := t.shot;
    if s.phase.Data? {
      var n := s.packetPixels;
      DataPayload(s.session, s.sequence, s.offset, t.frame[s.offset..s.offset + n]);
      assert t.frame[..s.offset] + t.frame[s.offset..s.offset + n] == t.frame[..s.offset + n];
      assert t.frame[..FRAME_SIZE] == t.frame;
    }
    if s.phase.End? { EndFields(s.session, s.sequence, s.packets, s.crc); }
  }

  lemma DataPayload(session: u16, sequence: u16, offset: u32, pixels: seq<byte>)
    ensures DataPacket(session, sequence, offset, pixels)[17..] == pixels
  {
  }

  lemma CmdInv(t: Track, p: seq<byte>, id: u16, now: nat)
    requires Inv(t)
    ensures Inv(OnCmd(t, p, id, now))
  {
    hide Crc32.Crc, BeginPacket, DataPacket, EndPacket, AckedShot, Progress, PacketOk;
    if IsAck(t.shot, p) { AckInv(t, p, id, now); }
  }

  lemma CaptureInv(t: Track, pixels: seq<byte>)
    requires Inv(t)
    ensures Inv(Apply(t, Capture(pixels)))
  {
    hide Crc32.Crc, BeginPacket, DataPacket, EndPacket;
  }

  /** Building a packet changes nothing but the packet. */
  lemma BuildInv(t: Track, capacity: nat, now: nat)
    requires Inv(t)
    ensures var (shot, out) := Packet(t.shot, capacity, now);
            var built := t.shot.phase.Data? && t.shot.packet == [] && shot.packet != [];
            (out != [] ==> Active(t.shot) && shot.packet == out && (t.shot.awaitingAck ==> t.shot.retries < 3)) &&
            Inv(t.(shot := shot, narrow := t.narrow || (built && capacity < 21), wide := t.wide || (built && capacity >= 21)))
  {
    hide Crc32.Crc, BeginPacket, DataPacket, EndPacket;
  }

  lemma SentInv(t: Track, now: nat)
    requires Inv(t) && Active(t.shot) && t.shot.packet != [] && (t.shot.awaitingAck ==> t.shot.retries < 3)
    ensures Inv(t.(shot := MarkSent(t.shot, now), copies := t.copies + 1))
  {
    hide Crc32.Crc, BeginPacket, DataPacket, EndPacket;
  }

  lemma SendInv(t: Track, capacity: nat, now: nat, accepted: bool)
    requires Inv(t)
    ensures Inv(OnSend(t, capacity, now, accepted))
  {
    hide Crc32.Crc, BeginPacket, DataPacket, EndPacket, MarkSent, PacketOk;
    BuildInv(t, capacity, now);
    var (shot, out) := Packet(t.shot, capacity, now);
    var built := t.shot.phase.Data? && t.shot.packet == [] && shot.packet != [];
    var u := t.(shot := shot, narrow := t.narrow || (built && capacity < 21), wide := t.wide || (built && capacity >= 21));
    if out != [] { SentInv(u, now); }
  }

  lemma TickInv(t: Track, now: nat)
    requires Inv(t)
    ensures Inv(Apply(t, Tick(now)))
  {
    hide Crc32.Crc, BeginPacket, DataPacket, EndPacket;
  }

  lemma ApplyInv(t: Track, e: Event)
    requires Inv(t)
    ensures Inv(Apply(t, e))
  {
    hide Inv, OnCmd, OnSend;
    match e {
      case Cmd(p, id, now) => CmdInv(t, p, id, now);
      case Capture(pixels) => CaptureInv(t, pixels);
      case Send(capacity, now, accepted) => SendInv(t, capacity, now, accepted);
      case Tick(now) => TickInv(t, now);
    }
  }

  /** The state after any history of commands, captures, send attempts and ticks. */
  function After(history: seq<Event>): (t: Track)
    ensures Inv(t)
  {
    if history == [] then NEW_TRACK
    else
      var t := After(history[..|history| - 1]);
      ApplyInv(t, history[|history| - 1]);
      Apply(t, history[|history| - 1])
  }

  /** Completion means the acknowledged data is the captured frame, and END carried its checksum and the number of data
      packets modulo 65536; that is the true number whenever every data packet was built for at least 21 octets. */
  lemma FrameDelivered(history: seq<Event>)
    requires After(history).shot.phase.Complete?
    ensures var t := After(history);
            t.acked == t.frame && EndSays(t.ended, t.shot.session, t.count % 0x1_0000, Crc32.Crc(0, t.frame)) &&
            (!t.narrow ==> t.count % 0x1_0000 == t.count)
  {
    hide Crc32.Crc, EndPacket, After, Apply, Progress, PacketOk;
  }

  /** As long as no data packet was built for 21 octets, each carries one pixel. */
  predicate OnePixelEach(t: Track) {
    var s := t.shot;
    !t.wide ==>
      match s.phase
      case Begin => t.count == 0
      case Data => 2 * t.count == s.offset && (s.packet != [] ==> s.packetPixels == 2)
      case End => 2 * t.count == FRAME_SIZE
      case Complete => 2 * t.count == FRAME_SIZE
      case _ => t.count == 0 || s.phase.Failed?
  }

  lemma AckOnePixel(t: Track, p: seq<byte>, id: u16, now: nat)
    requires Inv(t) && OnePixelEach(t) && IsAck(t.shot, p)
    ensures OnePixelEach(OnCmd(t, p, id, now))
  {
    hide Crc32.Crc, BeginPacket, EndPacket, Captured, Response;
  }

  lemma SendOnePixel(t: Track, capacity: nat, now: nat, accepted: bool)
    requires Inv(t) && OnePixelEach(t)
    ensures OnePixelEach(OnSend(t, capacity, now, accepted))
  {
    hide Crc32.Crc, BeginPacket, DataPacket, EndPacket, PacketOk;
  }

  lemma StepOnePixel(t: Track, e: Event)
    requires Inv(t) && OnePixelEach(t)
    ensures OnePixelEach(Apply(t, e))
  {
    hide Inv, Packet, Crc32.Crc, Progress, PacketOk, OnSend, AckedShot, IsAck;
    match e
    case Cmd(p, id, now) => CmdOnePixel(t, p, id, now);
    case Capture(pixels) => CaptureOnePixel(t, pixels);
    case Send(capacity, now, accepted) => SendOnePixel(t, capacity, now, accepted);
    case Tick(now) =>
  }

  lemma CmdOnePixel(t: Track, p: seq<byte>, id: u16, now: nat)
    requires Inv(t) && OnePixelEach(t)
    ensures OnePixelEach(OnCmd(t, p, id, now))
  {
    hide Crc32.Crc, AckedShot, Progress, PacketOk, Inv;
    if IsAck(t.shot, p) { AckOnePixel(t, p, id, now); }
  }

  lemma CaptureOnePixel(t: Track, pixels: seq<byte>)
    requires Inv(t) && OnePixelEach(t)
    ensures OnePixelEach(Apply(t, Capture(pixels)))
  {
    hide Crc32.Crc, Progress, PacketOk;
  }

  lemma {:induction false} RunOnePixel(history: seq<Event>)
    ensures OnePixelEach(After(history))
  {
    hide Inv, Apply, OnePixelEach;
    if history == [] {
      NothingBuilt();
    } else {
      RunOnePixel(history[..|history| - 1]);
      AfterStep(history);
      StepOnePixel(After(history[..|history| - 1]), history[|history| - 1]);
    }
  }

  lemma NothingBuilt()
    ensures OnePixelEach(After([]))
  {
  }

  /** At less than 21 octets every data packet carries one pixel: whatever is lost, repeated or cancelled on the way, a run
      whose data packets were all built so and that reaches END, or completes, has taken 76800 and announces 11264. */
  lemma NarrowCountWraps(history: seq<Event>)
    requires var t := After(history); !t.wide && (t.shot.phase.End? || t.shot.phase.Complete?)
    ensures var t := After(history);
            t.count == 76800 &&
            (t.shot.phase.End? ==> t.shot.packets == 11264) &&
            (t.shot.phase.End? && t.shot.packet != [] ==> EndSays(t.shot.packet, t.shot.session, 11264, Crc32.Crc(0, t.frame))) &&
            (t.shot.phase.Complete? ==> EndSays(t.ended, t.shot.session, 11264, Crc32.Crc(0, t.frame)))
  {
    hide Crc32.Crc, EndPacket, After, Apply, EndSays;
    RunOnePixel(history);
    var s := After(history).shot;
    EndFields(s.session, s.sequence, s.packets, s.crc);
  }

  /** Every send attempt of the history finds this room. */
  predicate AtCapacity(history: seq<Event>, capacity: nat) {
    forall e | e in history && e.Send? :: e.capacity == capacity
  }

  lemma {:induction false} CapacityShows(history: seq<Event>, capacity: nat)
    requires AtCapacity(history, capacity)
    ensures if capacity >= 21 then !After(history).narrow else !After(history).wide
  {
    hide Inv, Command, Packet, MarkSent, Captured, Polled, IsAck;
    if history != [] {
      var front, e := history[..|history| - 1], history[|history| - 1];
      assert e in history && forall x | x in front :: x in history;
      CapacityShows(front, capacity);
      AfterStep(history);
    }
  }

  lemma AfterStep(history: seq<Event>)
    requires history != []
    ensures After(history) == Apply(After(history[..|history| - 1]), history[|history| - 1])
  {
    hide Inv, Apply;
  }

  /** Over a link of constant capacity the packet count a completed capture announces is the true one if and only if the
      capacity is at least 21. */
  lemma CountTrueExactly(history: seq<Event>, capacity: nat)
    requires AtCapacity(history, capacity) && After(history).shot.phase.Complete?
    ensures var t := After(history); |t.ended| == 15 && (Read16(t.ended, 5) == t.count <==> capacity >= 21)
  {
    hide After, EndPacket, Crc32.Crc, Apply;
    CapacityShows(history, capacity);
    FrameDelivered(history);
    if capacity < 21 { NarrowCountWraps(history); }
  }

  /** Every packet that goes out, in any run, says what it should: its own session and sequence number, and BEGIN the size of
      the frame, DATA the octets of the frame at its offset, END the count so far and the frame's checksum. */
  lemma PacketSays(history: seq<Event>, capacity: nat, now: nat)
    ensures var t := After(history); var s, p := t.shot, Packet(t.shot, capacity, now).1;
            p != [] ==>
              |p| <= capacity &&
              match s.phase
              case Begin => BeginSays(p, s.session, s.sequence)
              case Data => |p| > 17 && s.offset + |p| - 17 <= |t.frame| &&
                           DataSays(p, s.session, s.sequence, s.offset, t.frame[s.offset..s.offset + |p| - 17])
              case End => EndSays(p, s.session, t.count % 0x1_0000, Crc32.Crc(0, t.frame)) && Read16(p, 3) == s.sequence
              case _ => false
  {
    hide After, Apply, BeginPacket, DataPacket, EndPacket, BeginSays, DataSays, EndSays, Crc32.Crc, Progress;
    var t := After(history);
    var s := t.shot;
    if Active(s) { ReadyHolds(t); }
    var (u, p) := Packet(s, capacity, now);
    if p != [] {
      BuildInv(t, capacity, now);
      BeginFields(s.session, s.sequence);
      EndFields(s.session, s.sequence, s.packets, s.crc);
      if s.phase.Data? { DataFields(s.session, s.sequence, s.offset, t.frame[s.offset..s.offset + u.packetPixels]); }
    }
  }

  /** No packet is sent more than four times. */
  lemma AtMostFourSends(history: seq<Event>)
    ensures After(history).copies <= 4
  {
    hide Apply;
  }

  /** What goes out again is octet for octet what went out before, whatever happened to the link's capacity meanwhile. */
  lemma RetransmissionIdentical(s: Shot, capacity: nat, now: nat, later: nat)
    requires s.packet != [] && (s.offset <= |s.pixels| || !s.phase.Data?)
    ensures var (u, out) := Packet(s, capacity, now);
            (out == [] || out == s.packet) && u == s && MarkSent(s, later).packet == s.packet
  {
  }

  /** A packet that was sent goes out again exactly when three seconds have passed without an acknowledgement, it was not yet
      sent four times, and there is room; after the fourth the transfer fails three seconds later, and not before. */
  lemma RetransmitsOnTime(s: Shot, sent: nat, now: nat, capacity: nat)
    requires Active(s) && s.packet != [] && (s.offset <= |s.pixels| || !s.phase.Data?) && (s.awaitingAck ==> s.retries < 3)
    ensures var t := MarkSent(s, sent); var again := if s.awaitingAck then s.retries + 1 else s.retries;
            t.awaitingAck && t.retries == again &&
            Packet(t, capacity, now).1 == (if now >= sent + 3000 && again < 3 && |s.packet| <= capacity then s.packet else []) &&
            (Polled(t, now).0.phase.Failed? <==> now >= sent + 3000 && again >= 3) &&
            (Polled(t, now).1 == if now >= sent + 3000 && again >= 3 then Action(true, false, true, 0x11) else Action(false, false, false, 0))
  {
  }

  /** A capture that has been started has thirty seconds. */
  lemma CaptureTimesOut(s: Shot, p: seq<byte>, id: u16, started: nat, now: nat)
    requires p == [1] && id != 0 && !Active(s) && !s.phase.Capturing?
    ensures var (t, a) := Command(s, p, id, started);
            t.phase.Capturing? && t.session == id && a == Action(false, true, true, 0) &&
            (Polled(t, now).0.phase.Failed? <==> now >= started + 30000)
  {
  }

  /** While a transfer is under way another one is refused and changes nothing, and a cancel for its session ends it. */
  lemma RunningIsKept(s: Shot, p: seq<byte>, id: u16, now: nat)
    requires Active(s) || s.phase.Capturing?
    ensures p == [1] ==> Command(s, p, id, now) == (s, Action(true, false, false, 0x1b))
    ensures |p| == 3 && p[0] == 4 && s.session != 0 && Read16(p, 1) == s.session ==>
              Command(s, p, id, now).0.phase.Idle? && Command(s, p, id, now).1 == Action(true, false, true, 1)
    ensures |p| == 3 && p[0] == 4 && Read16(p, 1) != s.session ==> Command(s, p, id, now) == (s, Action(true, false, false, 0x12))
  {
  }

  /** Completion is acknowledged to both sides, and the frame can be released for five minutes. */
  lemma CompleteReleases(s: Shot, ack: seq<byte>, release: seq<byte>, done: nat, now: nat)
    requires s.phase.End? && IsAck(s, ack) && done <= now && |release| == 3 && release[0] == 3 && Read16(release, 1) == s.session
    ensures var (t, a) := Command(s, ack, 0, done);
            t.phase.Complete? && a == Action(true, false, true, 1) &&
            (Command(t, release, 0, now).1.status == 1 <==> now < done + 300000) &&
            (now < done + 300000 ==> Command(t, release, 0, now).0.phase.Idle?)
  {
  }

  /** Of the acknowledgements only the awaited one of the current session and sequence number has any effect. */
  lemma OnlyAwaitedAckActs(s: Shot, p: seq<byte>, id: u16, now: nat)
    requires |p| == 5 && p[0] == 2 && s.session != 0
    ensures Command(s, p, id, now).0 != s <==> IsAck(s, p)
    ensures !IsAck(s, p) ==> Command(s, p, id, now).1 == Response(0x12)
  {
  }

  // ----- the smallest link the caller admits

  function Ack(sequence: u16): (p: seq<byte>)
    ensures |p| == 5
  {
    [2] + Le16(1) + Le16(sequence)
  }

  /** One session over a link of exactly 20 octets, acknowledged packet by packet up to `pieces` data packets. */
  function NarrowHistory(frame: seq<byte>, pieces: nat): seq<Event> {
    if pieces == 0 then [Cmd([1], 1, 0), Capture(frame), Send(20, 0, true), Cmd(Ack(0), 0, 0)]
    else NarrowHistory(frame, pieces - 1) + [Send(20, 0, true), Cmd(Ack(pieces % 0x1_0000), 0, 0)]
  }

  lemma AckFields(sequence: u16)
    ensures Ack(sequence)[0] == 2 && Read16(Ack(sequence), 1) == 1 && Read16(Ack(sequence), 3) == sequence
  {
    ReadLe16(Ack(sequence), 1, 1);
    ReadLe16(Ack(sequence), 3, sequence);
  }

  lemma AfterTwo(history: seq<Event>, a: Event, b: Event)
    ensures After(history + [a]) == Apply(After(history), a)
    ensures After(history + [a, b]) == Apply(After(history + [a]), b)
  {
    hide Apply, Inv;
    assert (history + [a])[..|history|] == history;
    assert (history + [a, b])[..|history| + 1] == history + [a];
  }

  predicate NarrowState(t: Track, frame: seq<byte>, pieces: nat)
    requires |frame| == FRAME_SIZE
  {
    var s := t.shot;
    s.session == 1 && s.pixels == frame && s.packet == [] && !s.awaitingAck && s.offset == 2 * pieces && t.count == pieces &&
    s.packets == pieces % 0x1_0000 && s.sequence == (pieces + 1) % 0x1_0000 && s.phase == if 2 * pieces == FRAME_SIZE then End else Data
  }

  /** The piece that fits behind the header of a 20-octet packet is a single pixel. */
  lemma NarrowSend(t: Track, frame: seq<byte>, pieces: nat)
    requires Inv(t) && |frame| == FRAME_SIZE && 2 * pieces < FRAME_SIZE && NarrowState(t, frame, pieces)
    ensures var u, piece := OnSend(t, 20, 0, true), DataPacket(1, t.shot.sequence, 2 * pieces, frame[2 * pieces..2 * pieces + 2]);
            Inv(u) && u.count == t.count && u.shot == t.shot.(packet := piece, packetPixels := 2, awaitingAck := true, deadline := 3000)
  {
    hide Crc32.Crc, Inv, DataPacket;
    SendInv(t, 20, 0, true);
    assert PieceSize(20, FRAME_SIZE - 2 * pieces) == 2;
  }

  lemma NarrowAck(t: Track, u: Track, frame: seq<byte>, pieces: nat, piece: seq<byte>)
    requires |frame| == FRAME_SIZE && 2 * pieces < FRAME_SIZE && NarrowState(t, frame, pieces) && |piece| >= 17
    requires u.count == t.count && u.shot == t.shot.(packet := piece, packetPixels := 2, awaitingAck := true, deadline := 3000)
    ensures NarrowState(OnCmd(u, Ack((pieces + 1) % 0x1_0000), 0, 0), frame, pieces + 1)
  {
    hide Crc32.Crc, DataPacket, Ack, Packet, Captured, Response;
    AckFields((pieces + 1) % 0x1_0000);
    assert IsAck(u.shot, Ack((pieces + 1) % 0x1_0000));
  }

  lemma NarrowPiece(t: Track, frame: seq<byte>, pieces: nat)
    requires Inv(t) && |frame| == FRAME_SIZE && 2 * pieces < FRAME_SIZE && NarrowState(t, frame, pieces)
    ensures Inv(OnSend(t, 20, 0, true))
    ensures NarrowState(OnCmd(OnSend(t, 20, 0, true), Ack((pieces + 1) % 0x1_0000), 0, 0), frame, pieces + 1)
  {
    hide Crc32.Crc, Inv, DataPacket, Ack, OnSend, OnCmd, NarrowState;
    NarrowPlace(t, frame, pieces);
    NarrowSend(t, frame, pieces);
    var piece := DataPacket(1, t.shot.sequence, 2 * pieces, frame[2 * pieces..2 * pieces + 2]);
    NarrowAck(t, OnSend(t, 20, 0, true), frame, pieces, piece);
  }

  lemma NarrowPlace(t: Track, frame: seq<byte>, pieces: nat)
    requires |frame| == FRAME_SIZE && 2 * pieces <= FRAME_SIZE && NarrowState(t, frame, pieces)
    ensures t.shot.sequence == (pieces + 1) % 0x1_0000 && t.shot.offset <= |t.shot.pixels|
  {
  }

  lemma {:induction false} NarrowRun(frame: seq<byte>, pieces: nat)
    requires |frame| == FRAME_SIZE && 2 * pieces <= FRAME_SIZE
    ensures NarrowState(After(NarrowHistory(frame, pieces)), frame, pieces)
  {
    hide Apply, NarrowState, Inv;
    if pieces == 0 {
      NarrowStart(frame);
    } else {
      NarrowRun(frame, pieces - 1);
      var h := NarrowHistory(frame, pieces - 1);
      AfterTwo(h, Send(20, 0, true), Cmd(Ack(pieces % 0x1_0000), 0, 0));
      NarrowPiece(After(h), frame, pieces - 1);
      ApplySendCmd(After(h), pieces % 0x1_0000);
    }
  }

  lemma ApplySendCmd(t: Track, sequence: u16)
    requires Inv(t) && Inv(OnSend(t, 20, 0, true))
    ensures Apply(t, Send(20, 0, true)) == OnSend(t, 20, 0, true)
    ensures Apply(OnSend(t, 20, 0, true), Cmd(Ack(sequence), 0, 0)) == OnCmd(OnSend(t, 20, 0, true), Ack(sequence), 0, 0)
  {
    hide OnSend, OnCmd, Inv;
  }

  lemma NarrowStart(frame: seq<byte>)
    requires |frame| == FRAME_SIZE
    ensures NarrowState(After(NarrowHistory(frame, 0)), frame, 0)
  {
    hide Crc32.Crc, After, BeginPacket, Ack, Inv;
    var start, ack: Event := Cmd([1], 1, 0), Cmd(Ack(0), 0, 0);
    var two := [start, Capture(frame)];
    assert After([]) == NEW_TRACK by { AfterNothing(); }
    assert [] + [start] == [start] && [] + [start, Capture(frame)] == two;
    AfterTwo([], start, Capture(frame));
    AfterTwo(two, Send(20, 0, true), ack);
    assert NarrowHistory(frame, 0) == two + [Send(20, 0, true), ack];
    NarrowFirst(After(two), frame);
    ApplySendCmd(After(two), 0);
  }

  lemma AfterNothing()
    ensures After([]) == NEW_TRACK
  {
  }

  lemma NarrowFirst(t: Track, frame: seq<byte>)
    requires Inv(t) && |frame| == FRAME_SIZE && t.count == 0
    requires t.shot == ZERO_SHOT.(phase := Begin, session := 1, deadline := 30000, pixels := frame, crc := Crc32.Crc(0, frame))
    ensures Inv(OnSend(t, 20, 0, true)) && NarrowState(OnCmd(OnSend(t, 20, 0, true), Ack(0), 0, 0), frame, 0)
  {
    hide Crc32.Crc, Inv, BeginPacket, Ack;
    SendInv(t, 20, 0, true);
    AckFields(0);
  }

  /** Such a run exists at 20 octets, which the caller admits. */
  lemma NarrowRunExists(frame: seq<byte>)
    requires |frame| == FRAME_SIZE
    ensures var t := After(NarrowHistory(frame, 76800));
            t.shot.phase.End? && t.count == 76800 && t.shot.packets == 11264 &&
            EndSays(Packet(t.shot, 20, 0).1, 1, 11264, Crc32.Crc(0, frame))
  {
    hide After, NarrowHistory, EndPacket, EndSays, Crc32.Crc;
    NarrowRun(frame, 76800);
    var s := After(NarrowHistory(frame, 76800)).shot;
    EndFields(s.session, s.sequence, s.packets, s.crc);
  }

  // ----- a lossless transfer at any capacity that holds a pixel

  function AckOf(s: Shot): (p: seq<byte>)
    ensures |p| == 5
  {
    [2] + Le16(s.session) + Le16(s.sequence)
  }

  lemma AckAwaited(s: Shot)
    requires s.session != 0 && s.awaitingAck
    ensures IsAck(s, AckOf(s))
  {
    ReadLe16(AckOf(s), 1, s.session);
    ReadLe16(AckOf(s), 3, s.sequence);
  }

  /** Between two packets. */
  predicate Ready(t: Track, frame: seq<byte>) {
    Active(t.shot) && t.frame == frame && t.shot.packet == [] && !t.shot.awaitingAck
  }

  function ToGo(s: Shot): nat
    requires Active(s) && s.offset <= FRAME_SIZE
  {
    match s.phase
    case Begin => FRAME_SIZE + 2
    case Data => FRAME_SIZE - s.offset + 1
    case _ => 0
  }

  /** One packet, sent and acknowledged. */
  lemma Sends(t: Track, frame: seq<byte>, capacity: nat)
    requires Inv(t) && |frame| == FRAME_SIZE && Ready(t, frame) && capacity >= 19
    ensures var u := OnSend(t, capacity, 0, true);
            Inv(u) && u.frame == frame && u.shot.packet != [] && u.shot.awaitingAck && u.shot.session == t.shot.session != 0 &&
            u.shot.phase == t.shot.phase && u.shot.offset == t.shot.offset && (t.shot.phase.Data? ==> u.shot.packetPixels > 0)
  {
    hide Crc32.Crc, BeginPacket, DataPacket, EndPacket, Inv, Progress, PacketOk;
    SendInv(t, capacity, 0, true);
    ReadyHolds(t);
  }

  lemma ReadyHolds(t: Track)
    requires Inv(t) && Active(t.shot)
    ensures |t.frame| == FRAME_SIZE && t.shot.pixels == t.frame && t.shot.session != 0 && t.shot.retries <= 3
    ensures t.shot.phase.Data? ==> t.shot.offset < FRAME_SIZE && t.shot.offset % 2 == 0
    ensures t.shot.phase.Begin? ==> t.shot.offset == 0
    ensures t.shot.phase.Data? && t.shot.packet != [] ==> t.shot.offset + t.shot.packetPixels <= FRAME_SIZE
  {
    hide Crc32.Crc, BeginPacket, DataPacket, EndPacket;
  }

  lemma Acknowledged(u: Track, frame: seq<byte>)
    requires Inv(u) && |frame| == FRAME_SIZE && Active(u.shot) && u.frame == frame && u.shot.packet != [] && u.shot.awaitingAck
    requires u.shot.offset <= FRAME_SIZE && (u.shot.phase.Data? ==> u.shot.packetPixels > 0)
    ensures var v := OnCmd(u, AckOf(u.shot), 0, 0);
            v.frame == frame &&
            if u.shot.phase.End? then v.shot.phase.Complete?
            else Ready(v, frame) && v.shot.offset <= FRAME_SIZE && ToGo(v.shot) < ToGo(u.shot)
  {
    hide Crc32.Crc, BeginPacket, DataPacket, EndPacket, AckOf, Inv;
    ReadyHolds(u);
    AckAwaited(u.shot);
  }

  lemma {:induction false} Completes(history: seq<Event>, frame: seq<byte>, capacity: nat) returns (longer: seq<Event>)
    requires |frame| == FRAME_SIZE && Ready(After(history), frame) && capacity >= 19 && AtCapacity(history, capacity)
    requires After(history).shot.offset <= FRAME_SIZE
    ensures AtCapacity(longer, capacity) && After(longer).shot.phase.Complete? && After(longer).frame == frame
    decreases ToGo(After(history).shot)
  {
    hide After, OnSend, OnCmd, Ready, Inv, AckOf, Crc32.Crc;
    var t := After(history);
    RoomLeft(t, frame);
    var u := OnSend(t, capacity, 0, true);
    Sends(t, frame, capacity);
    Stays(t, u, frame);
    var ack := Cmd(AckOf(u.shot), 0, 0);
    Acknowledged(u, frame);
    AfterTwo(history, Send(capacity, 0, true), ack);
    longer := history + [Send(capacity, 0, true), ack];
    assert Apply(t, Send(capacity, 0, true)) == u;
    assert After(longer) == OnCmd(u, AckOf(u.shot), 0, 0);
    if !t.shot.phase.End? { longer := Completes(longer, frame, capacity); }
  }

  lemma RoomLeft(t: Track, frame: seq<byte>)
    requires Inv(t) && Ready(t, frame)
    ensures t.shot.offset <= |t.shot.pixels| || !t.shot.phase.Data?
  {
    hide Inv;
    ReadyHolds(t);
  }

  lemma Stays(t: Track, u: Track, frame: seq<byte>)
    requires Ready(t, frame) && u.shot.phase == t.shot.phase
    ensures Active(u.shot)
  {
  }

  /** Every frame completes at every capacity from 19 octets up. */
  lemma FrameCompletes(frame: seq<byte>, capacity: nat) returns (history: seq<Event>)
    requires |frame| == FRAME_SIZE && capacity >= 19
    ensures AtCapacity(history, capacity) && After(history).shot.phase.Complete? && After(history).frame == frame
  {
    hide After, Crc32.Crc, Inv, ToGo;
    var start: Event := Cmd([1], 1, 0);
    AfterNothing();
    assert [] + [start] == [start] && [] + [start, Capture(frame)] == [start, Capture(frame)];
    AfterTwo([], start, Capture(frame));
    history := Completes([start, Capture(frame)], frame, capacity);
  }
}
