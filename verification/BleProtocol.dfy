/** The companion's side of the wallet transfer: command frames, status decoding and the acknowledged-command rules. */
module BleProtocol {
  import opened Bytes
  import opened WalletTransfer
  import Crc32

  datatype Reported = Reported(state: nat, error: nat, received: u32, expected: u32)
  datatype Verdict = Poll | SendNext | Done | Fail

  function BeginFrame(p: seq<byte>): (f: seq<byte>)
    requires |p| < 0x1_0000_0000
    ensures |f| == 9
  {
    [MSG_BEGIN] + Le32(|p|) + Le32(Crc32.Crc(0, p))
  }

  function DataFrame(offset: u32, data: seq<byte>): (f: seq<byte>)
    ensures |f| == 5 + |data|
  {
    [MSG_DATA] + Le32(offset) + data
  }

  /** Where a package of this length is cut into data frames: every piece full except possibly the last. */
  ghost predicate IsCutting(cuts: seq<nat>, length: nat, chunk: nat) {
    Cutting(cuts, length, chunk) && cuts[|cuts| - 1] == length
  }

  predicate CutsAscend(cuts: seq<nat>, length: nat) {
    (forall i | 0 <= i < |cuts| :: cuts[i] <= length) && (forall i, j | 0 <= i < j < |cuts| :: cuts[i] < cuts[j])
  }

  function DataFrames(p: seq<byte>, cuts: seq<nat>): (fs: seq<seq<byte>>)
    requires |cuts| >= 1 && |p| < 0x1_0000_0000 && CutsAscend(cuts, |p|)
    ensures |fs| == |cuts| - 1
  {
    seq(|cuts| - 1, i requires 0 <= i < |cuts| - 1 => DataFrame(cuts[i], p[cuts[i]..cuts[i + 1]]))
  }

  function Frames(p: seq<byte>, cuts: seq<nat>): (fs: seq<seq<byte>>)
    requires |cuts| >= 1 && |p| < 0x1_0000_0000 && CutsAscend(cuts, |p|)
    ensures |fs| == |cuts| + 1
  {
    [BeginFrame(p)] + DataFrames(p, cuts) + [[MSG_COMMIT]]
  }

  ghost predicate Cutting(cuts: seq<nat>, length: nat, chunk: nat) {
    |cuts| >= 1 && cuts[0] == 0 && CutsAscend(cuts, length) && forall i | 0 <= i < |cuts| - 1 :: FullPiece(cuts, i, length, chunk)
  }

  predicate FullPiece(cuts: seq<nat>, i: nat, length: nat, chunk: nat)
    requires i + 1 < |cuts|
  {
    cuts[i + 1] == if chunk < length - cuts[i] then cuts[i] + chunk else length
  }

  lemma Recut(p: seq<byte>, cuts: seq<nat>, chunk: nat, n: nat)
    requires |p| < 0x1_0000_0000 && chunk > 0 && Cutting(cuts, |p|, chunk)
    requires var offset := cuts[|cuts| - 1];
             offset < |p| && n == if chunk < |p| - offset then chunk else |p| - offset
    ensures var offset := cuts[|cuts| - 1];
            Cutting(cuts + [offset + n], |p|, chunk) &&
            DataFrames(p, cuts + [offset + n]) == DataFrames(p, cuts) + [DataFrame(offset, p[offset..offset + n])]
  {
    hide DataFrame;
    var more := cuts + [cuts[|cuts| - 1] + n];
    forall i | 0 <= i < |more| - 1 ensures FullPiece(more, i, |p|, chunk) {
      if i < |cuts| - 1 { assert FullPiece(cuts, i, |p|, chunk); }
    }
    assert DataFrames(p, more)[..|cuts| - 1] == DataFrames(p, cuts);
  }

  method BuildDataFrames(p: seq<byte>, chunk: nat) returns (out: seq<seq<byte>>, ghost cuts: seq<nat>)
    requires |p| < 0x1_0000_0000 && chunk > 0
    ensures IsCutting(cuts, |p|, chunk) && out == DataFrames(p, cuts)
  {
    hide Le32, DataFrames, Cutting;
    var offset := 0;
    out, cuts := [], [0];
    assert Cutting(cuts, |p|, chunk) && DataFrames(p, cuts) == [] by { FirstCut(p, chunk); }
    while offset < |p|
      invariant Cutting(cuts, |p|, chunk) && |cuts| >= 1 && CutsAscend(cuts, |p|) && out == DataFrames(p, cuts)
      invariant cuts[|cuts| - 1] == if offset < |p| then offset else |p|
    {
      var n := if chunk < |p| - offset then chunk else |p| - offset;
      Recut(p, cuts, chunk, n);
      out := out + [DataFrame(offset, p[offset..offset + n])];
      cuts := cuts + [offset + n];
      CutsOf(cuts, |p|, chunk);
      offset := offset + chunk;
    }
    assert IsCutting(cuts, |p|, chunk) by { CutsOf(cuts, |p|, chunk); }
  }

  lemma FirstCut(p: seq<byte>, chunk: nat)
    requires |p| < 0x1_0000_0000
    ensures Cutting([0], |p|, chunk) && DataFrames(p, [0]) == []
  {
  }

  lemma CutsOf(cuts: seq<nat>, length: nat, chunk: nat)
    requires Cutting(cuts, length, chunk)
    ensures |cuts| >= 1 && CutsAscend(cuts, length)
    ensures cuts[|cuts| - 1] == length ==> IsCutting(cuts, length, chunk)
  {
  }

  /** The frame list as the companion builds it; an unusable payload size is refused. */
  method BuildFrames(p: seq<byte>, mtuPayload: nat) returns (r: Option<seq<seq<byte>>>, ghost cuts: seq<nat>)
    requires |p| < 0x1_0000_0000
    ensures r.Some? <==> mtuPayload >= 6
    ensures r.Some? ==> IsCutting(cuts, |p|, mtuPayload - 5) && r.value == Frames(p, cuts)
  {
    if mtuPayload < 6 { return None, [0]; }
    var crc := Crc32.Compute(0, p);
    var data;
    data, cuts := BuildDataFrames(p, mtuPayload - 5);
    r := Some([[MSG_BEGIN] + Le32(|p|) + Le32(crc)] + data + [[MSG_COMMIT]]);
  }

  function ParseStatus(b: seq<byte>): Option<Reported> {
    if |b| != 12 || Read16(b, 2) != 0 || b[0] > 5 then None
    else Some(Reported(b[0], b[1], Read32(b, 4), Read32(b, 8)))
  }

  function Report(s: Status): Reported { Reported(StateCode(s.state), FaultCode(s.fault), s.received, s.expected) }

  /** Every status the device can encode is parsed to exactly its fields. */
  lemma StatusRoundTrip(s: Status)
    ensures ParseStatus(EncodeStatus(s)) == Some(Report(s))
  {
    var b := EncodeStatus(s);
    ReadLe32(b, 4, s.received);
    ReadLe32(b, 8, s.expected);
  }

  function NextForFrame(s: Reported, kind: byte, packageLength: nat, expectedAfter: nat): Verdict {
    if s.error != 0 || s.state == 4 then Fail
    else if kind == MSG_BEGIN && s.state == 3 then Poll
    else if s.received > packageLength || s.expected > packageLength then Fail
    else if s.state == 5 then Poll
    else if kind == MSG_BEGIN then
      if (s.state == 1 || s.state == 2) && s.received == 0 && s.expected == packageLength then SendNext else Poll
    else if s.expected != packageLength then Fail
    else if kind == MSG_COMMIT then if s.state == 3 && s.received == packageLength then Done else Poll
    else if kind == MSG_DATA then
      if s.received > expectedAfter then Fail
      else if s.state == 2 && s.received == expectedAfter then SendNext else Poll
    else Fail
  }

  /** While the status is still the one read before the transfer and shows an old error, wait, but not past a deadline. */
  class BeginObservation {
    const baseline: Reported
    const startedAt: nat
    const timeoutMs: nat
    var changed: bool
    var ambiguousTimeout: bool

    constructor (baseline: Reported, startedAt: nat, timeoutMs: nat)
      requires timeoutMs > 0
      ensures this.baseline == baseline && this.startedAt == startedAt && this.timeoutMs == timeoutMs
      ensures !changed && !ambiguousTimeout
    {
      this.baseline, this.startedAt, this.timeoutMs := baseline, startedAt, timeoutMs;
      changed, ambiguousTimeout := false, false;
    }

    method Observe(current: Reported, packageLength: nat, now: nat) returns (v: Verdict)
      requires now >= startedAt
      modifies this
      ensures (v, changed) == ObserveBegin(baseline, old(changed), current, packageLength, now - startedAt >= timeoutMs)
      ensures ambiguousTimeout <==>
                old(ambiguousTimeout) ||
                (!old(changed) && current == baseline && (baseline.state == 4 || baseline.error != 0) && now - startedAt >= timeoutMs)
    {
      if !changed && current == baseline && (baseline.state == 4 || baseline.error != 0) {
        if now - startedAt >= timeoutMs { ambiguousTimeout := true; return Fail; }
        return Poll;
      }
      if current != baseline { changed := true; }
      v := NextForFrame(current, MSG_BEGIN, packageLength, 0);
    }
  }

  function ObserveBegin(baseline: Reported, changed: bool, current: Reported, packageLength: nat, late: bool): (Verdict, bool) {
    if !changed && current == baseline && (baseline.state == 4 || baseline.error != 0) then (if late then Fail else Poll, changed)
    else (NextForFrame(current, MSG_BEGIN, packageLength, 0), changed || current != baseline)
  }

  /** The frames octet by octet, and what stands in them. */
  lemma FramesOnTheWire(p: seq<byte>, offset: u32, data: seq<byte>)
    requires |p| < 0x1_0000_0000
    ensures var b := BeginFrame(p); b[0] == 1 && Read32(b, 1) == |p| && Read32(b, 5) == Crc32.Crc(0, p)
    ensures var d := DataFrame(offset, data); d[0] == 2 && Read32(d, 1) == offset && d[5..] == data
    ensures Frames(p, [0])[1] == [3]
  {
    hide Crc32.Crc;
    var b, d := BeginFrame(p), DataFrame(offset, data);
    ReadLe32(b, 1, |p|);
    ReadLe32(b, 5, Crc32.Crc(0, p));
    ReadLe32(d, 1, offset);
  }

  /** An error the device reports, once it is not the one that was there before, ends the transfer at the next look. */
  lemma ErrorEnds(baseline: Reported, changed: bool, s: Reported, length: nat, after: nat, kind: byte, late: bool)
    requires s.state == 4 || s.error != 0
    ensures NextForFrame(s, kind, length, after) == Fail
    ensures ObserveBegin(baseline, changed, s, length, late).0 == if !changed && s == baseline && !late then Poll else Fail
  {
  }
}
