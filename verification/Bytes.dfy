/** Octets, fixed-width words and the little-endian layouts every record of the firmware uses. */
module Bytes {
  type byte = b: int | 0 <= b < 0x100
  type u16 = w: int | 0 <= w < 0x1_0000
  type u32 = w: int | 0 <= w < 0x1_0000_0000
  type u64 = w: int | 0 <= w < 0x1_0000_0000_0000_0000

  datatype Option<+T> = None | Some(value: T)

  function Le16(v: u16): (s: seq<byte>)
    ensures |s| == 2
  {
    [v % 0x100, v / 0x100]
  }

  function Le32(v: u32): (s: seq<byte>)
    ensures |s| == 4
  {
    Le16(v % 0x1_0000) + Le16(v / 0x1_0000)
  }

  function Le64(v: u64): (s: seq<byte>)
    ensures |s| == 8
  {
    Le32(v % 0x1_0000_0000) + Le32(v / 0x1_0000_0000)
  }

  function Read16(p: seq<byte>, at: nat): (v: u16)
    requires at + 2 <= |p|
  {
    var lo: int, hi: int := p[at], p[at + 1];
    lo + 0x100 * hi
  }

  function Read32(p: seq<byte>, at: nat): (v: u32)
    requires at + 4 <= |p|
  {
    var lo: int, hi: int := Read16(p, at), Read16(p, at + 2);
    lo + 0x1_0000 * hi
  }

  function Read64(p: seq<byte>, at: nat): (v: u64)
    requires at + 8 <= |p|
  {
    var lo: int, hi: int := Read32(p, at), Read32(p, at + 4);
    lo + 0x1_0000_0000 * hi
  }

  /** Whatever was laid out at an offset is what the reader finds there. */
  lemma ReadLe16(p: seq<byte>, at: nat, v: u16)
    requires at + 2 <= |p| && p[at..at + 2] == Le16(v)
    ensures Read16(p, at) == v
  {
    assert p[at] == p[at..at + 2][0] && p[at + 1] == p[at..at + 2][1];
  }

  lemma ReadLe32(p: seq<byte>, at: nat, v: u32)
    requires at + 4 <= |p| && p[at..at + 4] == Le32(v)
    ensures Read32(p, at) == v
  {
    var lo, hi := v % 0x1_0000, v / 0x1_0000;
    assert p[at..at + 2] == p[at..at + 4][..2] == Le16(lo);
    assert p[at + 2..at + 4] == p[at..at + 4][2..] == Le16(hi);
    ReadLe16(p, at, lo);
    ReadLe16(p, at + 2, hi);
  }

  lemma ReadLe64(p: seq<byte>, at: nat, v: u64)
    requires at + 8 <= |p| && p[at..at + 8] == Le64(v)
    ensures Read64(p, at) == v
  {
    var lo, hi := v % 0x1_0000_0000, v / 0x1_0000_0000;
    assert p[at..at + 4] == p[at..at + 8][..4] == Le32(lo);
    assert p[at + 4..at + 8] == p[at..at + 8][4..] == Le32(hi);
    ReadLe32(p, at, lo);
    ReadLe32(p, at + 4, hi);
  }

  /** And laying out again what was read gives the octets back. */
  lemma LeRead16(p: seq<byte>, at: nat)
    requires at + 2 <= |p|
    ensures Le16(Read16(p, at)) == p[at..at + 2]
  {
  }

  lemma LeRead32(p: seq<byte>, at: nat)
    requires at + 4 <= |p|
    ensures Le32(Read32(p, at)) == p[at..at + 4]
  {
    hide Le16;
    LeRead16(p, at);
    LeRead16(p, at + 2);
    assert p[at..at + 4] == p[at..at + 2] + p[at + 2..at + 4];
  }

  lemma LeRead64(p: seq<byte>, at: nat)
    requires at + 8 <= |p|
    ensures Le64(Read64(p, at)) == p[at..at + 8]
  {
    hide Le32;
    LeRead32(p, at);
    LeRead32(p, at + 4);
    assert p[at..at + 8] == p[at..at + 4] + p[at + 4..at + 8];
  }

  /** The lowest octet comes first. */
  lemma LittleEndian(p: seq<byte>, at: nat)
    ensures at + 2 <= |p| ==> Read16(p, at) as int == p[at] as int + 256 * p[at + 1] as int
    ensures at + 4 <= |p| ==>
              Read32(p, at) as int == p[at] as int + 256 * p[at + 1] as int + 65536 * p[at + 2] as int + 16777216 * p[at + 3] as int
    ensures at + 8 <= |p| ==> Read64(p, at) as int == Read32(p, at) as int + 4294967296 * Read32(p, at + 4) as int
  {
  }
}
