/** The reflected CRC-32 that the firmware computes bit by bit (polynomial 0xedb88320). */
module Crc32 {
  import opened Bytes
  import opened Bits

  const POLYNOMIAL: u32 := 0xedb88320

  /** Exclusive-or of two words; the bound is XorBound at width 32. */
  function Xor32(a: u32, b: u32): (r: u32) {
    assert Xor(a, b) < 0x1_0000_0000 by {
      Pow32();
      XorBound(a, b, 32);
    }
    Xor(a, b)
  }

  lemma Pow32()
    ensures Pow2(32) == 0x1_0000_0000
  {
    assert Pow2(4) == 16;
    assert Pow2(8) == 16 * Pow2(4);
    assert Pow2(12) == 16 * Pow2(8);
    assert Pow2(16) == 16 * Pow2(12);
    assert Pow2(20) == 16 * Pow2(16);
    assert Pow2(24) == 16 * Pow2(20);
    assert Pow2(28) == 16 * Pow2(24);
    assert Pow2(32) == 16 * Pow2(28);
  }

  function Invert(a: u32): u32 { 0xffff_ffff - a }

  function Shift(crc: u32, times: nat): u32
    decreases times
  {
    if times == 0 then crc
    else Shift(if crc % 2 == 1 then Xor32(crc / 2, POLYNOMIAL) else crc / 2, times - 1)
  }

  /** The register after the octets of data. */
  function Register(crc: u32, data: seq<byte>): u32
    decreases |data|
  {
    if data == [] then crc else Register(Shift(Xor32(crc, data[0]), 8), data[1..])
  }

  function Crc(seed: u32, data: seq<byte>): (crc: u32) {
    Invert(Register(Invert(seed), data))
  }

  lemma {:induction false} RegisterConcat(crc: u32, a: seq<byte>, b: seq<byte>)
    ensures Register(crc, a + b) == Register(Register(crc, a), b)
    decreases |a|
  {
    if a == [] {
      assert a + b == b;
    } else {
      assert (a + b)[1..] == a[1..] + b;
      RegisterConcat(Shift(Xor32(crc, a[0]), 8), a[1..], b);
    }
  }

  /** A checksum may be continued over a second block from the value of the first. */
  lemma Incremental(seed: u32, a: seq<byte>, b: seq<byte>)
    ensures Crc(Crc(seed, a), b) == Crc(seed, a + b)
  {
    RegisterConcat(Invert(seed), a, b);
  }

  lemma EmptyIsSeed(seed: u32)
    ensures Crc(seed, []) == seed
  {
  }

  /** The byte loop and the eight-step bit loop of the checksum routine. */
  method Compute(seed: u32, data: seq<byte>) returns (crc: u32)
    ensures crc == Crc(seed, data)
  {
    crc := Invert(seed);
    var i := 0;
    while i < |data|
      invariant 0 <= i <= |data|
      invariant crc == Register(Invert(seed), data[..i])
    {
      RegisterConcat(Invert(seed), data[..i], [data[i]]);
      assert data[..i + 1] == data[..i] + [data[i]];
      assert [data[i]][1..] == [];
      crc := Xor32(crc, data[i]);
      ghost var start := crc;
      var bit := 0;
      while bit < 8
        invariant 0 <= bit <= 8
        invariant Shift(crc, 8 - bit) == Shift(start, 8)
      {
        crc := if crc % 2 == 1 then Xor32(crc / 2, POLYNOMIAL) else crc / 2;
        bit := bit + 1;
      }
      i := i + 1;
    }
    assert data[..|data|] == data;
    crc := Invert(crc);
  }

  // ----- what the checksum notices

  /** One step of the register. */
  function Halve(crc: u32): u32 { if crc % 2 == 1 then Xor32(crc / 2, POLYNOMIAL) else crc / 2 }

  lemma TopBit(a: u32)
    requires a < 0x8000_0000
    ensures Xor(a, POLYNOMIAL) >= 0x8000_0000
  {
    var low := POLYNOMIAL - 0x8000_0000;
    Pow31();
    XorBound(a, low, 31);
    XorDisjoint(low, 1, 31);
    XorAssociates(a, low, 0x8000_0000);
    XorDisjoint(Xor(a, low), 1, 31);
  }

  lemma Pow31()
    ensures Pow2(31) == 0x8000_0000
  {
    Pow32();
    assert Pow2(32) == 2 * Pow2(31);
  }

  /** The polynomial's top bit tells afterwards whether it was mixed in, so a step loses nothing. */
  lemma HalveInjective(a: u32, b: u32)
    requires Halve(a) == Halve(b)
    ensures a == b
  {
    hide Xor;
    if a % 2 == 1 { TopBit(a / 2); }
    if b % 2 == 1 { TopBit(b / 2); }
    if a % 2 == 1 && b % 2 == 1 {
      XorCancels(a / 2, POLYNOMIAL);
      XorCancels(b / 2, POLYNOMIAL);
    }
  }

  lemma {:induction false} ShiftInjective(a: u32, b: u32, times: nat)
    requires Shift(a, times) == Shift(b, times)
    ensures a == b
    decreases times
  {
    hide Xor32;
    if times > 0 {
      ShiftInjective(Halve(a), Halve(b), times - 1);
      HalveInjective(a, b);
    }
  }

  lemma {:induction false} RegisterInjective(a: u32, b: u32, data: seq<byte>)
    requires Register(a, data) == Register(b, data)
    ensures a == b
    decreases |data|
  {
    hide Shift, Xor32;
    if data != [] {
      var x, y := Xor32(a, data[0]), Xor32(b, data[0]);
      RegisterInjective(Shift(x, 8), Shift(y, 8), data[1..]);
      ShiftInjective(x, y, 8);
      Mixed(a, data[0]);
      Mixed(b, data[0]);
    }
  }

  lemma Mixed(a: u32, d: u32)
    ensures Xor32(Xor32(a, d), d) == a
  {
    hide Xor;
    XorCancels(a, d);
  }

  /** A step, and so every number of steps, is linear over exclusive-or. */
  lemma HalveLinear(a: u32, b: u32)
    ensures Halve(Xor32(a, b)) == Xor32(Halve(a), Halve(b))
  {
    hide Xor;
    XorHalves(a, b);
    var x, y, p := a / 2, b / 2, POLYNOMIAL;
    if a % 2 == 1 {
      XorCommutes(x, p);
      if b % 2 == 1 {
        XorAssociates(Xor(x, p), y, p);
        XorAssociates(p, x, y);
        XorCommutes(p, Xor(x, y));
        XorCancels(Xor(x, y), p);
      } else {
        XorAssociates(p, x, y);
        XorCommutes(p, Xor(x, y));
      }
    } else if b % 2 == 1 {
      XorAssociates(x, y, p);
    }
  }

  lemma {:induction false} ShiftLinear(a: u32, b: u32, times: nat)
    ensures Shift(Xor32(a, b), times) == Xor32(Shift(a, times), Shift(b, times))
    decreases times
  {
    hide Xor32;
    if times > 0 {
      HalveLinear(a, b);
      ShiftLinear(Halve(a), Halve(b), times - 1);
    }
  }

  lemma {:induction false} ShiftSplit(a: u32, m: nat, n: nat)
    ensures Shift(a, m + n) == Shift(Shift(a, m), n)
    decreases m
  {
    hide Xor32;
    if m > 0 { ShiftSplit(Halve(a), m - 1, n); }
  }

  lemma StepsDown(v: u32, times: nat)
    requires v < 0x8000_0000
    ensures Shift(2 * v, times + 1) == Shift(v, times)
  {
    hide Xor32;
  }

  /** What lies above eight empty digits only moves down. */
  lemma MovesDown(v: u32)
    requires v < 0x100_0000
    ensures Shift(0x100 * v, 8) == v
  {
    hide Shift;
    StepsDown(128 * v, 7);
    StepsDown(64 * v, 6);
    StepsDown(32 * v, 5);
    StepsDown(16 * v, 4);
    StepsDown(8 * v, 3);
    StepsDown(4 * v, 2);
    StepsDown(2 * v, 1);
    StepsDown(v, 0);
    NoSteps(v);
  }

  lemma NoSteps(v: u32)
    ensures Shift(v, 0) == v
  {
  }

  /** Up to four octets as a little-endian word. */
  function Word(data: seq<byte>): (w: u32)
    requires |data| <= 4
    ensures w < Pow2(8 * |data|)
    decreases |data|
  {
    Powers();
    if data == [] then 0 else data[0] + 0x100 * Word(data[1..])
  }

  lemma Powers()
    ensures Pow2(0) == 1 && Pow2(8) == 0x100 && Pow2(16) == 0x1_0000 && Pow2(24) == 0x100_0000 && Pow2(32) == 0x1_0000_0000
  {
    Pow32();
    assert Pow2(4) == 16;
    assert Pow2(8) == 16 * Pow2(4);
    assert Pow2(12) == 16 * Pow2(8);
    assert Pow2(16) == 16 * Pow2(12);
    assert Pow2(20) == 16 * Pow2(16);
    assert Pow2(24) == 16 * Pow2(20);
  }

  lemma {:induction false} WordInjective(a: seq<byte>, b: seq<byte>)
    requires |a| == |b| <= 4 && Word(a) == Word(b)
    ensures a == b
    decreases |a|
  {
    if a != [] {
      assert Word(a) == a[0] + 0x100 * Word(a[1..]) && Word(b) == b[0] + 0x100 * Word(b[1..]);
      WordInjective(a[1..], b[1..]);
      assert a == [a[0]] + a[1..] && b == [b[0]] + b[1..];
    }
  }

  /** Mixing octets in one by one is mixing them in at once. */
  lemma {:induction false} RegisterAtOnce(crc: u32, data: seq<byte>)
    requires |data| <= 4
    ensures Register(crc, data) == Shift(Xor32(crc, Word(data)), 8 * |data|)
    decreases |data|
  {
    hide Xor, Shift;
    if data == [] {
      XorZero(crc);
      NoSteps(crc);
    } else {
      var x: u32, rest: u32, n := data[0], Word(data[1..]), |data| - 1;
      Powers();
      var c := Xor32(crc, x);
      RegisterAtOnce(Shift(c, 8), data[1..]);
      ShiftLinear(c, 0x100 * rest, 8);
      MovesDown(rest);
      ShiftSplit(Xor32(c, 0x100 * rest), 8, 8 * n);
      XorAssociates(crc, x, 0x100 * rest);
      XorDisjoint(x, rest, 8);
    }
  }

  /** Any change confined to four neighbouring octets, whatever is before and after them, changes the checksum. */
  lemma BurstNoticed(seed: u32, before: seq<byte>, a: seq<byte>, b: seq<byte>, after: seq<byte>)
    requires |a| == |b| <= 4 && a != b
    ensures Crc(seed, before + a + after) != Crc(seed, before + b + after)
  {
    hide Register, Shift, Xor;
    var r := Register(Invert(seed), before);
    RegisterConcat(Invert(seed), before, a);
    RegisterConcat(Invert(seed), before, b);
    RegisterConcat(Invert(seed), before + a, after);
    RegisterConcat(Invert(seed), before + b, after);
    if Register(r, a) == Register(r, b) {
      RegisterAtOnce(r, a);
      RegisterAtOnce(r, b);
      ShiftInjective(Xor32(r, Word(a)), Xor32(r, Word(b)), 8 * |a|);
      XorCommutes(r, Word(a));
      XorCommutes(r, Word(b));
      Mixed(Word(a), r);
      Mixed(Word(b), r);
      WordInjective(a, b);
      assert false;
    }
    if Register(Register(r, a), after) == Register(Register(r, b), after) {
      RegisterInjective(Register(r, a), Register(r, b), after);
      assert false;
    }
  }

  lemma OctetNoticed(seed: u32, data: seq<byte>, i: nat, v: byte)
    requires i < |data| && data[i] != v
    ensures Crc(seed, data[i := v]) != Crc(seed, data)
  {
    hide Crc;
    assert data == data[..i] + [data[i]] + data[i + 1..];
    assert data[i := v] == data[..i] + [v] + data[i + 1..];
    BurstNoticed(seed, data[..i], [data[i]], [v], data[i + 1..]);
  }

  /** The generator is that of IEEE 802.3, lowest power first in the highest digit; a single digit that falls out mixes it in. */
  lemma Generator()
    ensures POLYNOMIAL == Pow2(31) + Pow2(30) + Pow2(29) + Pow2(27) + Pow2(26) + Pow2(24) + Pow2(23) + Pow2(21) + Pow2(20) + Pow2(19) +
                          Pow2(15) + Pow2(9) + Pow2(8) + Pow2(5)
    ensures Shift(1, 1) == POLYNOMIAL
  {
    hide Xor;
    Powers();
    assert Pow2(5) == 32 && Pow2(9) == 2 * Pow2(8) && Pow2(16) == 2 * Pow2(15);
    assert Pow2(19) == 8 * Pow2(16) by { assert Pow2(17) == 2 * Pow2(16) && Pow2(18) == 2 * Pow2(17); }
    assert Pow2(20) == 2 * Pow2(19) && Pow2(21) == 2 * Pow2(20) && Pow2(24) == 2 * Pow2(23);
    assert Pow2(26) == 4 * Pow2(24) && Pow2(27) == 2 * Pow2(26) by { assert Pow2(25) == 2 * Pow2(24); }
    assert Pow2(32) == 2 * Pow2(31) && Pow2(31) == 2 * Pow2(30) && Pow2(30) == 2 * Pow2(29);
    XorCommutes(0, POLYNOMIAL);
    XorZero(POLYNOMIAL);
    NoSteps(POLYNOMIAL);
  }
}
