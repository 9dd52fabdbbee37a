/** The companion's segwit address check on characters: case, alphabet, checksum and program regrouping. */
module SegwitAddress {
  import opened Bytes
  import Bits
  import opened Bech32

  const ALPHABET: string := "qpzry9x8gf2tvdw0s3jn54khce6mua7l"
  const KELVIN: char := '\U{212A}'

  /** Lower case where it can land in the alphabet: ASCII letters and the Kelvin sign, whose lower case is an ordinary k. */
  function Lower(c: char): char {
    if 'A' <= c <= 'Z' then c + ' ' else if c == KELVIN then 'k' else c
  }

  /** Upper case on ASCII letters; the Kelvin sign is already upper case. */
  function Upper(c: char): char { if 'a' <= c <= 'z' then c - ' ' else c }

  predicate AllLower(a: string) { forall i | 0 <= i < |a| :: Lower(a[i]) == a[i] }
  predicate AllUpper(a: string) { forall i | 0 <= i < |a| :: Upper(a[i]) == a[i] }

  function IndexFrom(s: string, c: char, from: nat): (i: int)
    requires from <= |s|
    ensures i == -1 || (from <= i < |s| && s[i] == c)
    ensures i == -1 <==> c !in s[from..]
    decreases |s| - from
  {
    if from == |s| then -1 else if s[from] == c then from else IndexFrom(s, c, from + 1)
  }

  function SymbolOf(c: char): (i: int)
    ensures -1 <= i < 32 && (i >= 0 ==> ALPHABET[i] == c)
  {
    IndexFrom(ALPHABET, c, 0)
  }

  const WORDS: seq<Word> :=
    [0, 1, 2, 3, 4, 5, 6, 7, 8, 9, 10, 11, 12, 13, 14, 15, 16, 17, 18, 19, 20, 21, 22, 23, 24, 25, 26, 27, 28, 29, 30, 31]

  function WordOf(n: nat): Word
    requires n < 32
  {
    WORDS[n]
  }

  function PlaceOf(w: Word): (n: nat)
    ensures n < 32
  {
    if w == 0 then 0 else if w == 1 then 1 else if w == 2 then 2 else if w == 3 then 3 else if w == 4 then 4 else
    if w == 5 then 5 else if w == 6 then 6 else if w == 7 then 7 else if w == 8 then 8 else if w == 9 then 9 else
    if w == 10 then 10 else if w == 11 then 11 else if w == 12 then 12 else if w == 13 then 13 else
    if w == 14 then 14 else if w == 15 then 15 else if w == 16 then 16 else if w == 17 then 17 else
    if w == 18 then 18 else if w == 19 then 19 else if w == 20 then 20 else if w == 21 then 21 else
    if w == 22 then 22 else if w == 23 then 23 else if w == 24 then 24 else if w == 25 then 25 else
    if w == 26 then 26 else if w == 27 then 27 else if w == 28 then 28 else if w == 29 then 29 else
    if w == 30 then 30 else 31
  }

  lemma WordPlace0(n: nat)
    requires 0 <= n < 8
    ensures PlaceOf(WordOf(n)) == n && WordOf(n) < 32
  {
    if n == 0 {} else if n == 1 {} else if n == 2 {} else if n == 3 {} else if n == 4 {} else if n == 5 {} else if n == 6 {} else {}
  }

  lemma WordPlace8(n: nat)
    requires 8 <= n < 16
    ensures PlaceOf(WordOf(n)) == n && WordOf(n) < 32
  {
    if n == 8 {} else if n == 9 {} else if n == 10 {} else if n == 11 {} else if n == 12 {} else if n == 13 {} else if n == 14 {} else {}
  }

  lemma WordPlace16(n: nat)
    requires 16 <= n < 24
    ensures PlaceOf(WordOf(n)) == n && WordOf(n) < 32
  {
    if n == 16 {} else if n == 17 {} else if n == 18 {} else if n == 19 {} else if n == 20 {} else if n == 21 {} else if n == 22 {} else {}
  }

  lemma WordPlace24(n: nat)
    requires 24 <= n < 32
    ensures PlaceOf(WordOf(n)) == n && WordOf(n) < 32
  {
    if n == 24 {} else if n == 25 {} else if n == 26 {} else if n == 27 {} else if n == 28 {} else if n == 29 {} else if n == 30 {} else {}
  }

  lemma WordPlace(n: nat)
    requires n < 32
    ensures PlaceOf(WordOf(n)) == n && WordOf(n) < 32
  {
    hide PlaceOf, WordOf;
    if n < 8 { WordPlace0(n); } else if n < 16 { WordPlace8(n); } else if n < 24 { WordPlace16(n); } else { WordPlace24(n); }
  }

  // ----- regrouping five-bit values into octets

  predicate Below(values: seq<nat>, bound: nat) { forall v | v in values :: v < bound }

  /** The n low bits of a number, most significant first. */
  function BitsOf(v: nat, n: nat): (b: seq<bool>)
    ensures |b| == n
  {
    if n == 0 then [] else BitsOf(v / 2, n - 1) + [v % 2 == 1]
  }

  /** All bits of a sequence of n-bit values, most significant first. */
  function AllBits(values: seq<nat>, n: nat): (b: seq<bool>)
    ensures |b| == n * |values|
  {
    if values == [] then []
    else
      LengthStep(n, |values|);
      AllBits(values[..|values| - 1], n) + BitsOf(values[|values| - 1], n)
  }

  lemma LengthStep(n: nat, count: nat)
    requires count > 0
    ensures n * (count - 1) + n == n * count
  {
  }

  function SymbolBits(values: seq<nat>): (b: seq<bool>)
    ensures |b| == 5 * |values|
  {
    AllBits(values, 5)
  }

  function ProgramBits(program: seq<nat>): (b: seq<bool>)
    ensures |b| == 8 * |program|
  {
    AllBits(program, 8)
  }

  function Number(b: seq<bool>): nat {
    if b == [] then 0 else 2 * Number(b[..|b| - 1]) + if b[|b| - 1] then 1 else 0
  }

  predicate NoneSet(b: seq<bool>) { forall i | 0 <= i < |b| :: !b[i] }

  /** Fewer than five bits are left over, and they are zero. */
  predicate RegroupOk(values: seq<nat>) {
    5 * |values| % 8 < 5 && NoneSet(SymbolBits(values)[5 * |values| / 8 * 8..])
  }

  /** The five-bit values spell this program followed by fewer than five zero bits. */
  predicate Spells(values: seq<nat>, program: seq<nat>) {
    ProgramBits(program) <= SymbolBits(values) && 5 * |values| - 8 * |program| < 5 && NoneSet(SymbolBits(values)[8 * |program|..])
  }

  lemma {:induction false} NumberInverts(b: seq<bool>)
    ensures Number(b) < Bits.Pow2(|b|) && BitsOf(Number(b), |b|) == b
  {
    if b != [] {
      NumberInverts(b[..|b| - 1]);
      assert Number(b) / 2 == Number(b[..|b| - 1]);
    }
  }

  lemma {:induction false} BitsDistinct(v: nat, w: nat, n: nat)
    requires v < Bits.Pow2(n) && w < Bits.Pow2(n) && BitsOf(v, n) == BitsOf(w, n)
    ensures v == w
  {
    if n > 0 {
      var bv, bw := BitsOf(v / 2, n - 1), BitsOf(w / 2, n - 1);
      assert BitsOf(v, n)[..n - 1] == bv && BitsOf(w, n)[..n - 1] == bw;
      assert BitsOf(v, n)[n - 1] == BitsOf(w, n)[n - 1];
      BitsDistinct(v / 2, w / 2, n - 1);
    }
  }

  lemma OctetCount()
    ensures Bits.Pow2(8) == 256
  {
    assert Bits.Pow2(3) == 8;
    assert Bits.Pow2(5) == 4 * Bits.Pow2(3);
    assert Bits.Pow2(7) == 4 * Bits.Pow2(5);
  }

  function Pack(b: seq<bool>): (program: seq<nat>)
    requires |b| % 8 == 0
    ensures |program| == |b| / 8
  {
    if b == [] then [] else Pack(b[..|b| - 8]) + [Number(b[|b| - 8..])]
  }

  lemma {:induction false} PackBits(b: seq<bool>)
    requires |b| % 8 == 0
    ensures Below(Pack(b), 256) && ProgramBits(Pack(b)) == b
  {
    hide Number, BitsOf, Bits.Pow2;
    if b != [] {
      var front, last := b[..|b| - 8], b[|b| - 8..];
      PackBits(front);
      OctetCount();
      NumberInverts(last);
      assert Pack(b) == Pack(front) + [Number(last)];
      assert Pack(b)[..|Pack(b)| - 1] == Pack(front);
      assert b == front + last;
    }
  }

  lemma {:induction false} ProgramBitsDistinct(a: seq<nat>, b: seq<nat>)
    requires |a| == |b| && Below(a, 256) && Below(b, 256) && ProgramBits(a) == ProgramBits(b)
    ensures a == b
  {
    hide BitsOf;
    if a != [] {
      var n := |a| - 1;
      assert a[n] in a && b[n] in b && (forall v | v in a[..n] :: v in a) && (forall v | v in b[..n] :: v in b);
      assert ProgramBits(a)[..8 * n] == ProgramBits(a[..n]) && ProgramBits(b)[..8 * n] == ProgramBits(b[..n]);
      assert ProgramBits(a)[8 * n..] == BitsOf(a[n], 8) && ProgramBits(b)[8 * n..] == BitsOf(b[n], 8);
      OctetCount();
      BitsDistinct(a[n], b[n], 8);
      ProgramBitsDistinct(a[..n], b[..n]);
      assert a == a[..n] + [a[n]] && b == b[..n] + [b[n]];
    }
  }

  lemma OctetsIn(bits: nat, count: nat)
    ensures 0 <= bits - 8 * count < 5 <==> bits % 8 < 5 && count == bits / 8
  {
  }

  /** Exactly the regroupings of octet programs are accepted ... */
  lemma RegroupAccepts(values: seq<nat>)
    ensures RegroupOk(values) <==> exists program :: Below(program, 256) && Spells(values, program)
  {
    hide Spells, RegroupOk, Below;
    if RegroupOk(values) { var program := Regrouped(values); }
    if program :| Below(program, 256) && Spells(values, program) { SpelledRegroups(values, program); }
  }

  lemma Regrouped(values: seq<nat>) returns (program: seq<nat>)
    requires RegroupOk(values)
    ensures Below(program, 256) && Spells(values, program)
  {
    hide NoneSet, AllBits, Pack, Below;
    var n := 5 * |values| / 8;
    OctetsIn(5 * |values|, n);
    var front := SymbolBits(values)[..8 * n];
    PackBits(front);
    program := Pack(front);
  }

  lemma SpelledRegroups(values: seq<nat>, program: seq<nat>)
    requires Spells(values, program)
    ensures RegroupOk(values)
  {
    hide NoneSet, AllBits;
    OctetsIn(5 * |values|, |program|);
  }

  /** ... and the program is determined by the values. */
  lemma ProgramUnique(values: seq<nat>, a: seq<nat>, b: seq<nat>)
    requires Below(a, 256) && Below(b, 256) && Spells(values, a) && Spells(values, b)
    ensures a == b
  {
    hide AllBits;
    assert |a| == |b|;
    assert ProgramBits(a) == SymbolBits(values)[..8 * |a|] == ProgramBits(b);
    ProgramBitsDistinct(a, b);
  }

  // ----- the loop that checks it

  lemma {:induction false} NumberExtends(b: seq<bool>, v: nat, n: nat)
    ensures Number(b + BitsOf(v, n + 1)) == 2 * Number(b + BitsOf(v / 2, n)) + v % 2
  {
    var c := b + BitsOf(v, n + 1);
    assert c[..|c| - 1] == b + BitsOf(v / 2, n);
  }

  lemma NumberJoins(b: seq<bool>, v: nat)
    requires v < 32
    ensures Number(b + BitsOf(v, 5)) == Number(b) * 32 + v
  {
    hide Number, BitsOf;
    var v1 := v / 2;
    var v2 := v1 / 2;
    var v3 := v2 / 2;
    var v4 := v3 / 2;
    NumberExtends(b, v, 4);
    NumberExtends(b, v1, 3);
    NumberExtends(b, v2, 2);
    NumberExtends(b, v3, 1);
    NumberExtends(b, v4, 0);
    assert b + BitsOf(v4 / 2, 0) == b;
  }

  lemma ShiftIn(n: nat, v: nat)
    ensures (n % WORD * 32 + v) % WORD == (n * 32 + v) % WORD
  {
    var q := n / WORD;
    assert n == q * WORD + n % WORD;
    assert n * 32 + v == 32 * q * WORD + (n % WORD * 32 + v);
    Cycle(32 * q, n % WORD * 32 + v);
  }

  lemma Cycle(k: nat, m: nat)
    ensures (k * WORD + m) % WORD == m % WORD
  {
  }

  lemma NoneSetSplits(b: seq<bool>, k: nat)
    requires 0 < k <= |b|
    ensures NoneSet(b[|b| - k..]) <==> NoneSet(b[..|b| - 1][|b| - k..]) && !b[|b| - 1]
  {
    var whole, part := b[|b| - k..], b[..|b| - 1][|b| - k..];
    assert whole == part + [b[|b| - 1]];
    assert whole[k - 1] == b[|b| - 1] && forall i | 0 <= i < k - 1 :: whole[i] == part[i];
  }

  lemma {:induction false} LowBitsZero(b: seq<bool>, k: nat)
    requires k <= 4 && k <= |b|
    ensures Number(b) % Scale(k) == 0 <==> NoneSet(b[|b| - k..])
  {
    hide Scale, NoneSet;
    if k > 0 {
      var front, bit := b[..|b| - 1], if b[|b| - 1] then 1 else 0;
      LowBitsZero(front, k - 1);
      NoneSetSplits(b, k);
      assert Number(b) == 2 * Number(front) + bit;
      HalveScale(Number(front), bit, k);
    } else {
      NothingSet(b);
    }
  }

  lemma NothingSet(b: seq<bool>)
    ensures Number(b) % Scale(0) == 0 && NoneSet(b[|b|..])
  {
  }

  lemma HalveScale(n: nat, bit: nat, k: nat)
    requires 1 <= k <= 4 && bit < 2
    ensures (2 * n + bit) % Scale(k) == 0 <==> n % Scale(k - 1) == 0 && bit == 0
  {
    if k == 1 {} else if k == 2 {} else if k == 3 {} else {}
  }

  function Scale(k: nat): (p: nat)
    requires k <= 8
    ensures p > 0
  {
    if k == 0 then 1 else if k == 1 then 2 else if k == 2 then 4 else if k == 3 then 8 else if k == 4 then 16
    else if k == 5 then 32 else if k == 6 then 64 else if k == 7 then 128 else 256
  }

  lemma OctetRest(q: nat, t: nat)
    requires t < 256
    ensures (256 * q + t) % 256 == t
  {
  }

  lemma Word2(n: nat)
    ensures n % WORD % 2 == n % 2
  {
    var q := n / WORD;
    assert n == 2 * (0x80000000 * q) + n % WORD;
  }

  lemma Shift2(r: nat)
    ensures r * 128 % 256 == 0 <==> r % 2 == 0
  {
    var q, t := r / 2, r % 2;
    assert r == 2 * q + t;
    OctetRest(q, 128 * t);
  }

  lemma Word4(n: nat)
    ensures n % WORD % 4 == n % 4
  {
    var q := n / WORD;
    assert n == 4 * (0x40000000 * q) + n % WORD;
  }

  lemma Shift4(r: nat)
    ensures r * 64 % 256 == 0 <==> r % 4 == 0
  {
    var q, t := r / 4, r % 4;
    assert r == 4 * q + t;
    OctetRest(q, 64 * t);
  }

  lemma Word8(n: nat)
    ensures n % WORD % 8 == n % 8
  {
    var q := n / WORD;
    assert n == 8 * (0x20000000 * q) + n % WORD;
  }

  lemma Shift8(r: nat)
    ensures r * 32 % 256 == 0 <==> r % 8 == 0
  {
    var q, t := r / 8, r % 8;
    assert r == 8 * q + t;
    OctetRest(q, 32 * t);
  }

  lemma Word16(n: nat)
    ensures n % WORD % 16 == n % 16
  {
    var q := n / WORD;
    assert n == 16 * (0x10000000 * q) + n % WORD;
  }

  lemma Shift16(r: nat)
    ensures r * 16 % 256 == 0 <==> r % 16 == 0
  {
    var q, t := r / 16, r % 16;
    assert r == 16 * q + t;
    OctetRest(q, 16 * t);
  }

  /** Shifting the leftover bits up against an octet's top and masking asks whether they are zero. */
  lemma LeftoverMask(n: nat, bits: nat)
    requires bits <= 4
    ensures n % WORD * Scale(8 - bits) % 256 == 0 <==> n % Scale(bits) == 0
  {
    if bits == 1 {
      Word2(n);
      Shift2(n % WORD);
    } else if bits == 2 {
      Word4(n);
      Shift4(n % WORD);
    } else if bits == 3 {
      Word8(n);
      Shift8(n % WORD);
    } else if bits == 4 {
      Word16(n);
      Shift16(n % WORD);
    }
  }

  const WORD := 0x1_0000_0000

  /** The regrouping loop: a 32-bit accumulator, a bit count, and a count of the octets passed. */
  method Regroup(values: seq<nat>) returns (ok: bool, count: nat)
    requires Below(values, 32)
    ensures ok <==> RegroupOk(values)
    ensures count == 5 * |values| / 8
  {
    hide NoneSet, AllBits, Scale, Number;
    var acc, bits := 0, 0;
    count := 0;
    NumberEmpty();
    for i := 0 to |values|
      invariant 0 <= bits < 8 && 8 * count + bits == 5 * i
      invariant acc == Number(SymbolBits(values[..i])) % WORD
    {
      ShiftIn(Number(SymbolBits(values[..i])), values[i]);
      assert values[i] in values;
      SymbolBitsNext(values, i);
      acc := (acc * 32 + values[i]) % WORD;
      bits := bits + 5;
      while bits >= 8
        invariant 0 <= bits < 13 && 8 * count + bits == 5 * (i + 1)
      {
        bits := bits - 8;
        count := count + 1;
      }
    }
    assert values[..|values|] == values;
    if bits >= 5 { return false, count; }
    LeftoverMask(Number(SymbolBits(values)), bits);
    LowBitsZero(SymbolBits(values), bits);
    ok := acc * Scale(8 - bits) % 256 == 0;
  }

  lemma NumberEmpty()
    ensures Number(SymbolBits([])) == 0
  {
  }

  lemma SymbolBitsNext(values: seq<nat>, i: nat)
    requires i < |values| && values[i] < 32
    ensures Number(SymbolBits(values[..i + 1])) == Number(SymbolBits(values[..i])) * 32 + values[i]
  {
    hide Number, BitsOf;
    assert values[..i + 1][..i] == values[..i];
    NumberJoins(SymbolBits(values[..i]), values[i]);
  }

  // ----- the whole check

  function Lowered(a: string): (l: string)
    ensures |l| == |a|
  {
    seq(|a|, i requires 0 <= i < |a| => Lower(a[i]))
  }

  /** The last separator follows the two characters of the network prefix. */
  predicate Framed(a: string) { |a| >= 10 && a[..3] == "bc1" && '1' !in a[3..] }

  predicate Known(a: string)
    requires |a| >= 3
  {
    forall i | 3 <= i < |a| :: SymbolOf(a[i]) >= 0
  }

  function DataOf(a: string): (d: seq<nat>)
    requires |a| >= 3 && Known(a)
    ensures |d| == |a| - 3 && Below(d, 32)
  {
    seq(|a| - 3, i requires 0 <= i < |a| - 3 => SymbolOf(a[3 + i]))
  }

  function WordsOf(data: seq<nat>): (w: seq<Word>)
    requires Below(data, 32)
    ensures |w| == |data|
  {
    seq(|data|, i requires 0 <= i < |data| => assert data[i] in data; WordOf(data[i]))
  }

  /** The checksum state after the expanded prefix "bc". */
  function PrefixState(): Word { Polymod(1, [3, 3, 0, 2, 3]) }

  function Checksum(data: seq<nat>): Word
    requires Below(data, 32)
  {
    Polymod(PrefixState(), WordsOf(data))
  }

  /** Version zero is checked by the first constant, later versions by the second. */
  function Expected(version: nat): Word { if version == 0 then 1 else 0x2bc830a3 }

  predicate CountOk(version: nat, count: nat) { if version == 0 then count == 20 || count == 32 else 2 <= count <= 40 }

  predicate DataOk(data: seq<nat>)
    requires |data| >= 7 && Below(data, 32)
  {
    var values := data[1..|data| - 6];
    data[0] <= 16 && Checksum(data) == Expected(data[0]) && RegroupOk(values) && CountOk(data[0], 5 * |values| / 8)
  }

  predicate Valid(address: string) {
    14 <= |address| <= 90 && (AllLower(address) || AllUpper(address)) &&
    var a := Lowered(address);
    Framed(a) && Known(a) && DataOk(DataOf(a))
  }

  method LastIndexOf(s: string, c: char) returns (at: int)
    ensures at == -1 || 0 <= at < |s|
    ensures at == -1 ==> c !in s
    ensures at >= 0 ==> s[at] == c && c !in s[at + 1..]
  {
    at := |s| - 1;
    while at >= 0
      invariant -1 <= at < |s|
      invariant c !in s[at + 1..]
    {
      if s[at] == c { return; }
      assert s[at..] == [s[at]] + s[at + 1..];
      at := at - 1;
    }
  }

  method ReadData(a: string) returns (ok: bool, data: seq<nat>)
    requires |a| >= 3
    ensures ok <==> Known(a)
    ensures ok ==> data == DataOf(a)
  {
    hide SymbolOf;
    data := [];
    for i := 0 to |a| - 3
      invariant |data| == i
      invariant forall k | 3 <= k < 3 + i :: SymbolOf(a[k]) >= 0 && data[k - 3] == SymbolOf(a[k])
    {
      var symbol := SymbolOf(a[3 + i]);
      if symbol < 0 { return false, data; }
      data := data + [symbol];
    }
    ok := true;
  }

  method FoldChecksum(state: Word, values: seq<Word>) returns (polymod: Word)
    ensures polymod == Polymod(state, values)
  {
    hide PolymodStep;
    polymod := state;
    for i := 0 to |values|
      invariant Polymod(polymod, values[i..]) == Polymod(state, values)
    {
      assert values[i..][0] == values[i] && values[i..][1..] == values[i + 1..];
      polymod := Step(polymod, values[i]);
    }
  }

  /** The check, step by step as the companion performs it. */
  method ValidSegwit(address: string) returns (ok: bool)
    ensures ok <==> Valid(address)
  {
    hide RegroupOk, Polymod, Known, AllLower, AllUpper, Lower, Framed, DataOf, WordsOf, Lowered, Below;
    if |address| < 14 || |address| > 90 || !(AllLower(address) || AllUpper(address)) { return false; }
    var a := Lowered(address);
    var split := LastIndexOf(a, '1');
    SplitFrames(a, split);
    if split != 2 || a[..split] != "bc" || |a| - split - 1 < 7 { return false; }
    var known, data := ReadData(a);
    if !known { return false; }
    var polymod := FoldChecksum(1, [3, 3, 0, 2, 3]);
    polymod := FoldChecksum(polymod, WordsOf(data));
    var version := data[0];
    if version > 16 || (version == 0 && polymod != 1) || (version > 0 && polymod != 0x2bc830a3) { return false; }
    SliceBelow(data);
    var fits, count := Regroup(data[1..|data| - 6]);
    ok := fits && if version == 0 then count == 20 || count == 32 else count >= 2 && count <= 40;
  }

  lemma SliceBelow(data: seq<nat>)
    requires |data| >= 7 && Below(data, 32)
    ensures Below(data[1..|data| - 6], 32)
  {
    var values := data[1..|data| - 6];
    forall v | v in values ensures v < 32 {
      assert v in data;
    }
  }

  lemma SplitFrames(a: string, split: int)
    requires |a| >= 14 && -1 <= split < |a|
    requires split == -1 ==> '1' !in a
    requires split >= 0 ==> a[split] == '1' && '1' !in a[split + 1..]
    ensures split == 2 && a[..2] == "bc" ==> Framed(a)
    ensures Framed(a) ==> split == 2 && a[..2] == "bc"
  {
    if split > 2 { assert a[3..][split - 3] == '1'; }
    if split < 2 { assert a[split + 1..][2 - (split + 1)] == a[2]; }
    assert a[..3] == a[..2] + [a[2]] && a[..2] == a[..3][..2] && a[..3][2] == a[2];
    assert "bc1" == "bc" + ['1'] && "bc1"[..2] == "bc";
  }

  // ----- one changed character

  lemma SameLower(x: char, y: char)
    requires Lower(x) == Lower(y) && x != y
    ensures !(Lower(x) == x && Lower(y) == y)
    ensures Upper(x) == x && Upper(y) == y ==> (x == 'K' && y == KELVIN) || (x == KELVIN && y == 'K')
  {
  }

  /** A valid address is written in one case: its first two letters say which. */
  lemma CaseOfValid(a: string)
    requires |a| >= 3 && Lowered(a)[..3] == "bc1"
    ensures AllLower(a) ==> a[0] == 'b' && a[1] == 'c'
    ensures AllUpper(a) ==> a[0] == 'B' && a[1] == 'C'
  {
    assert Lowered(a)[..3][0] == 'b' && Lowered(a)[..3][1] == 'c';
  }

  lemma ChangedLowered(a: string, i: nat, c: char)
    requires i < |a|
    ensures Lowered(a[i := c]) == Lowered(a)[i := Lower(c)]
  {
    hide Lower;
  }

  /** Another symbol after the version never keeps the checksum. */
  lemma SymbolChanged(a: string, i: nat, c: char)
    requires 4 <= i < |a| && |a| >= 10 && Known(a) && Known(a[i := c]) && c != a[i]
    requires DataOk(DataOf(a))
    ensures !DataOk(DataOf(a[i := c]))
  {
    hide Polymod, RegroupOk, SymbolOf;
    var data, changed := DataOf(a), DataOf(a[i := c]);
    assert SymbolOf(a[i]) == data[i - 3] && SymbolOf(a[i := c][i]) == changed[i - 3];
    SymbolsDiffer(a[i], c);
    assert changed == data[i - 3 := changed[i - 3]];
    ChecksumChanged(data, i - 3, changed[i - 3]);
  }

  lemma SymbolsDiffer(x: char, y: char)
    requires SymbolOf(x) >= 0 && SymbolOf(y) >= 0 && x != y
    ensures SymbolOf(x) != SymbolOf(y)
  {
  }

  lemma ChecksumChanged(data: seq<nat>, k: nat, v: nat)
    requires Below(data, 32) && k < |data| && v < 32 && v != data[k]
    ensures Below(data[k := v], 32) && Checksum(data[k := v]) != Checksum(data)
  {
    hide Polymod, WordOf, PlaceOf, PrefixState;
    var changed := data[k := v];
    forall x | x in changed ensures x < 32 { if x != v { assert x in data; } }
    var words := WordsOf(data);
    forall w | w in words ensures w < 32 {
      var j :| 0 <= j < |words| && words[j] == w;
      assert data[j] in data;
      WordPlace(data[j]);
    }
    assert data[k] in data;
    WordPlace(data[k]);
    WordPlace(v);
    PrefixInRange();
    OneSymbolChanges(PrefixState(), words, k, WordOf(v));
    assert WordsOf(changed) == words[k := WordOf(v)];
  }

  lemma PrefixInRange()
    ensures PrefixState() < 0x40000000
  {
    PolymodRange(1, [3, 3, 0, 2, 3]);
  }

  lemma {:induction false} PolymodRange(state: Word, values: seq<Word>)
    requires state < 0x40000000 && Symbols(values)
    ensures Polymod(state, values) < 0x40000000
    decreases |values|
  {
    hide PolymodStep;
    if values != [] {
      assert values[0] in values && forall v | v in values[1..] :: v in values;
      StepRange(state, values[0]);
      PolymodRange(PolymodStep(state, values[0]), values[1..]);
    }
  }

  /** The Kelvin sign stands in for a capital K, and for nothing else. */
  predicate KelvinExchange(x: char, y: char) { (x == 'K' && y == KELVIN) || (x == KELVIN && y == 'K') }

  /**
   * Changing one character other than the version of an accepted address gets it refused, except for the
   * exchange of a capital K and the Kelvin sign in an upper-case address.
   */
  lemma OneCharacterChanged(a: string, i: nat, c: char)
    requires Valid(a) && i < |a| && i != 3 && c != a[i]
    ensures Valid(a[i := c]) <==> AllUpper(a) && KelvinExchange(a[i], c)
  {
    hide DataOk, Lower, Upper, Known, SymbolOf, DataOf;
    var b := a[i := c];
    var l, m := Lowered(a), Lowered(b);
    ChangedLowered(a, i, c);
    if AllUpper(a) && KelvinExchange(a[i], c) {
      KelvinKeeps(a, i, c);
    }
    if Valid(b) {
      if i < 3 { assert l[..3][i] == m[..3][i]; }
      if Lower(c) != Lower(a[i]) {
        SymbolChanged(l, i, Lower(c));
      } else {
        CaseKept(a, i, c);
        SameLower(a[i], c);
      }
    }
  }

  lemma KelvinKeeps(a: string, i: nat, c: char)
    requires Valid(a) && i < |a| && AllUpper(a) && KelvinExchange(a[i], c)
    ensures Valid(a[i := c])
  {
    hide DataOk, Known, SymbolOf, DataOf, AllLower, Framed;
    ChangedLowered(a, i, c);
    assert Lower('K') == Lower(KELVIN) == 'k';
    assert Lowered(a)[i := Lower(c)] == Lowered(a);
    assert AllUpper(a[i := c]);
  }

  /** Both spellings are in the same case, so the changed character is in that case before and after. */
  lemma CaseKept(a: string, i: nat, c: char)
    requires i < |a| && Valid(a) && Valid(a[i := c]) && Lower(c) == Lower(a[i])
    ensures (AllLower(a) && Lower(a[i]) == a[i] && Lower(c) == c) || (AllUpper(a) && Upper(a[i]) == a[i] && Upper(c) == c)
  {
    hide DataOk, Lower, Upper, Known, SymbolOf, DataOf;
    var b := a[i := c];
    ChangedLowered(a, i, c);
    CaseOfValid(a);
    CaseOfValid(b);
    assert b[i] == c;
  }

  // ----- every program has an address

  lemma AlphabetDistinct(i: nat, j: nat)
    requires i < j < 32
    ensures ALPHABET[i] != ALPHABET[j]
  {
  }

  lemma SymbolAt(n: nat)
    requires n < 32
    ensures SymbolOf(ALPHABET[n]) == n
  {
    var i := SymbolOf(ALPHABET[n]);
    assert ALPHABET[n] in ALPHABET[0..];
    if i < n { AlphabetDistinct(i, n); }
    if n < i { AlphabetDistinct(n, i); }
  }

  lemma AlphabetLower(n: nat)
    requires n < 32
    ensures Lower(ALPHABET[n]) == ALPHABET[n] && ALPHABET[n] != '1'
  {
  }

  /** The characters of the symbols behind the prefix. */
  function Address(data: seq<nat>): (a: string)
    requires Below(data, 32)
    ensures |a| == |data| + 3
  {
    "bc1" + seq(|data|, i requires 0 <= i < |data| => assert data[i] in data; ALPHABET[data[i]])
  }

  lemma AddressReads(data: seq<nat>)
    requires Below(data, 32) && 11 <= |data| <= 87
    ensures var a := Address(data); AllLower(a) && Lowered(a) == a && Framed(a) && Known(a) && DataOf(a) == data
  {
    hide SymbolOf;
    var a := Address(data);
    forall i | 3 <= i < |a| ensures SymbolOf(a[i]) == data[i - 3] && Lower(a[i]) == a[i] && a[i] != '1' {
      assert data[i - 3] in data;
      SymbolAt(data[i - 3]);
      AlphabetLower(data[i - 3]);
    }
    PrefixLower();
    assert a[..3] == "bc1";
    forall i | 0 <= i < |a| ensures Lower(a[i]) == a[i] { if i < 3 { assert a[i] == "bc1"[i]; } }
  }

  lemma PrefixLower()
    ensures forall i | 0 <= i < 3 :: Lower("bc1"[i]) == "bc1"[i]
  {
  }

  /** The five-bit values of a bit sequence. */
  function Fives(b: seq<bool>): (values: seq<nat>)
    requires |b| % 5 == 0
    ensures |values| == |b| / 5
  {
    if b == [] then [] else Fives(b[..|b| - 5]) + [Number(b[|b| - 5..])]
  }

  lemma {:induction false} FivesBits(b: seq<bool>)
    requires |b| % 5 == 0
    ensures Below(Fives(b), 32) && SymbolBits(Fives(b)) == b
  {
    hide Number, BitsOf, Bits.Pow2;
    if b != [] {
      var front, last := b[..|b| - 5], b[|b| - 5..];
      FivesBits(front);
      SymbolCount();
      NumberInverts(last);
      assert Fives(b) == Fives(front) + [Number(last)];
      assert Fives(b)[..|Fives(b)| - 1] == Fives(front);
      assert b == front + last;
    }
  }

  lemma SymbolCount()
    ensures Bits.Pow2(5) == 32
  {
    assert Bits.Pow2(3) == 8;
  }

  function Padding(n: nat): (b: seq<bool>)
    ensures |b| == (5 - n % 5) % 5 && NoneSet(b) && (n + |b|) % 5 == 0
  {
    seq((5 - n % 5) % 5, _ => false)
  }

  /** Every octet program is spelled by some five-bit values. */
  lemma ProgramSpelled(program: seq<nat>) returns (values: seq<nat>)
    requires Below(program, 256)
    ensures Below(values, 32) && Spells(values, program) && |values| == (8 * |program| + 4) / 5
  {
    hide AllBits, Fives, Number;
    var bits := ProgramBits(program) + Padding(8 * |program|);
    values := Fives(bits);
    FivesBits(bits);
    assert bits[8 * |program|..] == Padding(8 * |program|);
  }

  lemma TargetInRange(version: nat)
    ensures Expected(version) < 0x40000000
  {
  }

  lemma ZerosAreSymbols()
    ensures Symbols(Zeros(6))
  {
  }

  lemma WordsAreSymbols(data: seq<nat>)
    requires Below(data, 32)
    ensures Symbols(WordsOf(data))
  {
    hide WordOf, PlaceOf;
    forall w | w in WordsOf(data) ensures w < 32 {
      var j :| 0 <= j < |data| && WordsOf(data)[j] == w;
      assert data[j] in data;
      WordPlace(data[j]);
    }
  }

  lemma WordPlaced(w: Word)
    requires w < 32
    ensures WordOf(PlaceOf(w)) == w
  {
    hide PlaceOf;
    var n := WordFound(w);
    WordPlace(n);
  }

  lemma WordFound(w: Word) returns (n: nat)
    requires w < 32
    ensures n < 32 && WordOf(n) == w
  {
    if w == 0 { n := 0; } else if w == 1 { n := 1; } else if w == 2 { n := 2; } else if w == 3 { n := 3; }
    else if w == 4 { n := 4; } else if w == 5 { n := 5; } else if w == 6 { n := 6; } else if w == 7 { n := 7; }
    else if w == 8 { n := 8; } else if w == 9 { n := 9; } else if w == 10 { n := 10; } else if w == 11 { n := 11; }
    else if w == 12 { n := 12; } else if w == 13 { n := 13; } else if w == 14 { n := 14; } else if w == 15 { n := 15; }
    else if w == 16 { n := 16; } else if w == 17 { n := 17; } else if w == 18 { n := 18; } else if w == 19 { n := 19; }
    else if w == 20 { n := 20; } else if w == 21 { n := 21; } else if w == 22 { n := 22; } else if w == 23 { n := 23; }
    else if w == 24 { n := 24; } else if w == 25 { n := 25; } else if w == 26 { n := 26; } else if w == 27 { n := 27; }
    else if w == 28 { n := 28; } else if w == 29 { n := 29; } else if w == 30 { n := 30; } else { n := 31; }
  }

  /** Six symbols that complete a checksum, as places in the alphabet. */
  lemma DataCompleted(data: seq<nat>, version: nat) returns (check: seq<nat>)
    requires Below(data, 32)
    ensures |check| == 6 && Below(data + check, 32) && Checksum(data + check) == Expected(version)
  {
    hide Polymod, WordOf, PlaceOf, PrefixState, Expected;
    PrefixInRange();
    TargetInRange(version);
    WordsAreSymbols(data);
    ZerosAreSymbols();
    PolymodRange(PrefixState(), WordsOf(data));
    PolymodRange(Polymod(PrefixState(), WordsOf(data)), Zeros(6));
    var words := ChecksumExists(PrefixState(), WordsOf(data), Expected(version));
    check := seq(6, i requires 0 <= i < 6 => PlaceOf(words[i]));
    forall i | 0 <= i < 6 ensures WordOf(check[i]) == words[i] {
      assert words[i] in words;
      WordPlaced(words[i]);
    }
    assert WordsOf(data + check) == WordsOf(data) + words;
  }

  /** Every version up to 16 and every program of a length it allows has an accepted address that spells it. */
  lemma EveryProgramAccepted(version: nat, program: seq<nat>) returns (address: string)
    requires version <= 16 && Below(program, 256)
    requires if version == 0 then |program| == 20 || |program| == 32 else 2 <= |program| <= 40
    ensures Valid(address)
    ensures var data := DataOf(Lowered(address)); data[0] == version && Spells(data[1..|data| - 6], program)
  {
    hide AllLower, AllUpper, Framed, Known, DataOf, Lowered, RegroupOk, Spells, Checksum, Address;
    var values := ProgramSpelled(program);
    RegroupAccepts(values);
    var check := DataCompleted([version] + values, version);
    var data := [version] + values + check;
    AddressReads(data);
    address := Address(data);
    assert data[1..|data| - 6] == values;
    assert data[0] == version;
  }

  // ----- two published addresses, one of each kind

  lemma PrefixIs()
    ensures PrefixState() == 0x2318043
  {
  }

  lemma PolymodJoins(state: Word, a: seq<nat>, b: seq<nat>)
    requires Below(a, 32) && Below(b, 32)
    ensures Below(a + b, 32) && Polymod(state, WordsOf(a + b)) == Polymod(Polymod(state, WordsOf(a)), WordsOf(b))
  {
    hide Polymod, WordOf;
    assert WordsOf(a + b) == WordsOf(a) + WordsOf(b);
    PolymodSplit(state, WordsOf(a), WordsOf(b));
  }

  const V0_0: seq<nat> := [0, 6, 4, 10, 22, 8, 13, 4]
  const V0_1: seq<nat> := [8, 18, 3, 16, 0, 11, 2, 0]
  const V0_2: seq<nat> := [10, 19, 15, 4, 3, 9, 10, 21]
  const V0_3: seq<nat> := [5, 17, 1, 7, 17, 22, 22, 9]
  const V0_4: seq<nat> := [18, 23, 6, 15, 14, 31, 23]
  const V0: seq<nat> := V0_0 + V0_1 + V0_2 + V0_3 + V0_4

  lemma ZeroWords0()
    ensures Polymod(0x2318043, [0, 6, 4, 10, 22, 8, 13, 4]) == 0x1185f7db
  {
    hide Polymod;
    PolymodFour(0x2318043, 0, 6, 4, 10);
    assert PolymodStep(PolymodStep(PolymodStep(PolymodStep(0x2318043, 0), 6), 4), 10) == 0x87e2e0c;
    PolymodFour(0x87e2e0c, 22, 8, 13, 4);
    assert PolymodStep(PolymodStep(PolymodStep(PolymodStep(0x87e2e0c, 22), 8), 13), 4) == 0x1185f7db;
    var a: seq<Word>, b: seq<Word>, all: seq<Word> := [0, 6, 4, 10], [22, 8, 13, 4], [0, 6, 4, 10, 22, 8, 13, 4];
    PolymodSplit(0x2318043, a, b);
    assert a + b == all;
  }

  lemma ZeroPart0()
    ensures Below(V0_0, 32) && Polymod(0x2318043, WordsOf(V0_0)) == 0x1185f7db
  {
    hide Polymod;
    ZeroWords0();
    assert WordsOf(V0_0) == [0, 6, 4, 10, 22, 8, 13, 4];
  }

  lemma ZeroWords1()
    ensures Polymod(0x1185f7db, [8, 18, 3, 16, 0, 11, 2, 0]) == 0x3de70c04
  {
    hide Polymod;
    PolymodFour(0x1185f7db, 8, 18, 3, 16);
    assert PolymodStep(PolymodStep(PolymodStep(PolymodStep(0x1185f7db, 8), 18), 3), 16) == 0x1209fefe;
    PolymodFour(0x1209fefe, 0, 11, 2, 0);
    assert PolymodStep(PolymodStep(PolymodStep(PolymodStep(0x1209fefe, 0), 11), 2), 0) == 0x3de70c04;
    var a: seq<Word>, b: seq<Word>, all: seq<Word> := [8, 18, 3, 16], [0, 11, 2, 0], [8, 18, 3, 16, 0, 11, 2, 0];
    PolymodSplit(0x1185f7db, a, b);
    assert a + b == all;
  }

  lemma ZeroPart1()
    ensures Below(V0_1, 32) && Polymod(0x1185f7db, WordsOf(V0_1)) == 0x3de70c04
  {
    hide Polymod;
    ZeroWords1();
    assert WordsOf(V0_1) == [8, 18, 3, 16, 0, 11, 2, 0];
  }

  lemma ZeroWords2()
    ensures Polymod(0x3de70c04, [10, 19, 15, 4, 3, 9, 10, 21]) == 0x18ab66f5
  {
    hide Polymod;
    PolymodFour(0x3de70c04, 10, 19, 15, 4);
    assert PolymodStep(PolymodStep(PolymodStep(PolymodStep(0x3de70c04, 10), 19), 15), 4) == 0x25afc27;
    PolymodFour(0x25afc27, 3, 9, 10, 21);
    assert PolymodStep(PolymodStep(PolymodStep(PolymodStep(0x25afc27, 3), 9), 10), 21) == 0x18ab66f5;
    var a: seq<Word>, b: seq<Word>, all: seq<Word> := [10, 19, 15, 4], [3, 9, 10, 21], [10, 19, 15, 4, 3, 9, 10, 21];
    PolymodSplit(0x3de70c04, a, b);
    assert a + b == all;
  }

  lemma ZeroPart2()
    ensures Below(V0_2, 32) && Polymod(0x3de70c04, WordsOf(V0_2)) == 0x18ab66f5
  {
    hide Polymod;
    ZeroWords2();
    assert WordsOf(V0_2) == [10, 19, 15, 4, 3, 9, 10, 21];
  }

  lemma ZeroWords3()
    ensures Polymod(0x18ab66f5, [5, 17, 1, 7, 17, 22, 22, 9]) == 0x284cafbb
  {
    hide Polymod;
    PolymodFour(0x18ab66f5, 5, 17, 1, 7);
    assert PolymodStep(PolymodStep(PolymodStep(PolymodStep(0x18ab66f5, 5), 17), 1), 7) == 0x16931e7c;
    PolymodFour(0x16931e7c, 17, 22, 22, 9);
    assert PolymodStep(PolymodStep(PolymodStep(PolymodStep(0x16931e7c, 17), 22), 22), 9) == 0x284cafbb;
    var a: seq<Word>, b: seq<Word>, all: seq<Word> := [5, 17, 1, 7], [17, 22, 22, 9], [5, 17, 1, 7, 17, 22, 22, 9];
    PolymodSplit(0x18ab66f5, a, b);
    assert a + b == all;
  }

  lemma ZeroPart3()
    ensures Below(V0_3, 32) && Polymod(0x18ab66f5, WordsOf(V0_3)) == 0x284cafbb
  {
    hide Polymod;
    ZeroWords3();
    assert WordsOf(V0_3) == [5, 17, 1, 7, 17, 22, 22, 9];
  }

  lemma ZeroWords4()
    ensures Polymod(0x284cafbb, [18, 23, 6, 15, 14, 31, 23]) == 1
  {
    hide Polymod;
    PolymodFour(0x284cafbb, 18, 23, 6, 15);
    assert PolymodStep(PolymodStep(PolymodStep(PolymodStep(0x284cafbb, 18), 23), 6), 15) == 0x264795a0;
    PolymodThree(0x264795a0, 14, 31, 23);
    assert PolymodStep(PolymodStep(PolymodStep(0x264795a0, 14), 31), 23) == 0x1;
    var a: seq<Word>, b: seq<Word>, all: seq<Word> := [18, 23, 6, 15], [14, 31, 23], [18, 23, 6, 15, 14, 31, 23];
    PolymodSplit(0x284cafbb, a, b);
    assert a + b == all;
  }

  lemma ZeroPart4()
    ensures Below(V0_4, 32) && Polymod(0x284cafbb, WordsOf(V0_4)) == 1
  {
    hide Polymod;
    ZeroWords4();
    assert WordsOf(V0_4) == [18, 23, 6, 15, 14, 31, 23];
  }

  lemma ZeroChecksum()
    ensures Below(V0, 32) && Checksum(V0) == 1
  {
    hide Polymod, WordsOf;
    hide V0_0, V0_1, V0_2, V0_3, V0_4;
    PrefixIs();
    ZeroPart0();
    ZeroPart1();
    ZeroPart2();
    ZeroPart3();
    ZeroPart4();
    PolymodJoins(0x2318043, V0_0, V0_1);
    PolymodJoins(0x2318043, V0_0 + V0_1, V0_2);
    PolymodJoins(0x2318043, V0_0 + V0_1 + V0_2, V0_3);
    PolymodJoins(0x2318043, V0_0 + V0_1 + V0_2 + V0_3, V0_4);
  }

  const V16_0: seq<nat> := [16, 14, 20, 15, 0, 8, 13, 2]
  const V16_1: seq<nat> := [10, 20, 18]
  const V16: seq<nat> := V16_0 + V16_1

  lemma SixteenWords0()
    ensures Polymod(0x2318043, [16, 14, 20, 15, 0, 8, 13, 2]) == 0x1cfbe9b
  {
    hide Polymod;
    PolymodFour(0x2318043, 16, 14, 20, 15);
    assert PolymodStep(PolymodStep(PolymodStep(PolymodStep(0x2318043, 16), 14), 20), 15) == 0x8760c09;
    PolymodFour(0x8760c09, 0, 8, 13, 2);
    assert PolymodStep(PolymodStep(PolymodStep(PolymodStep(0x8760c09, 0), 8), 13), 2) == 0x1cfbe9b;
    var a: seq<Word>, b: seq<Word>, all: seq<Word> := [16, 14, 20, 15], [0, 8, 13, 2], [16, 14, 20, 15, 0, 8, 13, 2];
    PolymodSplit(0x2318043, a, b);
    assert a + b == all;
  }

  lemma SixteenPart0()
    ensures Below(V16_0, 32) && Polymod(0x2318043, WordsOf(V16_0)) == 0x1cfbe9b
  {
    hide Polymod;
    SixteenWords0();
    assert WordsOf(V16_0) == [16, 14, 20, 15, 0, 8, 13, 2];
  }

  lemma SixteenWords1()
    ensures Polymod(0x1cfbe9b, [10, 20, 18]) == 0x2bc830a3
  {
    hide Polymod;
    PolymodThree(0x1cfbe9b, 10, 20, 18);
    assert PolymodStep(PolymodStep(PolymodStep(0x1cfbe9b, 10), 20), 18) == 0x2bc830a3;
  }

  lemma SixteenPart1()
    ensures Below(V16_1, 32) && Polymod(0x1cfbe9b, WordsOf(V16_1)) == 0x2bc830a3
  {
    hide Polymod;
    SixteenWords1();
    assert WordsOf(V16_1) == [10, 20, 18];
  }

  lemma SixteenChecksum()
    ensures Below(V16, 32) && Checksum(V16) == 0x2bc830a3
  {
    hide Polymod, WordsOf;
    hide V16_0, V16_1;
    PrefixIs();
    SixteenPart0();
    SixteenPart1();
    PolymodJoins(0x2318043, V16_0, V16_1);
  }

  /** "bc1qxy2kgdygjrsqtzq2n0yrf2493p83kkfjhx0wlh" */
  lemma PublishedZero()
    ensures Below(V0, 32) && Valid(Address(V0))
  {
    hide Checksum, SymbolOf, Address, Known, AllLower, Framed, Lowered, DataOf, RegroupOk, V0;
    ZeroChecksum();
    FirstOfZero();
    AddressReads(V0);
    NothingOver(V0[1..33]);
  }

  lemma NothingOver(values: seq<nat>)
    requires |values| % 8 == 0
    ensures RegroupOk(values)
  {
  }

  lemma FirstOfZero()
    ensures |V0| == 39 && V0[0] == 0
  {
  }

  /** "bc1sw50qgdz25j", an address of version 16 from BIP 350. */
  lemma PublishedSixteen()
    ensures Below(V16, 32) && Valid(Address(V16))
  {
    hide Checksum, SymbolOf, Address, Known, AllLower, Framed, Lowered, DataOf, RegroupOk;
    SixteenChecksum();
    AddressReads(V16);
    TailOfSixteen();
    assert V16[1..|V16| - 6] == [14, 20, 15, 0];
  }

  lemma TailOfSixteen()
    ensures RegroupOk([14, 20, 15, 0])
  {
    hide AllBits;
    var b := SymbolBits([14, 20, 15, 0]);
    LastBits([14, 20, 15, 0]);
  }

  lemma LastBits(values: seq<nat>)
    requires values != [] && values[|values| - 1] == 0
    ensures NoneSet(SymbolBits(values)[|SymbolBits(values)| - 5..])
  {
    assert BitsOf(0, 5) == [false, false, false, false, false];
  }
}
