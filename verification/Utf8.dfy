/**
 * Profile text: the device's UTF-8 check and bounded copy, against well-formed sequences as section 4 of RFC 3629
 * defines them, and the companion's check of UTF-16 text before it is sent.
 */
module Utf8 {
  import opened Bytes

  // ----- code points and their encodings

  predicate Scalar(c: nat) { c < 0xd800 || 0xe000 <= c < 0x11_0000 }

  function Encode(c: nat): (b: seq<byte>)
    requires Scalar(c)
    ensures 1 <= |b| <= 4
  {
    if c < 0x80 then [c]
    else if c < 0x800 then [0xc0 + c / 0x40, 0x80 + c % 0x40]
    else if c < 0x1_0000 then [0xe0 + c / 0x1000, 0x80 + c / 0x40 % 0x40, 0x80 + c % 0x40]
    else [0xf0 + c / 0x4_0000, 0x80 + c / 0x1000 % 0x40, 0x80 + c / 0x40 % 0x40, 0x80 + c % 0x40]
  }

  predicate Scalars(points: seq<nat>) { forall c | c in points :: Scalar(c) }

  function EncodeAll(points: seq<nat>): (b: seq<byte>)
    requires Scalars(points)
  {
    if points == [] then [] else Encode(points[0]) + EncodeAll(points[1..])
  }

  predicate Continues(b: byte) { 0x80 <= b < 0xc0 }

  // ----- the width of the sequence at the front

  function Claimed(a: byte): (n: nat)
    ensures n <= 4
  {
    if a < 0x80 then 1 else if 0xc2 <= a <= 0xdf then 2 else if 0xe0 <= a <= 0xef then 3 else if 0xf0 <= a <= 0xf4 then 4 else 0
  }

  /** Overlong forms, surrogates and values past the last plane show in the second octet. */
  predicate OutOfRange(a: byte, b: byte) {
    (a == 0xe0 && b < 0xa0) || (a == 0xed && b >= 0xa0) || (a == 0xf0 && b < 0x90) || (a == 0xf4 && b >= 0x90)
  }

  function Width(s: seq<byte>): (n: nat)
    ensures n <= |s| && n <= 4
  {
    if s == [] then 0
    else
      var n := Claimed(s[0]);
      if s[0] < 0x80 then 1
      else if n == 0 || |s| < n then 0
      else if !(forall i | 1 <= i < n :: Continues(s[i])) then 0
      else if OutOfRange(s[0], s[1]) then 0
      else n
  }

  method WidthOf(s: seq<byte>) returns (n: nat)
    ensures n == Width(s)
  {
    if s == [] { return 0; }
    var a := s[0];
    if a < 0x80 { return 1; }
    n := if 0xc2 <= a <= 0xdf then 2 else if 0xe0 <= a <= 0xef then 3 else if 0xf0 <= a <= 0xf4 then 4 else 0;
    if n == 0 || |s| < n { return 0; }
    for i := 1 to n
      invariant forall k | 1 <= k < i :: Continues(s[k])
    {
      if !Continues(s[i]) { return 0; }
    }
    if OutOfRange(a, s[1]) { return 0; }
  }

  /** A code point's encoding has its own length as width, whatever follows it. */
  lemma EncodedWidth(c: nat, rest: seq<byte>)
    requires Scalar(c)
    ensures Width(Encode(c) + rest) == |Encode(c)|
    ensures (Encode(c) + rest)[0] == 0 <==> c == 0
  {
    var s := Encode(c) + rest;
    var n := |Encode(c)|;
    assert s[..n] == Encode(c);
    if c >= 0x80 {
      Sixty(c);
      Sixty(c / 0x40);
      Sixty(c / 0x1000);
      assert forall i | 1 <= i < n :: s[i] == Encode(c)[i];
      if c < 0x800 {
      } else if c < 0x1_0000 {
        ThreeLead(c);
      } else {
        FourLead(c);
      }
    }
  }

  lemma Sixty(c: nat)
    ensures c == c / 0x40 * 0x40 + c % 0x40
  {
  }

  lemma ThreeLead(c: nat)
    requires 0x800 <= c < 0x1_0000 && Scalar(c)
    ensures 0xe0 <= 0xe0 + c / 0x1000 <= 0xef
    ensures c / 0x1000 == 0 ==> c / 0x40 % 0x40 >= 0x20
    ensures c / 0x1000 == 0xd ==> c / 0x40 % 0x40 < 0x20
  {
    assert c / 0x1000 == c / 0x40 / 0x40;
  }

  lemma FourLead(c: nat)
    requires 0x1_0000 <= c < 0x11_0000
    ensures 0xf0 <= 0xf0 + c / 0x4_0000 <= 0xf4
    ensures c / 0x4_0000 == 0 ==> c / 0x1000 % 0x40 >= 0x10
    ensures c / 0x4_0000 == 4 ==> c / 0x1000 % 0x40 < 0x10
  {
    assert c / 0x4_0000 == c / 0x1000 / 0x40;
  }

  /** The code point a sequence of this width spells. */
  function Decode(s: seq<byte>): (c: nat)
    requires Width(s) > 0
  {
    var n := Width(s);
    var a: int := s[0];
    if n == 1 then a
    else
      var b: int := s[1];
      if n == 2 then (a - 0xc0) * 0x40 + (b - 0x80)
      else
        var d: int := s[2];
        if n == 3 then (a - 0xe0) * 0x1000 + (b - 0x80) * 0x40 + (d - 0x80)
        else
          var e: int := s[3];
          (a - 0xf0) * 0x4_0000 + (b - 0x80) * 0x1000 + (d - 0x80) * 0x40 + (e - 0x80)
  }

  /** What has a width is the encoding of exactly the code point it spells. */
  lemma DecodeEncodes(s: seq<byte>)
    requires Width(s) > 0
    ensures Scalar(Decode(s)) && Encode(Decode(s)) == s[..Width(s)] && (Decode(s) == 0 <==> s[0] == 0)
  {
    var n := Width(s);
    if n == 2 {
      Two(s[0] as int - 0xc0, s[1] as int - 0x80);
    } else if n == 3 {
      Three(s[0] as int - 0xe0, s[1] as int - 0x80, s[2] as int - 0x80);
    } else if n == 4 {
      Four(s[0] as int - 0xf0, s[1] as int - 0x80, s[2] as int - 0x80, s[3] as int - 0x80);
    }
  }

  lemma Two(h: nat, l: nat)
    requires 2 <= h < 0x20 && l < 0x40
    ensures var c := h * 0x40 + l; 0x80 <= c < 0x800 && c / 0x40 == h && c % 0x40 == l
  {
  }

  lemma Three(h: nat, m: nat, l: nat)
    requires h < 0x10 && m < 0x40 && l < 0x40 && (h == 0 ==> m >= 0x20) && (h == 0xd ==> m < 0x20)
    ensures var c := h * 0x1000 + m * 0x40 + l; 0x800 <= c < 0x1_0000 && Scalar(c) && c / 0x1000 == h && c / 0x40 % 0x40 == m && c % 0x40 == l
  {
    var c := h * 0x1000 + m * 0x40 + l;
    assert c == (h * 0x40 + m) * 0x40 + l;
    assert c / 0x40 == h * 0x40 + m;
  }

  lemma Four(h: nat, k: nat, m: nat, l: nat)
    requires h < 5 && k < 0x40 && m < 0x40 && l < 0x40 && (h == 0 ==> k >= 0x10) && (h == 4 ==> k < 0x10)
    ensures var c := h * 0x4_0000 + k * 0x1000 + m * 0x40 + l;
            0x1_0000 <= c < 0x11_0000 && c / 0x4_0000 == h && c / 0x1000 % 0x40 == k && c / 0x40 % 0x40 == m && c % 0x40 == l
  {
    var c := h * 0x4_0000 + k * 0x1000 + m * 0x40 + l;
    assert c / 0x1000 == h * 0x40 + k;
    assert c / 0x40 == (h * 0x40 + k) * 0x40 + m;
  }

  // ----- whole strings

  /** The device's check of a string. */
  predicate Valid(s: seq<byte>)
    decreases |s|
  {
    s == [] || (Width(s) > 0 && s[0] != 0 && Valid(s[Width(s)..]))
  }

  method ValidUtf8(s: seq<byte>) returns (ok: bool)
    ensures ok <==> Valid(s)
  {
    hide Width;
    var i := 0;
    while i < |s|
      invariant 0 <= i <= |s|
      invariant Valid(s) <==> Valid(s[i..])
    {
      var n := WidthOf(s[i..]);
      if n == 0 || s[i] == 0 { return false; }
      assert s[i..][n..] == s[i + n..];
      i := i + n;
    }
    ok := true;
  }

  function Points(s: seq<byte>): (points: seq<nat>)
    requires Valid(s)
    decreases |s|
  {
    if s == [] then [] else [Decode(s)] + Points(s[Width(s)..])
  }

  lemma {:induction false} PointsEncode(s: seq<byte>)
    requires Valid(s)
    ensures Scalars(Points(s)) && 0 !in Points(s) && EncodeAll(Points(s)) == s
    decreases |s|
  {
    hide Width, Decode, Encode, Scalar;
    if s != [] {
      PointsEncode(s[Width(s)..]);
      DecodeEncodes(s);
    }
  }

  lemma {:induction false} EncodedValid(points: seq<nat>)
    requires Scalars(points) && 0 !in points
    ensures Valid(EncodeAll(points)) && Points(EncodeAll(points)) == points
  {
    hide Width, Decode, Encode, Scalar;
    if points != [] {
      var c, rest := points[0], EncodeAll(points[1..]);
      assert c in points && forall x | x in points[1..] :: x in points;
      EncodedValid(points[1..]);
      EncodedWidth(c, rest);
      var s := EncodeAll(points);
      assert s[Width(s)..] == rest;
      DecodeEncodes(s);
      assert s[..Width(s)] == Encode(c);
      EncodeDistinct(Decode(s), c);
    }
  }

  lemma EncodeDistinct(c: nat, d: nat)
    requires Scalar(c) && Scalar(d) && Encode(c) == Encode(d)
    ensures c == d
  {
    var n := |Encode(c)|;
    assert Encode(c)[0] == Encode(d)[0] && Encode(c)[n - 1] == Encode(d)[n - 1];
    if n >= 2 {
      assert Encode(c)[1] == Encode(d)[1];
      Sixty(c);
      Sixty(d);
      if n >= 3 {
        assert Encode(c)[2] == Encode(d)[2];
        Sixty(c / 0x40);
        Sixty(d / 0x40);
        assert c / 0x1000 == c / 0x40 / 0x40 && d / 0x1000 == d / 0x40 / 0x40;
        if n == 4 {
          Sixty(c / 0x1000);
          Sixty(d / 0x1000);
          assert c / 0x4_0000 == c / 0x1000 / 0x40 && d / 0x4_0000 == d / 0x1000 / 0x40;
        }
      }
    }
  }

  /** The check accepts exactly the encodings of code points other than NUL. */
  lemma ValidExactly(s: seq<byte>)
    ensures Valid(s) <==> exists points :: Scalars(points) && 0 !in points && EncodeAll(points) == s
  {
    if Valid(s) { PointsEncode(s); }
    if points :| Scalars(points) && 0 !in points && EncodeAll(points) == s { EncodedValid(points); }
  }

  // ----- the bounded copy

  /** How many octets of a string are copied: whole sequences while room and characters last. */
  function Kept(s: seq<byte>, room: nat, chars: nat): (used: nat)
    ensures used <= |s| && used <= room
    decreases |s|
  {
    if s == [] || chars == 0 then 0
    else
      var n := Width(s);
      if n == 0 || n > room then 0 else n + Kept(s[n..], room - n, chars - 1)
  }

  lemma KeptStep(s: seq<byte>, room: nat, chars: nat)
    ensures s == [] || chars == 0 || Width(s) == 0 || Width(s) > room ==> Kept(s, room, chars) == 0
    ensures s != [] && chars > 0 && 0 < Width(s) <= room ==>
              Kept(s, room, chars) == Width(s) + Kept(s[Width(s)..], room - Width(s), chars - 1)
  {
  }

  method KeptOf(s: seq<byte>, capacity: nat, maxChars: nat) returns (used: nat)
    requires capacity > 0
    ensures used == Kept(s, capacity - 1, maxChars)
  {
    hide Width, Kept;
    var chars := 0;
    used := 0;
    while used < |s| && chars < maxChars
      invariant used <= |s| && used < capacity && chars <= maxChars
      invariant Kept(s, capacity - 1, maxChars) == used + Kept(s[used..], capacity - 1 - used, maxChars - chars)
    {
      KeptStep(s[used..], capacity - 1 - used, maxChars - chars);
      var n := WidthOf(s[used..]);
      if n == 0 || n > capacity - 1 - used { return; }
      assert s[used..][n..] == s[used + n..];
      used := used + n;
      chars := chars + 1;
    }
    KeptStep(s[used..], capacity - 1 - used, maxChars - chars);
  }

  /** The field keeps its unused tail. */
  method CopyString(out: array<byte>, offset: nat, capacity: nat, s: seq<byte>, maxChars: nat)
    requires capacity > 0 && offset + capacity <= out.Length
    modifies out
    ensures var used := Kept(s, capacity - 1, maxChars);
            out[..] == old(out[..offset]) + s[..used] + [0] + old(out[offset + used + 1..])
  {
    var used := KeptOf(s, capacity, maxChars);
    forall i | 0 <= i < used { out[offset + i] := s[i]; }
    out[offset + used] := 0;
  }

  function Size(points: seq<nat>): nat
    requires Scalars(points)
  {
    |EncodeAll(points)|
  }

  lemma PrefixScalars(points: seq<nat>, k: nat)
    requires Scalars(points) && k <= |points|
    ensures Scalars(points[..k])
  {
    assert forall c | c in points[..k] :: c in points;
  }

  /** The copy of a well-formed string is its longest prefix of whole code points that fits both limits. */
  lemma {:induction false} KeptIsLongest(points: seq<nat>, room: nat, chars: nat) returns (k: nat)
    requires Scalars(points)
    ensures k <= |points| && k <= chars && Scalars(points[..k]) && (k < |points| ==> Scalars(points[..k + 1]))
    ensures EncodeAll(points)[..Kept(EncodeAll(points), room, chars)] == EncodeAll(points[..k])
    ensures Size(points[..k]) <= room
    ensures k == |points| || k == chars || Size(points[..k + 1]) > room
    decreases |points|
  {
    hide Width, Encode, Scalar;
    k := 0;
    var s := EncodeAll(points);
    if points != [] && chars > 0 {
      var c, rest := points[0], EncodeAll(points[1..]);
      assert c in points && forall x | x in points[1..] :: x in points;
      EncodedWidth(c, rest);
      var n := |Encode(c)|;
      assert s[n..] == rest;
      if n <= room {
        var j := KeptIsLongest(points[1..], room - n, chars - 1);
        k := j + 1;
        assert points[..k][1..] == points[1..][..j] && points[..k][0] == c;
        if k < |points| { assert points[..k + 1][1..] == points[1..][..j + 1] && points[..k + 1][0] == c; }
      } else {
        assert points[..1][1..] == [] && points[..1][0] == c && EncodeAll([]) == [];
        assert Size(points[..1]) == n;
      }
    }
    forall m: nat | m <= |points| ensures Scalars(points[..m]) { PrefixScalars(points, m); }
  }

  // ----- the companion's text

  predicate High(c: u16) { 0xd800 <= c < 0xdc00 }
  predicate Lower(c: u16) { 0xdc00 <= c < 0xe000 }

  /** UTF-16 without NUL and with its surrogates paired. */
  predicate WellFormed(v: seq<u16>)
    decreases |v|
  {
    v == [] ||
    (v[0] != 0 && if High(v[0]) then |v| >= 2 && Lower(v[1]) && WellFormed(v[2..]) else !Lower(v[0]) && WellFormed(v[1..]))
  }

  function PointsOf(v: seq<u16>): (points: seq<nat>)
    requires WellFormed(v)
    ensures Scalars(points) && 0 !in points
    decreases |v|
  {
    if v == [] then []
    else if High(v[0]) then
      var h: int, l: int := v[0], v[1];
      [0x1_0000 + (h - 0xd800) * 0x400 + (l - 0xdc00)] + PointsOf(v[2..])
    else [v[0] as int] + PointsOf(v[1..])
  }

  predicate TextOk(v: seq<u16>, maxBytes: nat, maxPoints: nat) {
    WellFormed(v) && Size(PointsOf(v)) <= maxBytes && |PointsOf(v)| <= maxPoints
  }

  method ValidateText(v: seq<u16>, maxBytes: nat, maxPoints: nat) returns (ok: bool)
    ensures ok <==> TextOk(v, maxBytes, maxPoints)
  {
    var i := 0;
    while i < |v|
      invariant 0 <= i <= |v|
      invariant WellFormed(v) <==> WellFormed(v[i..])
    {
      var c := v[i];
      if c == 0 { return false; }
      if High(c) {
        if i + 1 >= |v| || !Lower(v[i + 1]) { return false; }
        i := i + 1;
      } else if Lower(c) {
        return false;
      }
      i := i + 1;
    }
    ok := Size(PointsOf(v)) <= maxBytes && |PointsOf(v)| <= maxPoints;
  }

  const NICKNAME_CAPACITY := 48
  const INTRO_CAPACITY := 85
  const INTRO_POINTS := 28
  const SIZE_MAX := 0xffff_ffff

  /** The companion's limits are the device's: well-formed text is stored uncut if and only if it passes. */
  lemma StoredUncut(v: seq<u16>, capacity: nat, maxPoints: nat)
    requires WellFormed(v) && capacity > 0
    ensures var s := EncodeAll(PointsOf(v));
            Valid(s) && (TextOk(v, capacity - 1, maxPoints) <==> Kept(s, capacity - 1, maxPoints) == |s|)
  {
    hide WellFormed, PointsOf, Encode, Scalar, Width;
    var points := PointsOf(v);
    EncodedValid(points);
    var k := KeptIsLongest(points, capacity - 1, maxPoints);
    assert points[..|points|] == points;
    if k < |points| { Shorter(points, k); }
  }

  lemma {:induction false} Shorter(points: seq<nat>, k: nat)
    requires Scalars(points) && k < |points|
    ensures Scalars(points[..k]) && Scalars(points[..k + 1]) && Size(points[..k]) < Size(points[..k + 1]) <= Size(points)
    decreases k
  {
    hide Encode, Scalar;
    forall m: nat | m <= |points| ensures Scalars(points[..m]) { PrefixScalars(points, m); }
    assert points[0] in points && forall x | x in points[1..] :: x in points;
    assert points[..k + 1][1..] == points[1..][..k];
    if k > 0 {
      assert points[..k][1..] == points[1..][..k - 1];
      Shorter(points[1..], k - 1);
    }
  }

  lemma {:induction false} PointsWithinOctets(points: seq<nat>)
    requires Scalars(points)
    ensures |points| <= Size(points) <= 4 * |points|
  {
    hide Scalar;
    if points != [] {
      assert points[0] in points && forall x | x in points[1..] :: x in points;
      PointsWithinOctets(points[1..]);
    }
  }

  /** The nickname has no character limit on either side. */
  lemma NicknameStoredUncut(v: seq<u16>)
    requires TextOk(v, NICKNAME_CAPACITY - 1, 0x7fff_ffff)
    ensures var s := EncodeAll(PointsOf(v)); Valid(s) && Kept(s, NICKNAME_CAPACITY - 1, SIZE_MAX) == |s|
  {
    PointsWithinOctets(PointsOf(v));
    StoredUncut(v, NICKNAME_CAPACITY, SIZE_MAX);
  }

  lemma IntroStoredUncut(v: seq<u16>)
    requires TextOk(v, INTRO_CAPACITY - 1, INTRO_POINTS)
    ensures var s := EncodeAll(PointsOf(v)); Valid(s) && Kept(s, INTRO_CAPACITY - 1, INTRO_POINTS) == |s|
  {
    StoredUncut(v, INTRO_CAPACITY, INTRO_POINTS);
  }

  // ----- the command that carries it

  function Digit(n: nat): nat
    requires n < 16
  {
    if n < 10 then 0x30 + n else 0x57 + n
  }

  function Quoted(c: nat): (q: seq<nat>)
    requires Scalar(c)
    ensures Scalars(q)
  {
    if c == 0x22 || c == 0x5c then [0x5c, c]
    else if c < 32 then [0x5c, 0x75, 0x30, 0x30, Digit(c / 16), Digit(c % 16)]
    else [c]
  }

  function Quote(points: seq<nat>): (q: seq<nat>)
    requires Scalars(points)
    ensures Scalars(q)
  {
    if points == [] then [] else Quoted(points[0]) + Quote(points[1..])
  }

  const PAYLOAD_MAX := 256
  const NICKNAME_FRAME := 15
  const INTRO_FRAME := 12

  /** The octets around the quoted value are the braces, the key, the colon and four quotation marks. */
  predicate CommandFits(frame: nat, points: seq<nat>)
    requires Scalars(points)
  {
    frame + Size(Quote(points)) <= PAYLOAD_MAX
  }

  lemma {:induction false} SizeAppend(a: seq<nat>, b: seq<nat>)
    requires Scalars(a) && Scalars(b)
    ensures Scalars(a + b) && Size(a + b) == Size(a) + Size(b)
  {
    hide Scalar, Encode;
    if a == [] {
      assert a + b == b;
    } else {
      assert a[0] in a && (forall x | x in a[1..] :: x in a) && (a + b)[1..] == a[1..] + b;
      SizeAppend(a[1..], b);
    }
  }

  lemma OneQuoted(c: nat)
    requires Scalar(c)
    ensures Size(Quoted(c)) == if c == 0x22 || c == 0x5c then 2 else if c < 32 then 6 else |Encode(c)|
  {
    var q := Quoted(c);
    if c == 0x22 || c == 0x5c {
      AsciiSize(q);
    } else if c < 32 {
      AsciiSize(q);
    } else {
      assert q[1..] == [] && EncodeAll(q) == Encode(c) + EncodeAll(q[1..]);
    }
  }

  lemma {:induction false} AsciiSize(q: seq<nat>)
    requires forall c | c in q :: c < 0x80
    ensures Scalars(q) && Size(q) == |q|
  {
    if q != [] {
      assert q[0] in q && forall c | c in q[1..] :: c in q;
      AsciiSize(q[1..]);
    }
  }

  function Controls(points: seq<nat>): nat {
    if points == [] then 0 else (if points[0] < 32 then 1 else 0) + Controls(points[1..])
  }

  /** The characters a quotation needs a backslash for. */
  function Escapes(points: seq<nat>): nat {
    if points == [] then 0 else (if points[0] == 0x22 || points[0] == 0x5c then 1 else 0) + Escapes(points[1..])
  }

  /** Quoting costs five octets more for every control character, one more for every quotation mark and backslash, and
      nothing for anything else. */
  lemma {:induction false} QuotedSize(points: seq<nat>)
    requires Scalars(points)
    ensures Size(Quote(points)) == Size(points) + 5 * Controls(points) + Escapes(points)
  {
    hide Scalar, Quoted;
    if points != [] {
      assert points[0] in points && forall x | x in points[1..] :: x in points;
      QuotedSize(points[1..]);
      OneQuoted(points[0]);
      PlainSize(points[0]);
      SizeAppend(Quoted(points[0]), Quote(points[1..]));
    }
  }

  lemma PlainSize(c: nat)
    requires Scalar(c)
    ensures c < 0x80 ==> |Encode(c)| == 1
  {
  }

  lemma {:induction false} SpecialsWithin(points: seq<nat>)
    requires Scalars(points)
    ensures Controls(points) + Escapes(points) <= |points|
    ensures Size(points) <= 4 * |points|
    ensures Size(points) + 3 * (Controls(points) + Escapes(points)) <= 4 * |points|
  {
    hide Scalar;
    if points != [] {
      assert points[0] in points && forall x | x in points[1..] :: x in points;
      SpecialsWithin(points[1..]);
      PlainSize(points[0]);
    }
  }

  /** A validated nickname can be sent if and only if its octets, five more for every control character and one more for
      every quotation mark and backslash come to at most 241. A validated introduction always can. */
  lemma CommandsFit(v: seq<u16>)
    requires WellFormed(v)
    ensures var p := PointsOf(v); CommandFits(NICKNAME_FRAME, p) <==> Size(p) + 5 * Controls(p) + Escapes(p) <= 241
    ensures TextOk(v, INTRO_CAPACITY - 1, INTRO_POINTS) ==> CommandFits(INTRO_FRAME, PointsOf(v))
  {
    hide Quote;
    QuotedSize(PointsOf(v));
    SpecialsWithin(PointsOf(v));
  }

  /** Hence every nickname with at most 36 control characters can be sent, ... */
  lemma FewControlsFit(v: seq<u16>)
    requires TextOk(v, NICKNAME_CAPACITY - 1, 0x7fff_ffff) && Controls(PointsOf(v)) <= 36
    ensures CommandFits(NICKNAME_FRAME, PointsOf(v))
  {
    CommandsFit(v);
    SpecialsWithin(PointsOf(v));
    PointsWithinOctets(PointsOf(v));
  }

  /** ... and one of 41 control characters, which passes the text check, is refused. */
  lemma ControlNicknameRefused()
    ensures var v := seq(41, _ => 1 as u16); TextOk(v, NICKNAME_CAPACITY - 1, 0x7fff_ffff) && !CommandFits(NICKNAME_FRAME, PointsOf(v))
  {
    ControlText(41);
    CommandsFit(seq(41, _ => 1 as u16));
  }

  lemma {:induction false} ControlText(n: nat)
    ensures var v := seq(n, _ => 1 as u16); WellFormed(v) && |PointsOf(v)| == n && Size(PointsOf(v)) == n && Controls(PointsOf(v)) == n
  {
    var v := seq(n, _ => 1 as u16);
    if n > 0 {
      ControlText(n - 1);
      assert v[1..] == seq(n - 1, _ => 1 as u16);
    }
  }
}
