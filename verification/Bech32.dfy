/** The segwit checksum register of the companion (BIP-173 and BIP-350): linear, injective, and therefore sensitive to every
    single changed symbol. Operations carry names so that proofs above the bit level can hide their definitions. */
module Bech32 {
  type Word = bv32

  function Xor(a: Word, b: Word): Word { a ^ b }

  /** The 25 bits that stay, shifted by one symbol. */
  function Kept(pre: Word): Word { (pre & 0x1ffffff) << 5 }

  /** The bits shifted out. */
  function Out(pre: Word): Word { pre >> 25 }

  function Choose(b: Word, mask: Word, g: Word): Word { if b & mask != 0 then g else 0 }

  /** The generators selected by the five bits shifted out. */
  function Feedback(b: Word): Word {
    Xor(Xor(Xor(Xor(Choose(b, 1, 0x3b6a57b2), Choose(b, 2, 0x26508e6d)), Choose(b, 4, 0x1ea119fa)), Choose(b, 8, 0x3d4233dd)),
        Choose(b, 16, 0x2a1462b3))
  }

  function PolymodStep(pre: Word, value: Word): Word { Xor(Xor(Kept(pre), value), Feedback(Out(pre))) }

  lemma AssocOf(a: Word, b: Word, c: Word, ab: Word, bc: Word)
    requires ab == a ^ b && bc == b ^ c
    ensures ab ^ c == a ^ bc
  {
  }

  lemma AssocNamed(a: Word, b: Word, c: Word, ab: Word, bc: Word)
    requires ab == a ^ b && bc == b ^ c
    ensures Xor(ab, c) == Xor(a, bc)
  {
    AssocOf(a, b, c, ab, bc);
  }

  lemma Assoc(a: Word, b: Word, c: Word)
    ensures Xor(Xor(a, b), c) == Xor(a, Xor(b, c))
  {
    AssocNamed(a, b, c, Xor(a, b), Xor(b, c));
  }

  lemma Commute(a: Word, b: Word)
    ensures Xor(a, b) == Xor(b, a)
  {
  }

  lemma Regroup(a: Word, b: Word, c: Word, d: Word)
    ensures Xor(Xor(a, b), Xor(c, d)) == Xor(Xor(a, c), Xor(b, d))
  {
    hide Xor;
    Assoc(Xor(a, b), c, d);
    Assoc(a, b, c);
    Commute(b, c);
    Assoc(a, c, b);
    Assoc(Xor(a, c), b, d);
  }

  lemma ZeroOf(a: Word, b: Word, x: Word)
    requires x == a ^ b
    ensures x == 0 <==> a == b
  {
  }

  lemma XorZero(a: Word, b: Word)
    ensures Xor(a, b) == 0 <==> a == b
  {
    ZeroOf(a, b, Xor(a, b));
  }

  lemma XorNeutral(a: Word)
    ensures Xor(a, 0) == a && Xor(0, a) == a
  {
  }

  lemma XorBelow(a: Word, b: Word)
    requires a < 0x40000000 && b < 0x40000000
    ensures Xor(a, b) < 0x40000000
  {
  }

  lemma Cancel(s: Word, v: Word, w: Word)
    requires Xor(s, v) == Xor(s, w) || Xor(v, s) == Xor(w, s)
    ensures v == w
  {
  }

  lemma BitOf(a: Word, b: Word, ab: Word, mask: Word)
    requires mask == 1 || mask == 2 || mask == 4 || mask == 8 || mask == 16
    requires ab == a ^ b
    ensures (ab & mask != 0) <==> ((a & mask != 0) != (b & mask != 0))
  {
  }

  lemma ChooseLinear(a: Word, b: Word, mask: Word, g: Word)
    requires mask == 1 || mask == 2 || mask == 4 || mask == 8 || mask == 16
    ensures Choose(Xor(a, b), mask, g) == Xor(Choose(a, mask, g), Choose(b, mask, g))
  {
    BitOf(a, b, Xor(a, b), mask);
    XorZero(g, g);
    XorNeutral(g);
    XorNeutral(0);
  }

  lemma FeedbackLinear(a: Word, b: Word)
    ensures Feedback(Xor(a, b)) == Xor(Feedback(a), Feedback(b))
  {
    hide Choose, Xor;
    ChooseLinear(a, b, 1, 0x3b6a57b2);
    ChooseLinear(a, b, 2, 0x26508e6d);
    ChooseLinear(a, b, 4, 0x1ea119fa);
    ChooseLinear(a, b, 8, 0x3d4233dd);
    ChooseLinear(a, b, 16, 0x2a1462b3);
    var a1, a2, a3 := Choose(a, 1, 0x3b6a57b2), Choose(a, 2, 0x26508e6d), Choose(a, 4, 0x1ea119fa);
    var a4, a5 := Choose(a, 8, 0x3d4233dd), Choose(a, 16, 0x2a1462b3);
    var b1, b2, b3 := Choose(b, 1, 0x3b6a57b2), Choose(b, 2, 0x26508e6d), Choose(b, 4, 0x1ea119fa);
    var b4, b5 := Choose(b, 8, 0x3d4233dd), Choose(b, 16, 0x2a1462b3);
    Regroup(a1, b1, a2, b2);
    Regroup(Xor(a1, a2), Xor(b1, b2), a3, b3);
    Regroup(Xor(Xor(a1, a2), a3), Xor(Xor(b1, b2), b3), a4, b4);
    Regroup(Xor(Xor(Xor(a1, a2), a3), a4), Xor(Xor(Xor(b1, b2), b3), b4), a5, b5);
  }

  lemma ShiftLinear(a: Word, b: Word)
    ensures Kept(Xor(a, b)) == Xor(Kept(a), Kept(b)) && Out(Xor(a, b)) == Xor(Out(a), Out(b))
  {
  }

  /** The step is linear over exclusive-or in state and value together. */
  lemma StepLinear(a: Word, b: Word, v: Word, w: Word)
    ensures PolymodStep(Xor(a, b), Xor(v, w)) == Xor(PolymodStep(a, v), PolymodStep(b, w))
  {
    hide Feedback, Xor, Kept, Out;
    ShiftLinear(a, b);
    FeedbackLinear(Out(a), Out(b));
    Regroup(Kept(a), Kept(b), v, w);
    Regroup(Xor(Kept(a), v), Xor(Kept(b), w), Feedback(Out(a)), Feedback(Out(b)));
  }

  /** The low five bits of the five generators are independent. */
  lemma FeedbackKernel(b: Word)
    requires b < 32 && Feedback(b) & 31 == 0
    ensures b == 0
  {
  }

  lemma LowBits(d: Word, f: Word)
    requires d < 0x40000000 && Xor(Kept(d), f) == 0
    ensures f & 31 == 0 && Out(d) < 32
  {
  }

  lemma HighBits(d: Word)
    requires Out(d) == 0 && Kept(d) == 0
    ensures d == 0
  {
  }

  lemma NoFeedback()
    ensures Feedback(0) == 0
  {
  }

  /** Within 30 bits only the zero state is sent to zero. */
  lemma StepKernel(d: Word)
    requires d < 0x40000000 && PolymodStep(d, 0) == 0
    ensures d == 0
  {
    hide Feedback, Xor, Kept, Out;
    XorNeutral(Kept(d));
    LowBits(d, Feedback(Out(d)));
    FeedbackKernel(Out(d));
    NoFeedback();
    HighBits(d);
  }

  lemma StepInjective(a: Word, b: Word, v: Word)
    requires a < 0x40000000 && b < 0x40000000 && PolymodStep(a, v) == PolymodStep(b, v)
    ensures a == b
  {
    hide PolymodStep, Xor;
    StepLinear(a, b, v, v);
    XorZero(PolymodStep(a, v), PolymodStep(b, v));
    XorZero(v, v);
    XorZero(a, b);
    XorBelow(a, b);
    StepKernel(Xor(a, b));
  }

  lemma StepSeparates(a: Word, v: Word, w: Word)
    requires PolymodStep(a, v) == PolymodStep(a, w)
    ensures v == w
  {
    hide Feedback, Xor, Kept, Out;
    Cancel(Feedback(Out(a)), Xor(Kept(a), v), Xor(Kept(a), w));
    Cancel(Kept(a), v, w);
  }

  lemma StepRange(a: Word, v: Word)
    requires a < 0x40000000 && v < 32
    ensures PolymodStep(a, v) < 0x40000000
  {
  }

  /** The register after a sequence of symbols. */
  function Polymod(state: Word, values: seq<Word>): Word
    decreases |values|
  {
    if values == [] then state else Polymod(PolymodStep(state, values[0]), values[1..])
  }

  predicate Symbols(values: seq<Word>) { forall v | v in values :: v < 32 }

  /** Different states stay different under the same symbols. */
  lemma {:induction false} StatesStayApart(a: Word, b: Word, values: seq<Word>)
    requires a < 0x40000000 && b < 0x40000000 && a != b && Symbols(values)
    ensures Polymod(a, values) != Polymod(b, values)
    decreases |values|
  {
    hide PolymodStep;
    if values != [] {
      var v := values[0];
      assert v in values && forall x | x in values[1..] :: x in values;
      StepRange(a, v);
      StepRange(b, v);
      if PolymodStep(a, v) == PolymodStep(b, v) { StepInjective(a, b, v); }
      StatesStayApart(PolymodStep(a, v), PolymodStep(b, v), values[1..]);
    }
  }

  /** Changing exactly one symbol, at any position of a sequence of any length, changes the checksum. */
  lemma {:induction false} OneSymbolChanges(state: Word, values: seq<Word>, i: nat, w: Word)
    requires state < 0x40000000 && Symbols(values) && i < |values| && w < 32 && w != values[i]
    ensures Polymod(state, values[i := w]) != Polymod(state, values)
    decreases i
  {
    hide PolymodStep;
    var v, changed := values[0], values[i := w];
    assert v in values && forall x | x in values[1..] :: x in values;
    StepRange(state, v);
    if i == 0 {
      assert changed[1..] == values[1..];
      StepRange(state, w);
      if PolymodStep(state, v) == PolymodStep(state, w) { StepSeparates(state, v, w); }
      StatesStayApart(PolymodStep(state, w), PolymodStep(state, v), values[1..]);
    } else {
      assert changed[1..] == values[1..][i - 1 := w];
      OneSymbolChanges(PolymodStep(state, v), values[1..], i - 1, w);
    }
  }

  /** The step as the companion writes it: one conditional exclusive-or per generator. */
  method Step(pre: Word, value: Word) returns (chk: Word)
    ensures chk == PolymodStep(pre, value)
  {
    hide Xor, Choose, Selected, Mask, Feedback;
    var b := Out(pre);
    chk := Xor(Kept(pre), value);
    var generators := [0x3b6a57b2, 0x26508e6d, 0x1ea119fa, 0x3d4233dd, 0x2a1462b3];
    ghost var start := chk;
    XorNeutral(start);
    NoneSelected(b);
    for i := 0 to 5
      invariant chk == Xor(start, Selected(b, i))
    {
      Selects(b, i);
      SelectedNext(b, i);
      assert generators[i] == Generator(i);
      Assoc(start, Selected(b, i), Choose(b, Mask(i), generators[i]));
      XorNeutral(chk);
      if (b >> i) & 1 != 0 { chk := Xor(chk, generators[i]); }
    }
    SelectedAll(b);
  }

  lemma NoneSelected(b: Word)
    ensures Selected(b, 0) == 0
  {
  }

  function Mask(i: nat): Word
    requires i < 5
  {
    if i == 0 then 1 else if i == 1 then 2 else if i == 2 then 4 else if i == 3 then 8 else 16
  }

  function Generator(i: nat): Word
    requires i < 5
  {
    if i == 0 then 0x3b6a57b2 else if i == 1 then 0x26508e6d else if i == 2 then 0x1ea119fa else if i == 3 then 0x3d4233dd else 0x2a1462b3
  }

  /** The feedback of the first n generators. */
  function Selected(b: Word, n: nat): Word
    requires n <= 5
  {
    if n == 0 then 0 else if n == 1 then Choose(b, 1, 0x3b6a57b2) else Xor(Selected(b, n - 1), Choose(b, Mask(n - 1), Generator(n - 1)))
  }

  lemma BitAt(b: Word, i: nat)
    requires i < 5
    ensures ((b >> i) & 1 != 0) <==> (b & Mask(i) != 0)
  {
  }

  lemma Selects(b: Word, i: nat)
    requires i < 5
    ensures Choose(b, Mask(i), Generator(i)) == if (b >> i) & 1 != 0 then Generator(i) else 0
  {
    hide Mask, Generator;
    BitAt(b, i);
  }

  lemma SelectedNext(b: Word, i: nat)
    requires i < 5
    ensures Selected(b, i + 1) == Xor(Selected(b, i), Choose(b, Mask(i), Generator(i)))
  {
    hide Xor, Choose;
    XorNeutral(Choose(b, 1, 0x3b6a57b2));
  }

  lemma SelectedAll(b: Word)
    ensures Selected(b, 5) == Feedback(b)
  {
    hide Xor, Choose;
    assert Selected(b, 1) == Choose(b, 1, 0x3b6a57b2);
    assert Selected(b, 2) == Xor(Selected(b, 1), Choose(b, 2, 0x26508e6d));
    assert Selected(b, 3) == Xor(Selected(b, 2), Choose(b, 4, 0x1ea119fa));
    assert Selected(b, 4) == Xor(Selected(b, 3), Choose(b, 8, 0x3d4233dd));
    assert Selected(b, 5) == Xor(Selected(b, 4), Choose(b, 16, 0x2a1462b3));
  }

  // ----- a checksum can always be appended

  lemma {:induction false} PolymodSplit(state: Word, a: seq<Word>, b: seq<Word>)
    ensures Polymod(state, a + b) == Polymod(Polymod(state, a), b)
    decreases |a|
  {
    hide PolymodStep;
    if a == [] {
      assert a + b == b;
    } else {
      assert (a + b)[1..] == a[1..] + b;
      PolymodSplit(PolymodStep(state, a[0]), a[1..], b);
    }
  }

  function Zeros(n: nat): (z: seq<Word>)
    ensures |z| == n && forall i | 0 <= i < n :: z[i] == 0
  {
    seq(n, _ => 0)
  }

  /** What symbols add to a register is what they add to an empty one. */
  lemma {:induction false} SymbolsAdd(a: Word, b: Word, values: seq<Word>)
    ensures Polymod(Xor(a, b), values) == Xor(Polymod(a, Zeros(|values|)), Polymod(b, values))
    decreases |values|
  {
    hide PolymodStep, Xor;
    if values != [] {
      var v := values[0];
      StepLinear(a, b, 0, v);
      XorNone(v);
      assert Zeros(|values|)[1..] == Zeros(|values| - 1);
      SymbolsAdd(PolymodStep(a, 0), PolymodStep(b, v), values[1..]);
    }
  }

  lemma XorNone(a: Word)
    ensures Xor(0, a) == a && Xor(a, 0) == a
  {
  }

  /** The top k of the six symbols of a 30-bit word. */
  function Top(c: Word, k: nat): (t: Word)
    requires k <= 6
    ensures t <= c
    decreases 6 - k
  {
    if k == 6 then c else DropLast(Top(c, k + 1)); Top(c, k + 1) >> 5
  }

  lemma DropLast(c: Word)
    ensures c >> 5 <= c
  {
  }

  function Digits(c: Word): (d: seq<Word>)
    ensures |d| == 6 && forall k | 0 <= k < 6 :: d[k] == Top(c, k + 1) & 31
  {
    seq(6, k requires 0 <= k < 6 => Top(c, k + 1) & 31)
  }

  lemma LowFive(a: Word)
    ensures a & 31 < 32
  {
  }

  lemma DigitsAreSymbols(c: Word)
    ensures Symbols(Digits(c))
  {
    hide Top;
    forall v | v in Digits(c) ensures v < 32 {
      var k :| 0 <= k < 6 && Digits(c)[k] == v;
      LowFive(Top(c, k + 1));
    }
  }

  lemma SmallStep(a: Word, v: Word)
    requires a < 0x2000000 && v < 32
    ensures PolymodStep(a, v) == (a << 5) | v
  {
  }

  lemma TopNext(c: Word, next: Word)
    requires next <= c < 0x40000000
    ensures next >> 5 < 0x2000000 && next == ((next >> 5) << 5) | (next & 31)
  {
  }

  lemma TopNone(c: Word)
    requires c < 0x40000000
    ensures Top(c, 0) == 0
  {
    assert Top(c, 5) == c >> 5 && Top(c, 4) == Top(c, 5) >> 5 && Top(c, 3) == Top(c, 4) >> 5;
    assert Top(c, 2) == Top(c, 3) >> 5 && Top(c, 1) == Top(c, 2) >> 5 && Top(c, 0) == Top(c, 1) >> 5;
    SixDropped(c);
  }

  lemma SixDropped(c: Word)
    requires c < 0x40000000
    ensures ((((((c >> 5) >> 5) >> 5) >> 5) >> 5) >> 5) == 0
  {
  }

  lemma {:induction false} DigitsBuildFrom(c: Word, k: nat)
    requires c < 0x40000000 && k <= 6
    ensures Polymod(Top(c, k), Digits(c)[k..]) == c
    decreases 6 - k
  {
    hide PolymodStep, Digits;
    if k < 6 {
      TopNext(c, Top(c, k + 1));
      LowFive(Top(c, k + 1));
      SmallStep(Top(c, k), Digits(c)[k]);
      assert Digits(c)[k..][0] == Digits(c)[k] && Digits(c)[k..][1..] == Digits(c)[k + 1..];
      DigitsBuildFrom(c, k + 1);
    }
  }

  lemma DigitsBuild(c: Word)
    requires c < 0x40000000
    ensures Polymod(0, Digits(c)) == c
  {
    hide PolymodStep, Digits, Top;
    TopNone(c);
    DigitsBuildFrom(c, 0);
    assert Digits(c)[0..] == Digits(c);
  }

  lemma XorWithin(a: Word, b: Word)
    requires a < 0x40000000 && b < 0x40000000
    ensures Xor(a, b) < 0x40000000 && Xor(a, Xor(a, b)) == b
  {
  }

  /** For any data and any 30-bit constant there are six symbols that bring the register to it. */
  lemma ChecksumExists(state: Word, data: seq<Word>, target: Word) returns (check: seq<Word>)
    requires Polymod(state, data) < 0x40000000 && target < 0x40000000
    requires Polymod(Polymod(state, data), Zeros(6)) < 0x40000000
    ensures |check| == 6 && Symbols(check) && Polymod(state, data + check) == target
  {
    hide Polymod, Xor, Digits;
    var s := Polymod(state, data);
    var z := Polymod(s, Zeros(6));
    XorWithin(z, target);
    check := Digits(Xor(z, target));
    DigitsAreSymbols(Xor(z, target));
    DigitsBuild(Xor(z, target));
    SymbolsAdd(s, 0, check);
    XorNone(s);
    PolymodSplit(state, data, check);
  }

  lemma PolymodThree(s: Word, a: Word, b: Word, c: Word)
    ensures Polymod(s, [a, b, c]) == PolymodStep(PolymodStep(PolymodStep(s, a), b), c)
  {
    hide PolymodStep;
    var v := [a, b, c];
    var s1 := PolymodStep(s, a);
    assert v[1..] == [b, c] && [b, c][1..] == [c] && [c][1..] == [];
    assert Polymod(s1, [b, c]) == Polymod(PolymodStep(s1, b), [c]);
  }

  lemma PolymodFour(s: Word, a: Word, b: Word, c: Word, d: Word)
    ensures Polymod(s, [a, b, c, d]) == PolymodStep(PolymodStep(PolymodStep(PolymodStep(s, a), b), c), d)
  {
    hide PolymodStep;
    assert [a, b, c, d][1..] == [b, c, d];
    PolymodThree(PolymodStep(s, a), b, c, d);
  }
}
