/** Bitwise conjunction and exclusive-or on natural numbers, by recursion over the binary digits. */
module Bits {
  import opened Bytes

  function And(a: nat, b: nat): (r: nat)
    ensures r <= a && r <= b
  {
    if a == 0 || b == 0 then 0 else (a % 2) * (b % 2) + 2 * And(a / 2, b / 2)
  }

  function Xor(a: nat, b: nat): (r: nat)
    decreases a + b
  {
    if a == 0 && b == 0 then 0 else (a + b) % 2 + 2 * Xor(a / 2, b / 2)
  }

  function Pow2(n: nat): (p: nat)
    ensures p >= 1
  {
    if n == 0 then 1 else 2 * Pow2(n - 1)
  }

  lemma {:induction false} XorBound(a: nat, b: nat, n: nat)
    requires a < Pow2(n) && b < Pow2(n)
    ensures Xor(a, b) < Pow2(n)
  {
    if n > 0 { XorBound(a / 2, b / 2, n - 1); }
  }

  lemma {:induction false} AndOnes(b: nat, n: nat)
    requires b < Pow2(n)
    ensures And(Pow2(n) - 1, b) == b
  {
    if n > 0 && b > 0 {
      assert (Pow2(n) - 1) / 2 == Pow2(n - 1) - 1 && (Pow2(n) - 1) % 2 == 1;
      AndOnes(b / 2, n - 1);
    }
  }

  lemma {:induction false} AndSelf(a: nat)
    ensures And(a, a) == a
  {
    if a > 0 { AndSelf(a / 2); }
  }

  /** An erased cell takes any octet unchanged. */
  lemma AndErased(b: byte)
    ensures And(0xff, b) == b
  {
    assert Pow2(8) == 0x100 by {
      assert Pow2(3) == 8;
      assert Pow2(5) == 4 * Pow2(3);
      assert Pow2(7) == 4 * Pow2(5);
    }
    AndOnes(b, 8);
  }

  lemma {:induction false} XorCommutes(a: nat, b: nat)
    ensures Xor(a, b) == Xor(b, a)
    decreases a + b
  {
    if a != 0 || b != 0 { XorCommutes(a / 2, b / 2); }
  }

  lemma {:induction false} XorZero(a: nat)
    ensures Xor(a, 0) == a
  {
    if a != 0 { XorZero(a / 2); }
  }

  lemma {:induction false} XorAssociates(a: nat, b: nat, c: nat)
    ensures Xor(Xor(a, b), c) == Xor(a, Xor(b, c))
    decreases a + b + c
  {
    hide Xor;
    if a == 0 && b == 0 {
      XorZero(0);
      XorCommutes(0, c);
      XorCommutes(0, Xor(0, c));
      XorZero(c);
      XorZero(Xor(0, c));
    } else {
      XorHalves(a, b);
      XorHalves(b, c);
      XorHalves(Xor(a, b), c);
      XorHalves(a, Xor(b, c));
      XorAssociates(a / 2, b / 2, c / 2);
      SameDigits(Xor(Xor(a, b), c), Xor(a, Xor(b, c)));
    }
  }

  /** Digit by digit, from the lowest. */
  lemma XorHalves(a: nat, b: nat)
    ensures Xor(a, b) % 2 == (a + b) % 2 && Xor(a, b) / 2 == Xor(a / 2, b / 2)
  {
    if a != 0 || b != 0 {
      var rest := Xor(a / 2, b / 2);
      assert Xor(a, b) == (a + b) % 2 + 2 * rest;
      LowDigit((a + b) % 2, rest);
    }
  }

  lemma DoubleOf(p: nat, b: nat)
    ensures 2 * p * b == 2 * (p * b)
  {
  }

  lemma LowDigit(digit: nat, rest: nat)
    requires digit < 2
    ensures (digit + 2 * rest) % 2 == digit && (digit + 2 * rest) / 2 == rest
  {
  }

  lemma SameDigits(a: nat, b: nat)
    requires a % 2 == b % 2 && a / 2 == b / 2
    ensures a == b
  {
  }

  lemma {:induction false} XorSelf(a: nat)
    ensures Xor(a, a) == 0
  {
    if a != 0 { XorSelf(a / 2); }
  }

  /** What was mixed in can be taken out again. */
  lemma XorCancels(a: nat, b: nat)
    ensures Xor(Xor(a, b), b) == a
  {
    XorAssociates(a, b, b);
    XorSelf(b);
    XorZero(a);
  }

  /** Words that share no digit are mixed by adding them. */
  lemma {:induction false} XorDisjoint(a: nat, b: nat, n: nat)
    requires a < Pow2(n)
    ensures Xor(a, Pow2(n) * b) == a + Pow2(n) * b
  {
    hide Xor;
    if n == 0 {
      XorCommutes(0, b);
      XorZero(b);
    } else {
      var rest := Pow2(n - 1) * b;
      assert Pow2(n) * b == 2 * rest by { DoubleOf(Pow2(n - 1), b); }
      XorDisjoint(a / 2, b, n - 1);
      XorHalves(a, 2 * rest);
      SameDigits(Xor(a, 2 * rest), a + 2 * rest);
    }
  }
}
