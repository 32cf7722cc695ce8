/**
 * Bytes and the bitwise exclusive or that NMEA checksums are made of.
 * Exclusive or is defined on natural numbers bit by bit, least significant
 * bit first; the lemmas give it the algebra of a group in which every
 * element is its own inverse.
 */
module Bits {

  type Byte = x: int | 0 <= x < 256

  /** QChar::toAscii read as an unsigned byte: code units above 255 become 0. */
  function ToAscii(c: char): Byte
  {
    if c as int < 256 then c as int else 0
  }

  /** `a ^ b` on non-negative numbers. */
  function Xor(a: nat, b: nat): nat
    decreases a + b
  {
    if a == 0 then b
    else if b == 0 then a
    else 2 * Xor(a / 2, b / 2) + (if a % 2 == b % 2 then 0 else 1)
  }

  function Pow2(n: nat): (r: nat)
    ensures r >= 1
  {
    if n == 0 then 1 else 2 * Pow2(n - 1)
  }

  lemma {:induction false} Pow2Add(m: nat, n: nat)
    ensures Pow2(m + n) == Pow2(m) * Pow2(n)
    decreases m
  {
    if m > 0 {
      Pow2Add(m - 1, n);
    }
  }

  lemma Pow2Values()
    ensures Pow2(8) == 0x100 && Pow2(16) == 0x1_0000 && Pow2(32) == 0x1_0000_0000
  {
    assert Pow2(8) == 0x100;
    Pow2Add(8, 8);
    Pow2Add(16, 16);
  }

  /** Every bit of `a ^ b` is the exclusive or of the bits of `a` and `b`. */
  lemma XorHalves(a: nat, b: nat)
    ensures Xor(a, b) / 2 == Xor(a / 2, b / 2)
    ensures Xor(a, b) % 2 == (if a % 2 == b % 2 then 0 else 1)
  {
  }

  /** Two numbers with the same lowest bit and the same higher bits are equal. */
  lemma SameBits(x: nat, y: nat)
    requires x / 2 == y / 2 && x % 2 == y % 2
    ensures x == y
  {
  }

  /** The exclusive or of two numbers below 2^n is below 2^n. */
  lemma {:induction false} XorBelow(a: nat, b: nat, n: nat)
    requires a < Pow2(n) && b < Pow2(n)
    ensures Xor(a, b) < Pow2(n)
    decreases n
  {
    if a != 0 && b != 0 {
      XorBelow(a / 2, b / 2, n - 1);
    }
  }

  /** The exclusive or of two bytes is a byte. */
  lemma XorByte(a: Byte, b: Byte)
    ensures Xor(a, b) < 256
  {
    assert Pow2(8) == 256;
    XorBelow(a, b, 8);
  }

  lemma {:induction false} XorComm(a: nat, b: nat)
    ensures Xor(a, b) == Xor(b, a)
    decreases a + b
  {
    if a != 0 && b != 0 {
      XorComm(a / 2, b / 2);
    }
  }

  lemma XorZero(a: nat)
    ensures Xor(a, 0) == a && Xor(0, a) == a
  {
  }

  lemma {:induction false} XorSelf(a: nat)
    ensures Xor(a, a) == 0
    decreases a
  {
    if a != 0 {
      XorSelf(a / 2);
    }
  }

  lemma {:induction false} XorAssoc(a: nat, b: nat, c: nat)
    ensures Xor(Xor(a, b), c) == Xor(a, Xor(b, c))
    decreases a + b + c
  {
    if a == 0 || b == 0 || c == 0 {
      XorZero(a);
      XorZero(b);
      XorZero(Xor(a, b));
      XorZero(Xor(b, c));
    } else {
      XorAssoc(a / 2, b / 2, c / 2);
      XorHalves(a, b);
      XorHalves(b, c);
      XorHalves(Xor(a, b), c);
      XorHalves(a, Xor(b, c));
      SameBits(Xor(Xor(a, b), c), Xor(a, Xor(b, c)));
    }
  }

  /** Exclusive or with `b` undoes itself. */
  lemma XorCancel(a: nat, b: nat)
    ensures Xor(Xor(a, b), b) == a
    ensures Xor(b, Xor(b, a)) == a
  {
    XorAssoc(a, b, b);
    XorSelf(b);
    XorZero(a);
    XorAssoc(b, b, a);
  }

  /** `a ^ b` is zero exactly when `a` and `b` are equal. */
  lemma XorZeroIffEqual(a: nat, b: nat)
    ensures Xor(a, b) == 0 <==> a == b
  {
    XorSelf(a);
    if Xor(a, b) == 0 {
      XorCancel(b, a);
      XorComm(a, b);
      XorZero(a);
      assert Xor(a, b) == 0;
      assert Xor(Xor(b, a), a) == b;
    }
  }

  /** Dividing by 2 q: halving, then dividing by q; the remainder splits the same way. */
  lemma DivTwice(x: nat, q: nat)
    requires q >= 1
    ensures x / (2 * q) == (x / 2) / q
    ensures (x % (2 * q)) / 2 == (x / 2) % q
    ensures (x % (2 * q)) % 2 == x % 2
  {
    var h, b := x / 2, x % 2;
    var k, r := h / q, h % q;
    assert x == (2 * q) * k + (2 * r + b) by {
      assert h == q * k + r;
      assert x == 2 * h + b;
    }
    DivUnique(x, 2 * q, k, 2 * r + b);
    DivUnique(2 * r + b, 2, r, b);
  }

  /** Quotient and remainder are determined by the equation x = d q + r with 0 <= r < d. */
  lemma DivUnique(x: nat, d: nat, q: nat, r: nat)
    requires d > 0 && x == d * q + r && r < d
    ensures x / d == q && x % d == r
  {
    var k := x / d - q;
    assert d * k == r - x % d by {
      assert d * (x / d) + x % d == d * q + r;
    }
    MulAwayFromZero(d, k);
  }

  /** A non-zero multiple of d is at least d away from zero. */
  lemma MulAwayFromZero(d: int, k: int)
    requires d > 0
    ensures k >= 1 ==> d * k >= d
    ensures k <= -1 ==> d * k <= -d
  {
  }

  /** The low n bits of `a ^ b` are the exclusive or of the low n bits of `a` and `b`. */
  lemma {:induction false} XorLow(a: nat, b: nat, n: nat)
    ensures Xor(a, b) % Pow2(n) == Xor(a % Pow2(n), b % Pow2(n))
    decreases n
  {
    if n == 0 {
      XorZero(0);
    } else {
      var q := Pow2(n - 1);
      var x, a', b' := Xor(a, b), a % Pow2(n), b % Pow2(n);
      XorLow(a / 2, b / 2, n - 1);
      DivTwice(x, q);
      DivTwice(a, q);
      DivTwice(b, q);
      XorHalves(a, b);
      XorHalves(a', b');
      SameBits(x % Pow2(n), Xor(a', b'));
    }
  }
}
