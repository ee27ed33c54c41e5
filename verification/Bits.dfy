/**
 * Python's `&`, `|` and `^` on non-negative integers, bit by bit, and what the
 * masks of a frame header pick out.
 */
module Bits {
  import opened Powers

  function And(a: nat, b: nat): nat {
    if a == 0 || b == 0 then 0 else 2 * And(a / 2, b / 2) + (if a % 2 == 1 && b % 2 == 1 then 1 else 0)
  }

  function Or(a: nat, b: nat): nat {
    if a == 0 && b == 0 then 0 else 2 * Or(a / 2, b / 2) + (if a % 2 == 1 || b % 2 == 1 then 1 else 0)
  }

  function Xor(a: nat, b: nat): nat {
    if a == 0 && b == 0 then 0 else 2 * Xor(a / 2, b / 2) + (if a % 2 != b % 2 then 1 else 0)
  }

  lemma {:induction false} XorUndoesItself(a: nat, b: nat)
    ensures Xor(Xor(a, b), b) == a
  {
    if a != 0 || b != 0 {
      XorUndoesItself(a / 2, b / 2);
      var x := Xor(a, b);
      assert x / 2 == Xor(a / 2, b / 2);
      assert x == 0 && b == 0 ==> a == 0;
    }
  }

  predicate Bit(a: nat, k: nat) { a / Pow2(k) % 2 == 1 }

  lemma NextBit(a: nat, k: nat)
    ensures Bit(a, k + 1) <==> Bit(a / 2, k)
    ensures Bit(a, 0) <==> a % 2 == 1
  {
    HalfQuotient(a, Pow2(k));
  }

  lemma HalfQuotient(a: nat, m: nat)
    requires m > 0
    ensures a / (2 * m) == a / 2 / m
  {
    var q, r := a / 2 / m, a / 2 % m;
    assert a / 2 == q * m + r;
    assert a == q * (2 * m) + (2 * r + a % 2);
    RemainderIs(a, 2 * m, q, 2 * r + a % 2);
  }

  /** A bit of the exclusive or is set where exactly one of the two has it. */
  lemma {:induction false} XorBitwise(a: nat, b: nat, k: nat)
    ensures Bit(Xor(a, b), k) <==> Bit(a, k) != Bit(b, k)
    decreases k
  {
    var x := Xor(a, b);
    assert x / 2 == Xor(a / 2, b / 2) && (x % 2 == 1 <==> a % 2 != b % 2);
    if k == 0 {
      NextBit(a, 0);
      NextBit(b, 0);
      NextBit(x, 0);
    } else {
      XorBitwise(a / 2, b / 2, k - 1);
      NextBit(a, k - 1);
      NextBit(b, k - 1);
      NextBit(x, k - 1);
    }
  }

  lemma {:induction false} XorStaysWithin(a: nat, b: nat, k: nat)
    requires a < Pow2(k) && b < Pow2(k)
    ensures Xor(a, b) < Pow2(k)
  {
    if k > 0 && (a != 0 || b != 0) {
      XorStaysWithin(a / 2, b / 2, k - 1);
    }
  }

  lemma {:induction false} HalfRemainder(a: nat, m: nat)
    requires m > 0
    ensures a % (2 * m) == 2 * (a / 2 % m) + a % 2
  {
    var q, r := a / 2 / m, a / 2 % m;
    assert a / 2 == q * m + r;
    assert a == q * (2 * m) + (2 * r + a % 2);
    RemainderIs(a, 2 * m, q, 2 * r + a % 2);
  }

  lemma RemainderIs(a: nat, m: nat, q: nat, r: nat)
    requires m > 0 && r < m && a == q * m + r
    ensures a % m == r && a / m == q
  {
    assert (a / m - q) * m == r - a % m;
    MultipleGrows(a / m - q, m);
  }

  lemma MultipleGrows(d: int, m: nat)
    ensures d >= 1 ==> d * m >= m
    ensures d <= -1 ==> d * m + m <= 0
  {
    if d >= 1 {
      assert d * m == (d - 1) * m + m;
    } else if d <= -1 {
      assert d * m == (d + 1) * m - m;
    }
  }

  /** Masking with k ones keeps the low k bits. */
  lemma {:induction false} LowBits(a: nat, k: nat)
    ensures And(a, Pow2(k) - 1) == a % Pow2(k)
  {
    if k > 0 {
      LowBits(a / 2, k - 1);
      HalfRemainder(a, Pow2(k - 1));
      assert (Pow2(k) - 1) / 2 == Pow2(k - 1) - 1;
    }
  }

  /** Masking with one bit tells whether it is set. */
  lemma {:induction false} OneBit(a: nat, k: nat)
    requires a < Pow2(k + 1)
    ensures And(a, Pow2(k)) != 0 <==> a >= Pow2(k)
  {
    if k > 0 {
      OneBit(a / 2, k - 1);
    }
  }

  /** Setting a bit above the others adds it. */
  lemma {:induction false} SetBit(k: nat, a: nat)
    requires a < Pow2(k)
    ensures Or(Pow2(k), a) == Pow2(k) + a
  {
    if k == 0 {
      assert Or(0, 0) == 0;
    } else {
      SetBit(k - 1, a / 2);
    }
  }

  lemma {:induction false} OrNothing(a: nat)
    ensures Or(0, a) == a
  {
    if a != 0 {
      OrNothing(a / 2);
    }
  }

  lemma ByteBits()
    ensures Pow2(4) == 16 && Pow2(7) == 128 && Pow2(8) == 256
  {
    assert Pow2(3) == 8;
    assert Pow2(5) == 32;
  }

  // The masks a frame header is taken apart with, on bytes.

  lemma LowNibble(a: nat)
    ensures And(a, 0x0F) == a % 16
  {
    ByteBits();
    LowBits(a, 4);
  }

  lemma LowSeven(a: nat)
    ensures And(a, 0x7F) == a % 128
  {
    ByteBits();
    LowBits(a, 7);
  }

  lemma TopBit(a: nat)
    requires a < 256
    ensures And(a, 0x80) != 0 <==> a >= 128
  {
    ByteBits();
    OneBit(a, 7);
  }

  lemma WithTopBit(a: nat)
    requires a < 128
    ensures Or(0x80, a) == 128 + a
  {
    ByteBits();
    SetBit(7, a);
  }
}
