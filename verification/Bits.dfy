/** The bit operators of the varint code on natural numbers, and when they are arithmetic. */
module Bits {
  function Pow2(k: nat): nat {
    if k == 0 then 1 else 2 * Pow2(k - 1)
  }

  function BitOr(x: nat, y: nat): nat
    decreases x + y
  {
    if x == 0 && y == 0 then 0
    else 2 * BitOr(x / 2, y / 2) + (if x % 2 == 1 || y % 2 == 1 then 1 else 0)
  }

  function BitAnd(x: nat, y: nat): nat
    decreases x + y
  {
    if x == 0 && y == 0 then 0
    else 2 * BitAnd(x / 2, y / 2) + (if x % 2 == 1 && y % 2 == 1 then 1 else 0)
  }

  /** Go's << on a uint64: what leaves the 64 bits is lost. */
  function ShiftLeft(x: nat, n: nat): nat {
    (x * Pow2(n)) % 0x1_0000_0000_0000_0000
  }

  lemma {:induction false} OrZero(x: nat)
    ensures BitOr(x, 0) == x && BitOr(0, x) == x
  {
    if x != 0 { OrZero(x / 2); }
  }

  /** The bits of x lie below those of y * 2^k: or is addition. */
  lemma {:induction false} OrAbove(x: nat, y: nat, k: nat)
    requires x < Pow2(k)
    ensures BitOr(x, y * Pow2(k)) == x + y * Pow2(k)
    decreases k
  {
    if k == 0 {
      assert y * Pow2(0) == y;
      OrZero(y);
    } else {
      Doubled(y, Pow2(k - 1));
      OrAbove(x / 2, y, k - 1);
      var z := y * Pow2(k);
      assert z / 2 == y * Pow2(k - 1) && z % 2 == 0;
    }
  }

  lemma Doubled(y: nat, q: nat)
    ensures y * (2 * q) == 2 * (y * q)
  {
  }

  lemma AndStep(x: nat, m: nat)
    ensures BitAnd(x, 2 * m + 1) == 2 * BitAnd(x / 2, m) + x % 2
  {
  }

  lemma {:induction false} AndZero(x: nat)
    ensures BitAnd(x, 0) == 0
  {
    if x != 0 { AndZero(x / 2); }
  }

  lemma AndTwoSteps(x: nat, m: nat)
    ensures BitAnd(x, 4 * m + 3) == 4 * BitAnd(x / 4, m) + x % 4
  {
    hide BitAnd;
    AndStep(x, 2 * m + 1);
    AndStep(x / 2, m);
    assert x / 2 / 2 == x / 4;
  }

  /** x & 0x7F. */
  lemma LowSeven(x: nat)
    ensures BitAnd(x, 0x7F) == x % 128
  {
    hide BitAnd;
    var y, z := x / 4, x / 16;
    AndTwoSteps(x, 31);
    AndTwoSteps(y, 7);
    AndTwoSteps(z, 1);
    AndStep(z / 4, 0);
    AndZero(z / 4 / 2);
    assert BitAnd(z, 7) == z % 8;
    assert BitAnd(y, 31) == y % 32;
  }

  lemma Pow2Seven()
    ensures Pow2(7) == 128
  {
    assert Pow2(3) == 8;
    assert Pow2(5) == 32;
  }

  /** x | 0x80 for a seven-bit x. */
  lemma OrHighBit(x: nat)
    requires x < 128
    ensures BitOr(x, 0x80) == x + 128
  {
    Pow2Seven();
    OrAbove(x, 1, 7);
  }

  /** x | 1. */
  lemma OrLowBit(x: nat)
    ensures BitOr(x, 1) == if x % 2 == 0 then x + 1 else x
  {
    OrZero(x / 2);
  }
}
