/** Bitwise or on unsigned integers, bit by bit. */
module Bits {

  /** Bit k of n, counted from the least significant one. */
  predicate Bit(n: nat, k: nat) {
    if k == 0 then n % 2 == 1 else Bit(n / 2, k - 1)
  }

  function Or(a: nat, b: nat): nat {
    if a == 0 then b
    else if b == 0 then a
    else 2 * Or(a / 2, b / 2) + (if a % 2 == 1 || b % 2 == 1 then 1 else 0)
  }

  function OneBit(k: nat): (n: nat)
    ensures n > 0
  {
    if k == 0 then 1 else 2 * OneBit(k - 1)
  }

  lemma {:induction false} ZeroHasNoBits(k: nat)
    ensures !Bit(0, k)
  {
    if k > 0 {
      ZeroHasNoBits(k - 1);
    }
  }

  lemma {:induction false} OrHasBits(a: nat, b: nat, k: nat)
    ensures Bit(Or(a, b), k) <==> Bit(a, k) || Bit(b, k)
  {
    ZeroHasNoBits(k);
    if a != 0 && b != 0 && k > 0 {
      OrHasBits(a / 2, b / 2, k - 1);
    }
  }

  lemma {:induction false} OneBitHasOne(j: nat, k: nat)
    ensures Bit(OneBit(j), k) <==> j == k
  {
    if j == 0 {
      if k > 0 {
        ZeroHasNoBits(k - 1);
      }
    } else if k > 0 {
      OneBitHasOne(j - 1, k - 1);
    }
  }

  /** A number is determined by its bits. */
  lemma {:induction false} SameBits(a: nat, b: nat)
    requires forall k: nat :: Bit(a, k) <==> Bit(b, k)
    ensures a == b
    decreases a + b
  {
    assert Bit(a, 0) <==> Bit(b, 0);
    forall k: nat ensures Bit(a / 2, k) <==> Bit(b / 2, k) {
      assert Bit(a, k + 1) <==> Bit(b, k + 1);
    }
    if a + b > 0 {
      SameBits(a / 2, b / 2);
    }
  }

  lemma OrAssociates(a: nat, b: nat, c: nat)
    ensures Or(Or(a, b), c) == Or(a, Or(b, c))
  {
    forall k: nat ensures Bit(Or(Or(a, b), c), k) <==> Bit(Or(a, Or(b, c)), k) {
      OrHasBits(Or(a, b), c, k);
      OrHasBits(a, b, k);
      OrHasBits(a, Or(b, c), k);
      OrHasBits(b, c, k);
    }
    SameBits(Or(Or(a, b), c), Or(a, Or(b, c)));
  }

  lemma OrCommutes(a: nat, b: nat)
    ensures Or(a, b) == Or(b, a)
  {
    forall k: nat ensures Bit(Or(a, b), k) <==> Bit(Or(b, a), k) {
      OrHasBits(a, b, k);
      OrHasBits(b, a, k);
    }
    SameBits(Or(a, b), Or(b, a));
  }

  lemma OrIdempotent(a: nat)
    ensures Or(a, a) == a
  {
    forall k: nat ensures Bit(Or(a, a), k) <==> Bit(a, k) {
      OrHasBits(a, a, k);
    }
    SameBits(Or(a, a), a);
  }

  lemma OrZero(a: nat)
    ensures Or(a, 0) == a && Or(0, a) == a
  {
  }

  /** Setting a bit that is already set changes nothing, and setting one that is
      not set adds its value. */
  lemma {:induction false} OrOneBit(j: nat, n: nat)
    ensures Or(OneBit(j), n) == if Bit(n, j) then n else OneBit(j) + n
  {
    if n != 0 && j > 0 {
      OrOneBit(j - 1, n / 2);
    } else {
      ZeroHasNoBits(j);
      OrZero(n / 2);
    }
  }
}
