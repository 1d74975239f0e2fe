/** The bitwise operations of C on unsigned numbers. */
module Bits {
  import opened Basics

  function Xor(a: nat, b: nat): nat
  {
    if a == 0 && b == 0 then 0 else (if a % 2 != b % 2 then 1 else 0) + 2 * Xor(a / 2, b / 2)
  }

  function And(a: nat, b: nat): nat
  {
    if a == 0 || b == 0 then 0 else (if a % 2 == 1 && b % 2 == 1 then 1 else 0) + 2 * And(a / 2, b / 2)
  }

  lemma {:induction false} XorCommutes(a: nat, b: nat)
    ensures Xor(a, b) == Xor(b, a)
  {
    if a != 0 || b != 0 {
      XorCommutes(a / 2, b / 2);
    }
  }

  lemma {:induction false} XorAssociates(a: nat, b: nat, c: nat)
    ensures Xor(Xor(a, b), c) == Xor(a, Xor(b, c))
  {
    XorParts(a, b);
    XorParts(b, c);
    XorParts(Xor(a, b), c);
    XorParts(a, Xor(b, c));
    if a != 0 || b != 0 || c != 0 {
      XorAssociates(a / 2, b / 2, c / 2);
      XorHalves(Xor(Xor(a, b), c), Xor(a, Xor(b, c)));
    }
  }

  lemma XorParts(a: nat, b: nat)
    ensures Xor(a, b) % 2 == if a % 2 != b % 2 then 1 else 0
    ensures Xor(a, b) / 2 == Xor(a / 2, b / 2)
  {
  }

  lemma XorHalves(x: nat, y: nat)
    requires x % 2 == y % 2 && x / 2 == y / 2
    ensures x == y
  {
  }

  lemma {:induction false} XorZero(a: nat, b: nat)
    ensures Xor(a, b) == 0 <==> a == b
  {
    if a != 0 || b != 0 {
      XorZero(a / 2, b / 2);
    }
  }

  lemma {:induction false} AndBound(a: nat, b: nat)
    ensures And(a, b) <= b
  {
    if a != 0 && b != 0 {
      AndBound(a / 2, b / 2);
    }
  }

  lemma {:induction false} AndPower(a: nat, b: nat)
    requires a == b + 1 && (a == 1 || (a % 2 == 0 && And(a / 2, a / 2 - 1) == 0))
    ensures And(a, b) == 0
  {
    assert a > 1 ==> b / 2 == a / 2 - 1;
  }

  function Or(a: nat, b: nat): nat
  {
    if a == 0 && b == 0 then 0 else (if a % 2 == 1 || b % 2 == 1 then 1 else 0) + 2 * Or(a / 2, b / 2)
  }

  /** x >> k */
  function Shr(x: nat, k: nat): nat
  {
    if k == 0 then x else Shr(x / 2, k - 1)
  }

  predicate Bit(x: nat, i: nat)
  {
    if i == 0 then x % 2 == 1 else Bit(x / 2, i - 1)
  }

  lemma OrParts(a: nat, b: nat)
    ensures Or(a, b) % 2 == 1 <==> a % 2 == 1 || b % 2 == 1
    ensures Or(a, b) / 2 == Or(a / 2, b / 2)
  {
  }

  lemma {:induction false} OrBit(a: nat, b: nat, i: nat)
    ensures Bit(Or(a, b), i) <==> Bit(a, i) || Bit(b, i)
  {
    hide Or;
    OrParts(a, b);
    if i > 0 {
      OrBit(a / 2, b / 2, i - 1);
    }
  }

  lemma {:induction false} ShrBit(x: nat, k: nat, i: nat)
    ensures Bit(Shr(x, k), i) <==> Bit(x, i + k)
  {
    if k > 0 {
      ShrBit(x / 2, k - 1, i);
    }
  }

  lemma {:induction false} OrGrows(a: nat, b: nat)
    ensures a <= Or(a, b)
  {
    hide Or;
    OrParts(a, b);
    if a != 0 || b != 0 {
      OrGrows(a / 2, b / 2);
    }
  }

  /** The number of bits of `x`. */
  function Length(x: nat): nat
  {
    if x == 0 then 0 else 1 + Length(x / 2)
  }

  lemma {:induction false} LengthIs(x: nat, k: nat)
    ensures x < Pow2(Length(x))
    ensures x < Pow2(k) ==> Length(x) <= k
  {
    if x > 0 {
      LengthIs(x / 2, if k > 0 then k - 1 else 0);
    }
  }

  /** `x` has no bit from `n` on, and the `k` bits below are set. */
  ghost predicate Leading(x: nat, n: nat, k: nat)
  {
    forall i: nat :: (n <= i ==> !Bit(x, i)) && (i < n <= i + k ==> Bit(x, i))
  }

  lemma {:induction false} LeadingOne(x: nat)
    ensures Leading(x, Length(x), 1)
  {
    if x > 0 {
      LeadingOne(x / 2);
    }
    forall i: nat
      ensures (Length(x) <= i ==> !Bit(x, i)) && (i < Length(x) <= i + 1 ==> Bit(x, i))
    {
      if i > 0 && x > 0 {
        assert Bit(x, i) == Bit(x / 2, i - 1);
      } else if x == 0 {
        NoBits(i);
      } else if Length(x) == 1 {
        LengthIs(x, 1);
        assert x < Pow2(1) == 2;
      }
    }
  }

  lemma {:induction false} NoBits(i: nat)
    ensures !Bit(0, i)
  {
    if i > 0 {
      NoBits(i - 1);
    }
  }

  /** Setting the bits `k` places below set ones doubles the run of leading ones. */
  lemma LeadingDoubles(x: nat, n: nat, k: nat)
    requires Leading(x, n, k)
    ensures Leading(Or(x, Shr(x, k)), n, 2 * k)
  {
    forall i: nat
      ensures (n <= i ==> !Bit(Or(x, Shr(x, k)), i)) && (i < n <= i + 2 * k ==> Bit(Or(x, Shr(x, k)), i))
    {
      OrBit(x, Shr(x, k), i);
      ShrBit(x, k, i);
    }
  }

  lemma {:induction false} AllOnes(x: nat, n: nat, k: nat)
    requires Leading(x, n, k) && n <= k
    ensures x == Pow2(n) - 1
  {
    if n == 0 {
      OnlyZero(x);
    } else {
      forall i: nat
        ensures (n - 1 <= i ==> !Bit(x / 2, i)) && (i < n - 1 <= i + k ==> Bit(x / 2, i))
      {
        assert Bit(x, i + 1) == Bit(x / 2, i);
      }
      AllOnes(x / 2, n - 1, k);
      assert Bit(x, 0);
    }
  }

  lemma {:induction false} OnlyZero(x: nat)
    requires forall i: nat :: !Bit(x, i)
    ensures x == 0
  {
    if x > 0 {
      assert !Bit(x, 0);
      forall i: nat
        ensures !Bit(x / 2, i)
      {
        assert !Bit(x, i + 1);
      }
      OnlyZero(x / 2);
    }
  }
}
