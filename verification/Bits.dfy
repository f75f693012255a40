/** Python's unbounded nonnegative integers as bit strings: shifts, and, or, xor, and what they do to
    each bit. */
module Bits {
  function Bit(x: nat, i: nat): bool
  {
    if i == 0 then x % 2 == 1 else Bit(x / 2, i - 1)
  }

  function Xor(x: nat, y: nat): nat
  {
    if x == 0 && y == 0 then 0 else 2 * Xor(x / 2, y / 2) + (if x % 2 != y % 2 then 1 else 0)
  }

  function Or(x: nat, y: nat): nat
  {
    if x == 0 && y == 0 then 0 else 2 * Or(x / 2, y / 2) + (if x % 2 == 1 || y % 2 == 1 then 1 else 0)
  }

  function And(x: nat, y: nat): nat
  {
    if x == 0 || y == 0 then 0 else 2 * And(x / 2, y / 2) + (if x % 2 == 1 && y % 2 == 1 then 1 else 0)
  }

  function Shl(x: nat, a: nat): nat { if a == 0 then x else 2 * Shl(x, a - 1) }
  function Shr(x: nat, a: nat): nat { if a == 0 then x else Shr(x / 2, a - 1) }
  function Pow2(n: nat): (p: nat)
    ensures p > 0
  {
    if n == 0 then 1 else 2 * Pow2(n - 1)
  }

  lemma {:induction false} BitZero(i: nat)
    ensures !Bit(0, i)
  {
    if i != 0 {
      BitZero(i - 1);
    }
  }

  lemma {:induction false} BitXor(x: nat, y: nat, i: nat)
    ensures Bit(Xor(x, y), i) == (Bit(x, i) != Bit(y, i))
  {
    if x == 0 && y == 0 {
      BitZero(i);
    } else if i != 0 {
      BitXor(x / 2, y / 2, i - 1);
    }
  }

  lemma {:induction false} BitOr(x: nat, y: nat, i: nat)
    ensures Bit(Or(x, y), i) == (Bit(x, i) || Bit(y, i))
  {
    if x == 0 && y == 0 {
      BitZero(i);
    } else if i != 0 {
      BitOr(x / 2, y / 2, i - 1);
    }
  }

  lemma {:induction false} BitAnd(x: nat, y: nat, i: nat)
    ensures Bit(And(x, y), i) == (Bit(x, i) && Bit(y, i))
  {
    if x == 0 || y == 0 {
      BitZero(i);
    } else if i != 0 {
      BitAnd(x / 2, y / 2, i - 1);
    }
  }

  lemma {:induction false} BitShl(x: nat, a: nat, i: nat)
    ensures Bit(Shl(x, a), i) == (i >= a && Bit(x, i - a))
  {
    if a != 0 && i != 0 {
      BitShl(x, a - 1, i - 1);
    }
  }

  lemma {:induction false} BitShr(x: nat, a: nat, i: nat)
    ensures Bit(Shr(x, a), i) == Bit(x, i + a)
  {
    if a != 0 {
      BitShr(x / 2, a - 1, i);
    }
  }

  /** A number is its bits. */
  lemma {:induction false} Extensional(x: nat, y: nat)
    requires forall i: nat :: Bit(x, i) == Bit(y, i)
    ensures x == y
    decreases x + y
  {
    if x + y != 0 {
      assert Bit(x, 0) == Bit(y, 0);
      forall i: nat
        ensures Bit(x / 2, i) == Bit(y / 2, i)
      {
        assert Bit(x, i + 1) == Bit(y, i + 1);
      }
      Extensional(x / 2, y / 2);
    }
  }

  lemma {:induction false} HighBits(x: nat, n: nat, i: nat)
    requires x < Pow2(n) && i >= n
    ensures !Bit(x, i)
  {
    if n == 0 {
      BitZero(i);
    } else {
      HighBits(x / 2, n - 1, i - 1);
    }
  }

  lemma {:induction false} NoHighBits(x: nat, n: nat)
    requires forall i: nat :: i >= n ==> !Bit(x, i)
    ensures x < Pow2(n)
    decreases n, x
  {
    if x != 0 {
      forall i: nat | i >= (if n == 0 then 0 else n - 1)
        ensures !Bit(x / 2, i)
      {
        assert !Bit(x, i + 1);
      }
      if n == 0 {
        assert !Bit(x, 0);
        NoHighBits(x / 2, 0);
      } else {
        NoHighBits(x / 2, n - 1);
      }
    }
  }

  lemma {:induction false} Pow2Add(m: nat, n: nat)
    ensures Pow2(m + n) == Pow2(m) * Pow2(n)
  {
    if m != 0 {
      Pow2Add(m - 1, n);
      assert 2 * (Pow2(m - 1) * Pow2(n)) == 2 * Pow2(m - 1) * Pow2(n);
    }
  }

  lemma {:induction false} BitOnes(n: nat, i: nat)
    ensures Bit(Pow2(n) - 1, i) == (i < n)
  {
    if n == 0 {
      BitZero(i);
    } else if i != 0 {
      BitOnes(n - 1, i - 1);
      assert (Pow2(n) - 1) / 2 == Pow2(n - 1) - 1;
    }
  }

  // ---- Shifts and masks as arithmetic ------------------------------------------------------

  lemma {:induction false} ShrDivides(x: nat, a: nat)
    ensures Shr(x, a) == x / Pow2(a)
  {
    if a != 0 {
      ShrDivides(x / 2, a - 1);
      DivideTwice(x, Pow2(a - 1));
    }
  }

  lemma DivideTwice(x: nat, p: nat)
    requires p > 0
    ensures x / 2 / p == x / (2 * p)
  {
    var q := x / (2 * p);
    var r := x - q * (2 * p);
    assert q * (2 * p) == 2 * (q * p);
    assert 0 <= r < 2 * p;
    assert x / 2 == q * p + r / 2;
    QuotientUnique(x / 2, p, q, r / 2);
  }

  lemma QuotientUnique(x: nat, p: nat, q: nat, r: nat)
    requires r < p && x == q * p + r
    ensures x / p == q && x % p == r
  {
    var a, b := x / p, x % p;
    assert x == p * a + b;
    assert p * (a - q) == p * a - q * p;
    MultiplesApart(p, a - q);
  }

  // A multiple of p is zero or at least p away from it.
  lemma MultiplesApart(p: nat, d: int)
    ensures d >= 1 ==> p * d >= p
    ensures d <= -1 ==> p * d <= -(p as int)
  {
    if d >= 1 {
      assert p * (d - 1) >= 0;
    } else if d <= -1 {
      assert p * (-1 - d) >= 0;
    }
  }

  lemma {:induction false} ShlMultiplies(x: nat, a: nat)
    ensures Shl(x, a) == Pow2(a) * x
  {
    if a != 0 {
      ShlMultiplies(x, a - 1);
      assert 2 * (Pow2(a - 1) * x) == Pow2(a) * x;
    }
  }

  lemma RemainderDoubles(x: nat, p: nat)
    requires p > 0
    ensures x % (2 * p) == 2 * (x / 2 % p) + x % 2
  {
    var q, r := x / 2 / p, x / 2 % p;
    assert x / 2 == q * p + r;
    assert q * (2 * p) == 2 * (q * p);
    QuotientUnique(x, 2 * p, q, 2 * r + x % 2);
  }

  /** Keeping the low bits is the remainder. */
  lemma {:induction false} AndOnes(x: nat, n: nat)
    ensures And(x, Pow2(n) - 1) == x % Pow2(n)
  {
    if x == 0 || n == 0 {
      ZeroRemainder(x, n);
    } else {
      var p := Pow2(n - 1);
      AndOnes(x / 2, n - 1);
      assert (Pow2(n) - 1) / 2 == p - 1 && (Pow2(n) - 1) % 2 == 1;
      RemainderDoubles(x, p);
    }
  }

  lemma ZeroRemainder(x: nat, n: nat)
    requires x == 0 || n == 0
    ensures x % Pow2(n) == 0
  {
    if n == 0 {
      assert x % 1 == 0;
    } else {
      QuotientUnique(0, Pow2(n), 0, 0);
    }
  }

  /** Setting bits above a number adds them. */
  lemma {:induction false} OrAbove(x: nat, n: nat, high: nat)
    requires x < Pow2(n)
    ensures Or(x, Pow2(n) * high) == x + Pow2(n) * high
  {
    if n == 0 {
      OrZero(high);
    } else {
      var y := Pow2(n - 1) * high;
      assert Pow2(n) * high == 2 * y by { assert 2 * Pow2(n - 1) * high == 2 * y; }
      OrAbove(x / 2, n - 1, high);
      OrDoubled(x, y);
    }
  }

  lemma OrDoubled(x: nat, y: nat)
    ensures Or(x, 2 * y) == 2 * Or(x / 2, y) + x % 2
  {
  }

  lemma {:induction false} OrZero(y: nat)
    ensures Or(0, y) == y
  {
    if y != 0 {
      OrZero(y / 2);
    }
  }

  lemma {:induction false} OrCommutes(x: nat, y: nat)
    ensures Or(x, y) == Or(y, x)
    decreases x + y
  {
    if x + y != 0 {
      OrCommutes(x / 2, y / 2);
    }
  }

  // ---- 64-bit words ------------------------------------------------------------------------

  const MASK64: nat := 0xffff_ffff_ffff_ffff

  lemma MaskIsOnes()
    ensures MASK64 == Pow2(64) - 1
  {
    assert Pow2(4) == 16;
    assert Pow2(8) == 16 * 16 by { Pow2Add(4, 4); }
    assert Pow2(16) == 256 * 256 by { Pow2Add(8, 8); }
    assert Pow2(32) == 0x1_0000 * 0x1_0000 by { Pow2Add(16, 16); }
    assert Pow2(64) == 0x1_0000_0000 * 0x1_0000_0000 by { Pow2Add(32, 32); }
  }

  lemma BitMask(x: nat, i: nat)
    ensures Bit(And(x, MASK64), i) == (i < 64 && Bit(x, i))
  {
    MaskIsOnes();
    BitOnes(64, i);
    BitAnd(x, MASK64, i);
  }

  lemma MaskedFits(x: nat)
    ensures And(x, MASK64) <= MASK64
  {
    forall i: nat | i >= 64
      ensures !Bit(And(x, MASK64), i)
    {
      BitMask(x, i);
    }
    NoHighBits(And(x, MASK64), 64);
    MaskIsOnes();
  }

  lemma BitFits(x: nat, i: nat)
    requires x <= MASK64 && i >= 64
    ensures !Bit(x, i)
  {
    MaskIsOnes();
    HighBits(x, 64, i);
  }

  lemma XorFits(x: nat, y: nat)
    requires x <= MASK64 && y <= MASK64
    ensures Xor(x, y) <= MASK64
  {
    forall i: nat | i >= 64
      ensures !Bit(Xor(x, y), i)
    {
      BitFits(x, i);
      BitFits(y, i);
      BitXor(x, y, i);
    }
    NoHighBits(Xor(x, y), 64);
    MaskIsOnes();
  }

  lemma XorAssociates(x: nat, y: nat, z: nat)
    ensures Xor(Xor(x, y), z) == Xor(x, Xor(y, z))
  {
    forall i: nat
      ensures Bit(Xor(Xor(x, y), z), i) == Bit(Xor(x, Xor(y, z)), i)
    {
      BitXor(Xor(x, y), z, i);
      BitXor(x, y, i);
      BitXor(x, Xor(y, z), i);
      BitXor(y, z, i);
    }
    Extensional(Xor(Xor(x, y), z), Xor(x, Xor(y, z)));
  }
}
