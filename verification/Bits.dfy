/** Bitwise arithmetic on natural numbers. */
module Bits {

  function Pow2(k: nat): (r: nat)
    ensures r > 0
  {
    if k == 0 then 1 else 2 * Pow2(k - 1)
  }

  /** Bitwise and. */
  function And(a: nat, b: nat): nat {
    if a == 0 || b == 0 then 0 else 2 * And(a / 2, b / 2) + (a % 2) * (b % 2)
  }

  lemma {:induction false} AndSelf(a: nat)
    ensures And(a, a) == a
  {
    if a > 0 { AndSelf(a / 2); }
  }

  lemma HalfMod(x: nat, m: nat)
    requires m > 0
    ensures x % (2 * m) == 2 * ((x / 2) % m) + x % 2
  {
    var q, r := (x / 2) / m, (x / 2) % m;
    assert x == 2 * (q * m + r) + x % 2;
    assert x == q * (2 * m) + (2 * r + x % 2);
    assert 0 <= 2 * r + x % 2 < 2 * m;
    ModUnique(x, 2 * m, q, 2 * r + x % 2);
  }

  lemma AtLeast(d: int, m: int)
    requires d >= 1 && m > 0
    ensures d * m >= m
  {
  }

  /** A multiple of m strictly between -m and m is zero. */
  lemma SmallMultiple(d: int, m: int)
    requires 0 < m && -m < d * m < m
    ensures d == 0
  {
    if d >= 1 {
      AtLeast(d, m);
      assert false;
    } else if d <= -1 {
      AtLeast(-d, m);
      assert false;
    }
  }

  lemma ModUnique(x: nat, m: nat, q: nat, r: nat)
    requires m > 0 && x == q * m + r && r < m
    ensures x % m == r
  {
    assert x == (x / m) * m + x % m;
    assert (x / m - q) * m == r - x % m;
    SmallMultiple(x / m - q, m);
  }

  /** Masking with a power of two minus one is the remainder. */
  lemma {:induction false} MaskIsMod(x: nat, k: nat)
    ensures And(x, Pow2(k) - 1) == x % Pow2(k)
  {
    if k > 0 {
      var m := Pow2(k - 1);
      MaskIsMod(x / 2, k - 1);
      HalfMod(x, m);
      assert (2 * m - 1) / 2 == m - 1 && (2 * m - 1) % 2 == 1;
    }
  }

  predicate Bit(m: nat, i: nat)
    decreases i
  {
    if i == 0 then m % 2 == 1 else Bit(m / 2, i - 1)
  }

  /** Bitwise or. */
  function Or(a: nat, b: nat): nat {
    if a == 0 then b else if b == 0 then a
    else 2 * Or(a / 2, b / 2) + if a % 2 == 1 || b % 2 == 1 then 1 else 0
  }

  lemma {:induction false} ZeroBit(i: nat)
    ensures !Bit(0, i)
  {
    if i > 0 { ZeroBit(i - 1); }
  }

  lemma ConsBit(m: nat, r: nat, i: nat)
    requires r < 2
    ensures Bit(2 * m + r, i) <==> if i == 0 then r == 1 else Bit(m, i - 1)
  {
  }

  lemma {:induction false} OrBit(a: nat, b: nat, i: nat)
    ensures Bit(Or(a, b), i) <==> Bit(a, i) || Bit(b, i)
  {
    if a == 0 || b == 0 {
      ZeroBit(i);
    } else {
      ConsBit(Or(a / 2, b / 2), if a % 2 == 1 || b % 2 == 1 then 1 else 0, i);
      if i > 0 { OrBit(a / 2, b / 2, i - 1); }
    }
  }

  lemma {:induction false} AndBit(a: nat, b: nat, i: nat)
    ensures Bit(And(a, b), i) <==> Bit(a, i) && Bit(b, i)
  {
    if a == 0 || b == 0 {
      ZeroBit(i);
    } else {
      var r: nat := if a % 2 == 1 && b % 2 == 1 then 1 else 0;
      assert (a % 2) * (b % 2) == r;
      ConsBit(And(a / 2, b / 2), r, i);
      if i > 0 { AndBit(a / 2, b / 2, i - 1); }
    }
  }

  lemma {:induction false} ShiftBit(m: nat, k: nat, i: nat)
    ensures Bit(m * Pow2(k), i) <==> i >= k && Bit(m, i - k)
    decreases k
  {
    if k > 0 {
      var half := m * Pow2(k - 1);
      assert m * Pow2(k) == 2 * half;
      if i > 0 { ShiftBit(m, k - 1, i - 1); }
    }
  }

  lemma {:induction false} PowBit(k: nat, i: nat)
    ensures Bit(Pow2(k), i) <==> i == k
  {
    ShiftBit(1, k, i);
    if i > k { ZeroBit(i - k - 1); }
  }

  /** Masks with the same bits are the same number. */
  lemma {:induction false} SameBits(a: nat, b: nat)
    requires forall i: nat :: Bit(a, i) <==> Bit(b, i)
    ensures a == b
    decreases a + b
  {
    assert Bit(a, 0) <==> Bit(b, 0);
    if a != b {
      forall i: nat ensures Bit(a / 2, i) <==> Bit(b / 2, i) {
        assert Bit(a, i + 1) <==> Bit(b, i + 1);
      }
      SameBits(a / 2, b / 2);
    }
  }

  ghost predicate BitsWithin(d: nat, c: nat) {
    forall i: nat :: Bit(d, i) ==> Bit(c, i)
  }

  /** The readiness test: `(dependencies & completed) == dependencies` holds exactly when
      every dependency is completed. */
  lemma {:induction false} SubsetIff(d: nat, c: nat)
    ensures And(d, c) == d <==> BitsWithin(d, c)
  {
    forall i: nat ensures Bit(And(d, c), i) <==> Bit(d, i) && Bit(c, i) {
      AndBit(d, c, i);
    }
    if BitsWithin(d, c) {
      SameBits(And(d, c), d);
    }
  }

  /** The claim test on one word. */
  lemma {:induction false} TestIff(m: nat, k: nat)
    ensures And(m, Pow2(k)) == 0 <==> !Bit(m, k)
  {
    AndBit(m, Pow2(k), k);
    PowBit(k, k);
    ZeroBit(k);
    if !Bit(m, k) {
      forall i: nat ensures Bit(And(m, Pow2(k)), i) <==> Bit(0, i) {
        AndBit(m, Pow2(k), i);
        PowBit(k, i);
        ZeroBit(i);
      }
      SameBits(And(m, Pow2(k)), 0);
    }
  }

  lemma {:induction false} PowSum(a: nat, b: nat)
    ensures Pow2(a + b) == Pow2(a) * Pow2(b)
    decreases b
  {
    if b > 0 { PowSum(a, b - 1); }
  }

  lemma {:induction false} HighBit(m: nat, k: nat, i: nat)
    requires m < Pow2(k) && i >= k
    ensures !Bit(m, i)
    decreases k
  {
    if k == 0 { ZeroBit(i); } else { HighBit(m / 2, k - 1, i - 1); }
  }

  function ShiftRight(m: nat, k: nat): nat
    decreases k
  {
    if k == 0 then m else ShiftRight(m / 2, k - 1)
  }

  lemma {:induction false} ShiftRightBit(m: nat, k: nat, i: nat)
    ensures Bit(ShiftRight(m, k), i) <==> Bit(m, i + k)
    decreases k
  {
    if k > 0 { ShiftRightBit(m / 2, k - 1, i); }
  }

  lemma {:induction false} ShiftRightDivides(m: nat, k: nat)
    ensures ShiftRight(m, k) == m / Pow2(k)
    decreases k
  {
    if k > 0 {
      ShiftRightDivides(m / 2, k - 1);
      HalfDivide(m, Pow2(k - 1), Pow2(k));
    }
  }

  lemma HalfDivide(m: nat, p: nat, q: nat)
    requires p > 0 && q == 2 * p
    ensures m / q == m / 2 / p
  {
    HalfMod(m, p);
    assert m == m / q * q + m % q;
    assert m / 2 == m / 2 / p * p + m / 2 % p;
    var d := m / q - m / 2 / p;
    assert m == 2 * (m / 2) + m % 2;
    assert d * q == 0;
    SmallMultiple(d, q);
  }

  lemma {:induction false} ModBit(m: nat, k: nat, i: nat)
    ensures Bit(m % Pow2(k), i) <==> i < k && Bit(m, i)
    decreases k
  {
    if k == 0 {
      ZeroBit(i);
    } else {
      var p, r := Pow2(k - 1), m % Pow2(k);
      HalfMod(m, p);
      assert r / 2 == m / 2 % p && r % 2 == m % 2;
      if i > 0 { ModBit(m / 2, k - 1, i - 1); }
    }
  }

  lemma {:induction false} OrBound(a: nat, b: nat, k: nat)
    requires a < Pow2(k) && b < Pow2(k)
    ensures Or(a, b) < Pow2(k)
    decreases k
  {
    if a > 0 && b > 0 {
      OrBound(a / 2, b / 2, k - 1);
    }
  }

  lemma {:induction false} PowLess(i: nat, k: nat)
    requires i < k
    ensures Pow2(i) < Pow2(k)
    decreases k - i
  {
    if i + 1 < k { PowLess(i + 1, k); }
  }
}
