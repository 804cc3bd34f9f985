/** Bitwise operations on natural numbers, and PowOfTwo of util.h. */
module Bits {

  function Pow2(k: nat): (p: nat)
    ensures p > 0
  {
    if k == 0 then 1 else 2 * Pow2(k - 1)
  }

  function Shr(x: nat, k: nat): nat
    decreases x, k
  {
    if k == 0 then x else Shr(x / 2, k - 1)
  }

  function And(x: nat, y: nat): nat {
    if x == 0 || y == 0 then 0 else 2 * And(x / 2, y / 2) + (if x % 2 == 1 && y % 2 == 1 then 1 else 0)
  }

  function Or(x: nat, y: nat): nat {
    if x == 0 && y == 0 then 0 else 2 * Or(x / 2, y / 2) + (if x % 2 == 1 || y % 2 == 1 then 1 else 0)
  }

  const WORD64: nat := 0x1_0000_0000_0000_0000

  // ---------------------------------------------------------------- powers and shifts

  lemma {:induction false} Pow2Add(j: nat, k: nat)
    ensures Pow2(j + k) == Pow2(j) * Pow2(k)
  {
    if j > 0 {
      Pow2Add(j - 1, k);
    }
  }

  lemma {:induction false} Pow2Monotone(j: nat, k: nat)
    requires j < k
    ensures Pow2(j) < Pow2(k)
  {
    if j + 1 < k {
      Pow2Monotone(j, k - 1);
    }
  }

  lemma Pow2Values()
    ensures Pow2(6) == 64 && Pow2(8) == 256 && Pow2(32) == 0x1_0000_0000 && Pow2(63) == 0x8000_0000_0000_0000
    ensures Pow2(64) == WORD64
  {
    assert Pow2(4) == 16;
    assert Pow2(6) == 4 * Pow2(4);
    Pow2Add(4, 4);
    Pow2Add(8, 8);
    Pow2Add(16, 16);
    Pow2Add(32, 32);
    assert Pow2(64) == 2 * Pow2(63);
  }

  lemma {:induction false} ShrShr(x: nat, j: nat, k: nat)
    ensures Shr(Shr(x, j), k) == Shr(x, j + k)
    decreases j
  {
    if j > 0 {
      ShrShr(x / 2, j - 1, k);
    }
  }

  lemma BigMultiple(d: int, k: int)
    requires d > 0 && k != 0
    ensures d * k >= d || d * k <= -d
  {
    if k > 0 {
      assert d * (k - 1) >= 0;
    } else {
      assert d * (-k - 1) >= 0;
    }
  }

  lemma DivUnique(x: nat, d: nat, q: nat, r: nat)
    requires d > 0 && x == d * q + r && r < d
    ensures x / d == q && x % d == r
  {
    var a, b := x / d, x % d;
    assert x == d * a + b;
    assert d * (a - q) == r - b;
    if a != q { BigMultiple(d, a - q); }
  }

  lemma TwiceProduct(p: nat, q: nat)
    ensures (2 * p) * q == 2 * (p * q)
  {
  }

  lemma AndOnes(x: nat, p: nat)
    requires p > 0
    ensures And(x, 2 * p - 1) == 2 * And(x / 2, p - 1) + x % 2
  {
    assert (2 * p - 1) / 2 == p - 1 && (2 * p - 1) % 2 == 1;
  }

  lemma {:induction false} Split(x: nat, k: nat)
    ensures x == Pow2(k) * Shr(x, k) + And(x, Pow2(k) - 1)
    ensures And(x, Pow2(k) - 1) < Pow2(k)
    decreases k
  {
    if k > 0 {
      var p := Pow2(k - 1);
      Split(x / 2, k - 1);
      TwiceProduct(p, Shr(x / 2, k - 1));
      AndOnes(x, p);
    }
  }

  // ---------------------------------------------------------------- masks

  /** Masking with 2^k - 1 is the remainder by 2^k, and shifting by k the quotient. */
  lemma MaskAndShift(x: nat, k: nat)
    ensures And(x, Pow2(k) - 1) == x % Pow2(k)
    ensures Shr(x, k) == x / Pow2(k)
  {
    Split(x, k);
    DivUnique(x, Pow2(k), Shr(x, k), And(x, Pow2(k) - 1));
  }

  lemma {:induction false} OrShr(x: nat, y: nat, k: nat)
    ensures Shr(Or(x, y), k) == Or(Shr(x, k), Shr(y, k))
    decreases k
  {
    if k > 0 {
      OrShr(x / 2, y / 2, k - 1);
    }
  }

  lemma {:induction false} OrZero(x: nat)
    ensures Or(x, 0) == x
  {
    if x > 0 {
      OrZero(x / 2);
    }
  }

  /** Or with 2^k - 1 extends a number of m ones above bit k downwards. */
  lemma {:induction false} OrMask(x: nat, k: nat, m: nat)
    requires Shr(x, k) == Pow2(m) - 1
    ensures Or(x, Pow2(k) - 1) == Pow2(m + k) - 1
    decreases k
  {
    if k == 0 {
      OrZero(x);
    } else {
      var p := Pow2(k - 1);
      OrMask(x / 2, k - 1, m);
      assert (2 * p - 1) / 2 == p - 1;
      assert Or(x, 2 * p - 1) == 2 * Or(x / 2, p - 1) + 1;
    }
  }

  lemma {:induction false} ShrZero(k: nat)
    ensures Shr(0, k) == 0
    decreases k
  {
    if k > 0 {
      ShrZero(k - 1);
    }
  }

  lemma {:induction false} ShrOnes(m: nat, k: nat)
    requires k <= m
    ensures Shr(Pow2(m) - 1, k) == Pow2(m - k) - 1
    decreases k
  {
    if k > 0 {
      assert (2 * Pow2(m - 1) - 1) / 2 == Pow2(m - 1) - 1;
      ShrOnes(m - 1, k - 1);
    }
  }

  // ---------------------------------------------------------------- PowOfTwo

  function Smear(x: nat, k: nat): nat {
    Or(x, Shr(x, k))
  }

  function SmearBits(x: nat): nat {
    Smear(Smear(Smear(Smear(Smear(Smear(x, 1), 2), 4), 8), 16), 32)
  }

  /** PowOfTwo in 64-bit arithmetic. */
  function PowOfTwo(x: nat): nat {
    (SmearBits((x + WORD64 - 1) % WORD64) + 1) % WORD64
  }

  /** x has n bits, the first m of them ones. */
  predicate TopOnes(x: nat, n: nat, m: nat) {
    m <= n && Shr(x, n - m) == Pow2(m) - 1
  }

  lemma {:induction false} HasLength(x: nat) returns (n: nat)
    requires x > 0
    ensures n > 0 && TopOnes(x, n, 1) && Pow2(n - 1) <= x < Pow2(n)
  {
    if x == 1 {
      n := 1;
      assert Pow2(0) == 1 && Pow2(1) == 2;
    } else {
      n := HasLength(x / 2);
      assert Pow2(1) == 2;
      ShrShr(x, 1, n - 1);
      n := n + 1;
    }
  }

  lemma TopOnesFewer(x: nat, n: nat, m: nat, j: nat)
    requires TopOnes(x, n, m) && j <= m
    ensures TopOnes(x, n, j)
  {
    ShrShr(x, n - m, m - j);
    ShrOnes(m, m - j);
  }

  // Below the doubled run nothing matters: x has m ones and then `low` bits, the shifted x has `low` ones
  lemma SmearWithin(x: nat, n: nat, m: nat, low: nat)
    requires 0 < m <= n && TopOnes(x, n, m) && low <= m && m + low <= n
    ensures TopOnes(Smear(x, m), n, m + low)
  {
    var rest := n - (m + low);
    OrShr(x, Shr(x, m), rest);
    ShrShr(x, m, rest);
    TopOnesFewer(x, n, m, low);
    ShrShr(x, rest, low);
    OrMask(Shr(x, rest), low, m);
  }

  lemma SmearBeyond(x: nat, n: nat, m: nat)
    requires n < m && TopOnes(x, n, n)
    ensures Smear(x, m) == x
  {
    ShrOnes(n, n);
    ShrShr(x, n, m - n);
    ShrZero(m - n);
    OrZero(x);
  }

  /** Each smear doubles the run of leading ones. */
  lemma SmearDoubles(x: nat, n: nat, m: nat)
    requires 0 < m && TopOnes(x, n, if m <= n then m else n)
    ensures TopOnes(Smear(x, m), n, if 2 * m <= n then 2 * m else n)
  {
    if m <= n {
      SmearWithin(x, n, m, if 2 * m <= n then m else n - m);
    } else {
      SmearBeyond(x, n, m);
    }
  }

  predicate OnesUpTo(x: nat, n: nat, m: nat) {
    TopOnes(x, n, if m <= n then m else n)
  }

  lemma SmearOnes(x: nat, n: nat, m: nat)
    requires 0 < m && OnesUpTo(x, n, m)
    ensures OnesUpTo(Smear(x, m), n, 2 * m)
  {
    SmearDoubles(x, n, m);
  }

  lemma AllOnes(x: nat, n: nat, m: nat)
    requires n <= m && OnesUpTo(x, n, m)
    ensures x == Pow2(n) - 1
  {
  }

  lemma SmearThrice(x: nat, n: nat, m: nat)
    requires 0 < m && OnesUpTo(x, n, m)
    ensures OnesUpTo(Smear(Smear(Smear(x, m), 2 * m), 4 * m), n, 8 * m)
  {
    SmearOnes(x, n, m);
    SmearOnes(Smear(x, m), n, 2 * m);
    SmearOnes(Smear(Smear(x, m), 2 * m), n, 4 * m);
  }

  lemma SmearAll(x: nat, n: nat)
    requires 0 < n <= 64 && TopOnes(x, n, 1)
    ensures SmearBits(x) == Pow2(n) - 1
  {
    assert OnesUpTo(x, n, 1);
    var y := Smear(Smear(Smear(x, 1), 2), 4);
    SmearThrice(x, n, 1);
    SmearThrice(y, n, 8);
    AllOnes(Smear(Smear(Smear(y, 8), 16), 32), n, 64);
  }

  ghost predicate IsPow2(p: nat) {
    exists k :: Pow2(k) == p
  }

  lemma LengthIs(x: nat, n: nat, k: nat)
    requires n > 0 && Pow2(n - 1) <= x < Pow2(n)
    requires k > 0 && Pow2(k - 1) <= x < Pow2(k)
    ensures n == k
  {
    if n < k {
      if n < k - 1 { Pow2Monotone(n, k - 1); }
    } else if k < n {
      if k < n - 1 { Pow2Monotone(k, n - 1); }
    }
  }

  lemma SmearOf(x: nat) returns (n: nat)
    requires x < Pow2(64)
    ensures n <= 64 && SmearBits(x) == Pow2(n) - 1
    ensures if x == 0 then n == 0 else n > 0 && Pow2(n - 1) <= x < Pow2(n)
  {
    if x == 0 {
      n := 0;
      ShrZero(1);
      ShrZero(2);
      ShrZero(4);
      ShrZero(8);
      ShrZero(16);
      ShrZero(32);
    } else {
      n := HasLength(x);
      if n > 64 {
        if n > 65 { Pow2Monotone(64, n - 1); }
      }
      SmearAll(x, n);
    }
  }

  lemma WrapIncrement(n: nat)
    requires n <= 64
    ensures (Pow2(n) - 1 + 1) % WORD64 == if n == 64 then 0 else Pow2(n)
  {
    Pow2Values();
    if n < 64 { Pow2Monotone(n, 64); }
  }

  lemma PowOfTwoIs(x: nat, n: nat)
    requires x < WORD64 && n <= 64 && SmearBits((x + WORD64 - 1) % WORD64) == Pow2(n) - 1
    ensures PowOfTwo(x) == if n == 64 then 0 else Pow2(n)
  {
    WrapIncrement(n);
  }

  lemma PowOfTwoValue(x: nat) returns (n: nat)
    requires 0 < x <= Pow2(63)
    ensures n <= 63 && PowOfTwo(x) == Pow2(n)
    ensures x <= Pow2(n) && (n > 0 ==> Pow2(n - 1) < x)
  {
    Pow2Values();
    var y: nat := x - 1;
    assert (x + WORD64 - 1) % WORD64 == y;
    n := SmearOf(y);
    assert n < 64;
    PowOfTwoIs(x, n);
  }

  lemma LeastPower(x: nat, n: nat, k: nat)
    requires n > 0 ==> Pow2(n - 1) < x
    requires x <= Pow2(k)
    ensures Pow2(n) <= Pow2(k)
  {
    if k + 1 < n { Pow2Monotone(k, n - 1); } else if n < k { Pow2Monotone(n, k); }
  }

  ghost predicate IsLeastPow2(p: nat, x: nat) {
    IsPow2(p) && x <= p && forall k: nat :: x <= Pow2(k) ==> p <= Pow2(k)
  }

  /** PowOfTwo(x) is the least power of two that is at least x, for every x that has one in 64 bits. */
  lemma PowOfTwoIsLeast(x: nat)
    requires 0 < x <= Pow2(63)
    ensures IsLeastPow2(PowOfTwo(x), x) && PowOfTwo(x) <= Pow2(63)
  {
    var n := PowOfTwoValue(x);
    if n < 63 { Pow2Monotone(n, 63); }
    forall k: nat | x <= Pow2(k) ensures Pow2(n) <= Pow2(k) { LeastPower(x, n, k); }
  }

  /** Outside that range the 64-bit arithmetic yields zero. */
  lemma PowOfTwoOverflows(x: nat)
    requires x < WORD64 && (x == 0 || x > Pow2(63))
    ensures PowOfTwo(x) == 0
  {
    Pow2Values();
    var y := (x + WORD64 - 1) % WORD64;
    assert Pow2(63) <= y < Pow2(64);
    var n := SmearOf(y);
    LengthIs(y, n, 64);
    PowOfTwoIs(x, n);
  }
}
