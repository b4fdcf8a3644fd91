/** JavaScript's 32-bit operators on unbounded integers, and the arithmetic they amount to. */
module Bits {
  function Pow2(n: nat): (p: nat)
    ensures p > 0
  {
    if n == 0 then 1 else 2 * Pow2(n - 1)
  }

  function And(a: nat, b: nat): nat {
    if a == 0 || b == 0 then 0
    else 2 * And(a / 2, b / 2) + (if a % 2 == 1 && b % 2 == 1 then 1 else 0)
  }

  function Or(a: nat, b: nat): nat
    decreases a + b
  {
    if a == 0 then b else if b == 0 then a
    else 2 * Or(a / 2, b / 2) + (if a % 2 == 1 || b % 2 == 1 then 1 else 0)
  }

  function Xor(a: nat, b: nat): nat
    decreases a + b
  {
    if a == 0 then b else if b == 0 then a
    else 2 * Xor(a / 2, b / 2) + (if a % 2 != b % 2 then 1 else 0)
  }

  // ---------- Signed 32-bit operators

  const WORD: nat := 0x1_0000_0000

  function ToUint32(x: int): (r: nat)
    ensures r < WORD
  {
    x % WORD
  }

  function ToInt32(x: int): int {
    var u := x % WORD;
    if u >= 0x8000_0000 then u - WORD else u
  }

  /** `a & b`, `a | b` and `a << n`: signed results; the shift count is taken modulo 32. */
  function And32(a: int, b: int): int { ToInt32(And(ToUint32(a), ToUint32(b))) }

  function Or32(a: int, b: int): int { ToInt32(Or(ToUint32(a), ToUint32(b))) }

  function Shl32(a: int, n: nat): int { ToInt32(ToUint32(a) * Pow2(n % 32)) }

  /** `x >>> 0`. */
  function Unsigned(x: int): nat { ToUint32(x) }

  lemma UnsignedOfSigned(x: int)
    ensures Unsigned(ToInt32(x)) == ToUint32(x)
    ensures 0 <= x < WORD ==> Unsigned(ToInt32(x)) == x
  {
  }

  // ---------- What they amount to

  lemma {:induction false} Pow2Grows(m: nat, n: nat)
    requires m <= n
    ensures Pow2(m) <= Pow2(n)
  {
    if m < n { Pow2Grows(m, n - 1); }
  }

  lemma {:induction false} AndAllOnes(v: nat, n: nat)
    requires v < Pow2(n)
    ensures And(v, Pow2(n) - 1) == v
    decreases n
  {
    if n > 0 && v > 0 { AndAllOnes(v / 2, n - 1); }
  }

  /** `v >>> s` for a non-negative `v`. */
  function Shr(v: nat, s: nat): nat
    decreases s
  {
    if s == 0 then v else Shr(v / 2, s - 1)
  }

  lemma {:induction false} ShrOfSmall(v: nat, s: nat)
    requires v < Pow2(s)
    ensures Shr(v, s) == 0
    decreases s
  {
    if s > 0 { ShrOfSmall(v / 2, s - 1); }
  }

  lemma {:induction false} Pow2Strict(m: nat, n: nat)
    requires m < n
    ensures Pow2(m) < Pow2(n)
  {
    if m < n - 1 { Pow2Strict(m, n - 1); }
  }

  lemma AndMaskStep(v: nat, half: nat, q: nat, p: nat)
    requires And(v / 2, half) == q * p
    ensures And(v, 2 * half) == q * (2 * p)
  {
    AndEven(v, half);
    hide And;
    DoubleProduct(q, p);
  }

  lemma {:induction false} AndMaskIsShr(v: nat, n: nat, s: nat)
    requires s <= n && v < Pow2(n)
    ensures Pow2(s) <= Pow2(n) && And(v, Pow2(n) - Pow2(s)) == Shr(v, s) * Pow2(s)
    decreases s
  {
    hide And;
    Pow2Grows(s, n);
    if s == 0 {
      AndAllOnes(v, n);
    } else if s == n {
      ShrOfSmall(v, n);
      AndZero(v);
    } else {
      var half := Pow2(n - 1) - Pow2(s - 1);
      Pow2Strict(s - 1, n - 1);
      AndMaskIsShr(v / 2, n - 1, s - 1);
      AndMaskStep(v, half, Shr(v / 2, s - 1), Pow2(s - 1));
      assert Pow2(n) - Pow2(s) == 2 * half && Pow2(s) == 2 * Pow2(s - 1);
    }
  }

  lemma AndZero(v: nat)
    ensures And(v, 0) == 0
  {
  }

  lemma AndEven(v: nat, h: nat)
    ensures And(v, 2 * h) == 2 * And(v / 2, h)
  {
    assert (2 * h) % 2 == 0 && (2 * h) / 2 == h;
  }

  lemma DoubleProduct(q: nat, p: nat)
    ensures q * (2 * p) == 2 * (q * p)
  {
  }

  /** The remainder comes along: v = Shr(v, s) * 2^s + r with r < 2^s. */
  lemma {:induction false} ShrLeaves(v: nat, s: nat) returns (r: nat)
    ensures r < Pow2(s) && v == Shr(v, s) * Pow2(s) + r
    decreases s
  {
    if s == 0 {
      r := 0;
    } else {
      var h := ShrLeaves(v / 2, s - 1);
      r := 2 * h + v % 2;
      DoubleProduct(Shr(v, s), Pow2(s - 1));
    }
  }

  lemma QuotientIs(a: nat, p: nat, q: nat, r: nat)
    requires p > 0 && a == q * p + r && r < p
    ensures a / p == q
  {
    var d := a / p;
    assert a == p * d + a % p;
    if d > q {
      MoreMultiples(d, q, p);
    } else if d < q {
      MoreMultiples(q, d, p);
    }
  }

  lemma MoreMultiples(d: nat, q: nat, p: nat)
    requires d > q
    ensures d * p >= q * p + p
  {
    assert d * p == q * p + (d - q) * p;
    assert (d - q) * p == p + (d - q - 1) * p;
  }

  /** Masking off the low `s` bits of an `n`-bit value rounds it down to a multiple of 2^s. */
  lemma AndMask(v: nat, n: nat, s: nat)
    requires s <= n && v < Pow2(n)
    ensures Pow2(s) <= Pow2(n) && And(v, Pow2(n) - Pow2(s)) == v / Pow2(s) * Pow2(s)
  {
    AndMaskIsShr(v, n, s);
    var r := ShrLeaves(v, s);
    QuotientIs(v, Pow2(s), Shr(v, s), r);
  }

  /** Two multiples of p are equal exactly when their quotients are. */
  lemma SameMultiple(a: nat, b: nat, p: nat)
    requires p > 0
    ensures a / p * p == b / p * p <==> a / p == b / p
  {
    if a / p < b / p {
      MoreMultiples(b / p, a / p, p);
    } else if a / p > b / p {
      MoreMultiples(a / p, b / p, p);
    }
  }

  lemma {:induction false} Pow2Splits(a: nat, b: nat)
    ensures Pow2(a + b) == Pow2(a) * Pow2(b)
  {
    if b > 0 {
      Pow2Splits(a, b - 1);
      DoubleProduct(Pow2(a), Pow2(b - 1));
    }
  }

  lemma Pow2Words()
    ensures Pow2(8) == 0x100 && Pow2(16) == 0x1_0000 && Pow2(24) == 0x100_0000 && Pow2(32) == WORD
  {
    assert Pow2(4) == 16;
    Pow2Splits(4, 4);
    Pow2Splits(8, 8);
    Pow2Splits(16, 8);
    Pow2Splits(16, 16);
  }

  /** A value whose low `k` bits are clear, or-ed with those bits. */
  lemma {:induction false} OrLowBits(v: nat, k: nat, n: nat)
    requires n < Pow2(k)
    ensures Or(v * Pow2(k), n) == v * Pow2(k) + n
    decreases k
  {
    if v > 0 && n > 0 {
      var p := Pow2(k - 1);
      assert v * Pow2(k) == 2 * (v * p);
      OrLowBits(v, k - 1, n / 2);
    }
  }

  lemma {:induction false} XorUndone(a: nat, b: nat)
    ensures Xor(Xor(a, b), b) == a
    decreases a + b
  {
    if a == 0 {
      XorSelf(b);
    } else if b != 0 {
      XorUndone(a / 2, b / 2);
      var x := Xor(a, b);
      assert x / 2 == Xor(a / 2, b / 2) && x % 2 == (if a % 2 != b % 2 then 1 else 0);
    }
  }

  lemma {:induction false} XorSelf(b: nat)
    ensures Xor(b, b) == 0
  {
    if b != 0 { XorSelf(b / 2); }
  }

  lemma {:induction false} XorBound(a: nat, b: nat, n: nat)
    requires a < Pow2(n) && b < Pow2(n)
    ensures Xor(a, b) < Pow2(n)
    decreases n
  {
    if a != 0 && b != 0 { XorBound(a / 2, b / 2, n - 1); }
  }
}
