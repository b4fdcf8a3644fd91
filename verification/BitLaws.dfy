/** JavaScript's 32-bit operators, bit by bit. */
module BitLaws {
  import opened Bits

  function Bit(v: nat, k: nat): nat { v / Pow2(k) % 2 }

  lemma BitOfDoubled(q: nat, r: nat, k: nat)
    requires r < 2 && k > 0
    ensures Bit(2 * q + r, k) == Bit(q, k - 1)
  {
    var p := Pow2(k - 1);
    assert (2 * q + r) / (2 * p) == q / p by {
      var d, m := q / p, q % p;
      assert q == d * p + m;
      QuotientIs(2 * q + r, 2 * p, d, 2 * m + r);
    }
  }

  /** Every bit of the result is the exclusive or of the two bits. */
  lemma {:induction false} XorIsBitwise(a: nat, b: nat, k: nat)
    ensures Bit(Xor(a, b), k) == if Bit(a, k) != Bit(b, k) then 1 else 0
    decreases a + b
  {
    hide Bit, Pow2;
    ZeroHasNoBits(k);
    BitIsZeroOrOne(a, k);
    BitIsZeroOrOne(b, k);
    if a != 0 && b != 0 {
      var low := if a % 2 != b % 2 then 1 else 0;
      assert Xor(a, b) == 2 * Xor(a / 2, b / 2) + low;
      if k == 0 {
        LowBit(a / 2, a % 2);
        LowBit(b / 2, b % 2);
        LowBit(Xor(a / 2, b / 2), low);
      } else {
        XorIsBitwise(a / 2, b / 2, k - 1);
        BitOfDoubled(a / 2, a % 2, k);
        BitOfDoubled(b / 2, b % 2, k);
        BitOfDoubled(Xor(a / 2, b / 2), low, k);
      }
    }
  }

  lemma LowBit(q: nat, r: nat)
    requires r < 2
    ensures Bit(2 * q + r, 0) == r
  {
    assert (2 * q + r) / 1 == 2 * q + r;
  }

  lemma BitIsZeroOrOne(v: nat, k: nat)
    ensures Bit(v, k) == 0 || Bit(v, k) == 1
  {
  }

  lemma ZeroHasNoBits(k: nat)
    ensures Bit(0, k) == 0
  {
  }

  lemma {:induction false} AndIsBitwise(a: nat, b: nat, k: nat)
    ensures Bit(And(a, b), k) == if Bit(a, k) == 1 && Bit(b, k) == 1 then 1 else 0
  {
    hide Bit, Pow2;
    ZeroHasNoBits(k);
    BitIsZeroOrOne(a, k);
    BitIsZeroOrOne(b, k);
    if a != 0 && b != 0 {
      var low := if a % 2 == 1 && b % 2 == 1 then 1 else 0;
      assert And(a, b) == 2 * And(a / 2, b / 2) + low;
      if k == 0 {
        LowBit(a / 2, a % 2);
        LowBit(b / 2, b % 2);
        LowBit(And(a / 2, b / 2), low);
      } else {
        AndIsBitwise(a / 2, b / 2, k - 1);
        BitOfDoubled(a / 2, a % 2, k);
        BitOfDoubled(b / 2, b % 2, k);
        BitOfDoubled(And(a / 2, b / 2), low, k);
      }
    }
  }

  lemma {:induction false} OrIsBitwise(a: nat, b: nat, k: nat)
    ensures Bit(Or(a, b), k) == if Bit(a, k) == 1 || Bit(b, k) == 1 then 1 else 0
    decreases a + b
  {
    hide Bit, Pow2;
    ZeroHasNoBits(k);
    BitIsZeroOrOne(a, k);
    BitIsZeroOrOne(b, k);
    if a != 0 && b != 0 {
      var low := if a % 2 == 1 || b % 2 == 1 then 1 else 0;
      assert Or(a, b) == 2 * Or(a / 2, b / 2) + low;
      if k == 0 {
        LowBit(a / 2, a % 2);
        LowBit(b / 2, b % 2);
        LowBit(Or(a / 2, b / 2), low);
      } else {
        OrIsBitwise(a / 2, b / 2, k - 1);
        BitOfDoubled(a / 2, a % 2, k);
        BitOfDoubled(b / 2, b % 2, k);
        BitOfDoubled(Or(a / 2, b / 2), low, k);
      }
    }
  }

  /** The signed word is the representative of `x` modulo 2^32 in [-2^31, 2^31). */
  lemma SignedWord(x: int)
    ensures -2_147_483_648 <= ToInt32(x) < 2_147_483_648
    ensures (ToInt32(x) - x) % 4_294_967_296 == 0
    ensures 0 <= Unsigned(x) < 4_294_967_296 && (Unsigned(x) - x) % 4_294_967_296 == 0
  {
    var u := x % WORD;
    assert x == x / WORD * WORD + u;
    assert (u - x) % WORD == 0 by { MultipleOfWord(-(x / WORD)); }
    assert (u - WORD - x) % WORD == 0 by { MultipleOfWord(-(x / WORD) - 1); }
  }

  lemma MultipleOfWord(n: int)
    ensures n * WORD % WORD == 0
  {
  }

  /** Only the low five bits of a shift count. */
  lemma ShiftCounts(a: int, n: nat)
    ensures Shl32(a, n + 32) == Shl32(a, n)
  {
    assert (n + 32) % 32 == n % 32;
  }
}
