/** What the word operations mean for the numbers words stand for, and for single bits. */
module Arithmetic {
  import opened Words
  import opened ExecuteStage

  const MODULUS := 0x1_0000_0000

  function Pow2(n: nat): (p: nat)
    ensures p >= 1
  {
    if n == 0 then 1 else 2 * Pow2(n - 1)
  }

  /** Bit `i` of a word, by halving. */
  predicate Bit(w: Word, i: nat) { if i == 0 then LowBit(w) else Bit(Half(w), i - 1) }

  /** The two's complement number a word stands for. */
  function Signed(w: Word): int { if Nat(w) < 0x8000_0000 then Nat(w) else Nat(w) - MODULUS }

  // ---- order ----

  predicate Less(a: Word, b: Word) { a < b }

  lemma HalfKeepsLess(a: Word, b: Word)
    requires Less(Half(a), Half(b))
    ensures Less(a, b)
  {
  }

  lemma LowBitMakesLess(a: Word, b: Word)
    requires Half(a) == Half(b) && !LowBit(a) && LowBit(b)
    ensures Less(a, b)
  {
  }

  lemma LessOneWay(a: Word, b: Word)
    requires Less(a, b)
    ensures !Less(b, a)
  {
  }

  lemma NatParts(w: Word)
    ensures Nat(w) == 2 * Nat(Half(w)) + (if LowBit(w) then 1 else 0)
  {
    hide LowBit, Half;
    HalfOfZero();
  }

  lemma {:induction false} NatLess(a: Word, b: Word)
    requires Nat(a) < Nat(b)
    ensures Less(a, b)
    decreases Nat(b)
  {
    hide Half, LowBit, Nat, Less;
    NatParts(a);
    NatParts(b);
    if Nat(Half(a)) < Nat(Half(b)) {
      NatLess(Half(a), Half(b));
      HalfKeepsLess(a, b);
    } else {
      NatInjective(Half(a), Half(b));
      LowBitMakesLess(a, b);
    }
  }

  lemma LessIffNat(a: Word, b: Word)
    ensures Less(a, b) <==> Nat(a) < Nat(b)
  {
    hide Nat, Less;
    if Nat(a) < Nat(b) {
      NatLess(a, b);
    } else if Nat(b) < Nat(a) {
      NatLess(b, a);
      LessOneWay(b, a);
    } else {
      NatInjective(a, b);
      NotBelowItself(a);
    }
  }

  lemma NotBelowItself(a: Word)
    ensures !Less(a, a)
  {
  }

  /** Words are ordered as their numbers. */
  lemma LessIff(a: Word, b: Word)
    ensures a < b <==> Nat(a) < Nat(b)
  {
    hide Nat;
    LessIffNat(a, b);
  }

  // ---- addition ----

  lemma NatOfAllOnes()
    ensures Nat(0xffff_ffff) == MODULUS - 1 && Nat(0x7fff_ffff) == 0x7fff_ffff
  {
    hide Nat;
    NatOfThirtyOnes();
    NatDouble(0x3fff_ffff);
    NatDouble(0x7fff_ffff);
  }

  lemma AllOnesIsLast(w: Word)
    ensures !Less(0xffff_ffff, w) && Succ(0xffff_ffff) == 0
  {
  }

  lemma NatBound(w: Word)
    ensures Nat(w) < MODULUS
  {
    hide Nat, Succ, Less;
    NatOfAllOnes();
    AllOnesIsLast(w);
    if Nat(w) >= MODULUS { NatLess(0xffff_ffff, w); }
  }

  /** Adding one is adding one, modulo 2^32. */
  lemma SuccNat(w: Word)
    ensures Nat(Succ(w)) == (Nat(w) + 1) % MODULUS
  {
    hide Nat, Succ, Less;
    NatOfZero();
    NatOfAllOnes();
    AllOnesIsLast(w);
    NatBound(w);
    if w != 0xffff_ffff {
      NatSucc(w);
      NatBound(Succ(w));
    }
  }

  lemma PredIs(b: Word)
    requires b != 0
    ensures Succ(b - 1) == b && b - 1 != 0xffff_ffff
  {
  }

  lemma SumSucc(a: Word, b: Word)
    ensures Sum(a, Succ(b)) == Succ(Sum(a, b)) && Sum(a, 0) == a
  {
  }

  /** The sum of two words stands for the sum of their numbers, modulo 2^32. */
  lemma {:induction false} SumNat(a: Word, b: Word)
    ensures Nat(Sum(a, b)) == (Nat(a) + Nat(b)) % MODULUS
    decreases Nat(b)
  {
    hide Nat, Sum, Succ;
    NatBound(a);
    NatOfZero();
    if b == 0 {
      SumSucc(a, 0);
    } else {
      PredIs(b);
      NatSucc(b - 1);
      SumNat(a, b - 1);
      SumSucc(a, b - 1);
      SuccNat(Sum(a, b - 1));
    }
  }

  /** Below 2^32 the word of a number stands for that number. */
  lemma {:induction false} NatIndex(n: nat)
    requires n < MODULUS
    ensures Nat(Index(n)) == n
  {
    hide Nat, Succ;
    NatOfZero();
    if n > 0 {
      NatIndex(n - 1);
      SuccNat(Index(n - 1));
    }
  }

  lemma SignBit()
    ensures Nat(0x8000_0000) == 0x8000_0000
  {
    hide Nat, Succ;
    NatOfAllOnes();
    assert Succ(0x7fff_ffff) == 0x8000_0000 by { SignBitIsNext(); }
    NatSucc(0x7fff_ffff);
  }

  lemma SignBitIsNext()
    ensures Succ(0x7fff_ffff) == 0x8000_0000
  {
  }

  lemma FlipIsSum(a: Word)
    ensures a ^ 0x8000_0000 == Sum(a, 0x8000_0000)
  {
  }

  function Flip(a: Word): Word { a ^ 0x8000_0000 }

  lemma FlipNat(a: Word)
    ensures Nat(Flip(a)) == Signed(a) + 0x8000_0000
  {
    hide Nat, Sum;
    FlipIsSum(a);
    SumNat(a, 0x8000_0000);
    SignBit();
    NatBound(a);
  }

  lemma SignedLessFlips(a: Word, b: Word)
    ensures SignedLess(a, b) <==> Less(Flip(a), Flip(b))
  {
  }

  /** The signed comparison compares the signed numbers. */
  lemma SignedLessIff(a: Word, b: Word)
    ensures SignedLess(a, b) <==> Signed(a) < Signed(b)
  {
    hide Signed, SignedLess, Less, Flip;
    SignedLessFlips(a, b);
    LessIffNat(Flip(a), Flip(b));
    FlipNat(a);
    FlipNat(b);
  }

  // ---- the ALU ----

  lemma MinusPlus(a: Word, b: Word)
    ensures (a - b) + b == a
  {
  }

  lemma AluIsMinus(a: Word, b: Word)
    ensures Alu(SUB, a, b) == a - b && Alu(ADD, a, b) == Sum(a, b)
  {
    hide Sum;
  }

  lemma SubUndoes(a: Word, b: Word)
    ensures Sum(Alu(SUB, a, b), b) == a && Alu(ADD, a, b) == Sum(a, b)
  {
    hide Alu;
    MinusPlus(a, b);
    AluIsMinus(a, b);
  }

  /** ADD and SUB add and subtract, modulo 2^32. */
  lemma AluAddsAndSubtracts(a: Word, b: Word)
    ensures Nat(Alu(ADD, a, b)) == (Nat(a) + Nat(b)) % MODULUS
    ensures Nat(Alu(SUB, a, b)) == (Nat(a) - Nat(b)) % MODULUS
  {
    hide Nat, Sum, Alu;
    SubUndoes(a, b);
    SumNat(a, b);
    SumNat(Alu(SUB, a, b), b);
    NatBound(a);
    NatBound(b);
    NatBound(Alu(SUB, a, b));
  }

  lemma AndHalves(a: Word, b: Word)
    ensures Half(Alu(AND, a, b)) == Alu(AND, Half(a), Half(b))
    ensures LowBit(Alu(AND, a, b)) <==> LowBit(a) && LowBit(b)
  {
    assert Half(a & b) == Half(a) & Half(b) && (LowBit(a & b) <==> LowBit(a) && LowBit(b));
  }

  /** AND acts on each bit by itself. */
  lemma {:induction false} AndBits(a: Word, b: Word, i: nat)
    ensures Bit(Alu(AND, a, b), i) <==> Bit(a, i) && Bit(b, i)
    decreases i
  {
    hide Half, LowBit, Alu;
    AndHalves(a, b);
    if i > 0 { AndBits(Half(a), Half(b), i - 1); }
  }

  lemma OrHalves(a: Word, b: Word)
    ensures Half(Alu(OR, a, b)) == Alu(OR, Half(a), Half(b))
    ensures LowBit(Alu(OR, a, b)) <==> LowBit(a) || LowBit(b)
  {
    assert Half(a | b) == Half(a) | Half(b) && (LowBit(a | b) <==> LowBit(a) || LowBit(b));
  }

  /** OR acts on each bit by itself. */
  lemma {:induction false} OrBits(a: Word, b: Word, i: nat)
    ensures Bit(Alu(OR, a, b), i) <==> Bit(a, i) || Bit(b, i)
    decreases i
  {
    hide Half, LowBit, Alu;
    OrHalves(a, b);
    if i > 0 { OrBits(Half(a), Half(b), i - 1); }
  }

  lemma XorHalves(a: Word, b: Word)
    ensures Half(Alu(XOR, a, b)) == Alu(XOR, Half(a), Half(b))
    ensures LowBit(Alu(XOR, a, b)) <==> LowBit(a) != LowBit(b)
  {
    assert Half(a ^ b) == Half(a) ^ Half(b) && (LowBit(a ^ b) <==> LowBit(a) != LowBit(b));
  }

  /** XOR acts on each bit by itself. */
  lemma {:induction false} XorBits(a: Word, b: Word, i: nat)
    ensures Bit(Alu(XOR, a, b), i) <==> Bit(a, i) != Bit(b, i)
    decreases i
  {
    hide Half, LowBit, Alu;
    XorHalves(a, b);
    if i > 0 { XorBits(Half(a), Half(b), i - 1); }
  }

  /** Words with the same bits are the same. */
  lemma {:induction false} BitsDecide(a: Word, b: Word)
    requires forall i: nat :: Bit(a, i) == Bit(b, i)
    ensures a == b
    decreases Nat(a) + Nat(b)
  {
    hide Half, LowBit, Nat;
    assert Bit(a, 0) == Bit(b, 0);
    NatParts(a);
    NatParts(b);
    if a == 0 && b == 0 {
    } else {
      SomePositive(a, b);
      forall i: nat
        ensures Bit(Half(a), i) == Bit(Half(b), i)
      {
        assert Bit(a, i + 1) == Bit(b, i + 1);
      }
      BitsDecide(Half(a), Half(b));
      SameHalves(a, b);
    }
  }

  lemma SomePositive(a: Word, b: Word)
    requires a != 0 || b != 0
    ensures Nat(a) + Nat(b) > 0
  {
    if a != 0 { NatPositive(a); } else { NatPositive(b); }
  }

  function Right(a: Word, k: Word): Word
    requires k < 32
  {
    a >> k
  }

  function Left(a: Word, k: Word): Word
    requires k < 32
  {
    a << k
  }

  // The solver knows shifts by a constant; hence the cases.

  lemma RightMoves(a: Word, k: Word)
    requires 1 <= k <= 31
    ensures a >> k == (a >> (k - 1)) >> 1
  {
    if k == 1 {} else if k == 2 {} else if k == 3 {} else if k == 4 {} else if k == 5 {} else if k == 6 {} else
    if k == 7 {} else if k == 8 {} else if k == 9 {} else if k == 10 {} else if k == 11 {} else if k == 12 {} else
    if k == 13 {} else if k == 14 {} else if k == 15 {} else if k == 16 {} else if k == 17 {} else
    if k == 18 {} else if k == 19 {} else if k == 20 {} else if k == 21 {} else if k == 22 {} else
    if k == 23 {} else if k == 24 {} else if k == 25 {} else if k == 26 {} else if k == 27 {} else
    if k == 28 {} else if k == 29 {} else if k == 30 {} else {}
  }

  lemma LeftMoves(a: Word, k: Word)
    requires 1 <= k <= 31
    ensures a << k == (a << (k - 1)) << 1
  {
    if k == 1 {} else if k == 2 {} else if k == 3 {} else if k == 4 {} else if k == 5 {} else if k == 6 {} else
    if k == 7 {} else if k == 8 {} else if k == 9 {} else if k == 10 {} else if k == 11 {} else if k == 12 {} else
    if k == 13 {} else if k == 14 {} else if k == 15 {} else if k == 16 {} else if k == 17 {} else
    if k == 18 {} else if k == 19 {} else if k == 20 {} else if k == 21 {} else if k == 22 {} else
    if k == 23 {} else if k == 24 {} else if k == 25 {} else if k == 26 {} else if k == 27 {} else
    if k == 28 {} else if k == 29 {} else if k == 30 {} else {}
  }

  lemma NoShift(a: Word)
    ensures Right(a, 0) == a && Left(a, 0) == a
  {
  }

  lemma DoubleIsSum(a: Word)
    ensures a << 1 == Sum(a, a)
  {
  }

  lemma RightStep(a: Word, k: Word)
    requires 1 <= k <= 31
    ensures Right(a, k) == Half(Right(a, k - 1))
  {
    RightMoves(a, k);
  }

  lemma LeftStep(a: Word, k: Word)
    requires 1 <= k <= 31
    ensures Left(a, k) == Sum(Left(a, k - 1), Left(a, k - 1))
  {
    hide Sum;
    LeftMoves(a, k);
    DoubleIsSum(a << (k - 1));
  }

  lemma PredBelow(k: Word)
    requires 0 < k < 32
    ensures 1 <= k <= 31 && k - 1 < 32
  {
  }

  lemma HalfPower(x: nat, y: nat)
    requires y >= 1
    ensures (x / y) / 2 == x / (2 * y)
  {
    var q, r := x / y, x % y;
    assert x == y * q + r;
    var p, s := q / 2, q % 2;
    assert x == (2 * y) * p + (y * s + r) by { assert y * q == y * (2 * p + s); }
    assert 0 <= y * s + r < 2 * y;
    Quotient(x, 2 * y, p, y * s + r);
  }

  lemma Quotient(x: int, d: int, q: int, r: int)
    requires d > 0 && x == d * q + r && 0 <= r < d
    ensures x / d == q && x % d == r
  {
    var e := x / d - q;
    assert d * e == r - x % d by { assert x == d * (x / d) + x % d; }
    assert -d < d * e < d;
    assert e == 0;
  }

  lemma {:induction false} RightNat(a: Word, k: Word)
    requires k < 32
    ensures Nat(Right(a, k)) == Nat(a) / Pow2(Nat(k))
    decreases Nat(k)
  {
    hide Nat, Succ, Right;
    NatOfZero();
    NoShift(a);
    if k != 0 {
      PredBelow(k);
      PredIs(k);
      NatSucc(k - 1);
      RightNat(a, k - 1);
      RightStep(a, k);
      HalfNat(Right(a, k - 1));
      HalfPower(Nat(a), Pow2(Nat(k - 1)));
    }
  }

  lemma HalfNat(w: Word)
    ensures Nat(Half(w)) == Nat(w) / 2
  {
    hide LowBit;
    if w == 0 { HalfOfZero(); }
  }

  lemma TwiceModulo(x: nat)
    ensures (x % MODULUS + x % MODULUS) % MODULUS == (2 * x) % MODULUS
  {
  }

  lemma Reorder(x: nat, p: nat)
    ensures x * (2 * p) == 2 * (x * p)
  {
  }

  lemma {:induction false} LeftNat(a: Word, k: Word)
    requires k < 32
    ensures Nat(Left(a, k)) == (Nat(a) * Pow2(Nat(k))) % MODULUS
    decreases Nat(k)
  {
    hide Nat, Succ, Left;
    NatOfZero();
    NoShift(a);
    NatBound(a);
    if k != 0 {
      PredBelow(k);
      PredIs(k);
      NatSucc(k - 1);
      LeftNat(a, k - 1);
      LeftStep(a, k);
      SumNat(Left(a, k - 1), Left(a, k - 1));
      var p := Pow2(Nat(k - 1));
      TwiceModulo(Nat(a) * p);
      Reorder(Nat(a), p);
    }
  }

  /** The shift amount: the low five bits of the second operand. */
  function Amount(b: Word): (k: Word)
    ensures k < 32
  {
    b & 0x1f
  }

  lemma AluShiftsBy(a: Word, b: Word)
    ensures Alu(SRL, a, b) == Right(a, Amount(b)) && Alu(SLL, a, b) == Left(a, Amount(b))
  {
  }

  /** The low `n` bits, for `n` up to 12. */
  function Low(w: Word, n: nat): Word { w & Mask(n) }

  function Mask(n: nat): Word {
    if n == 0 then 0 else if n == 1 then 1 else if n == 2 then 3 else if n == 3 then 7 else if n == 4 then 0xf
    else if n == 5 then 0x1f else if n == 6 then 0x3f else if n == 7 then 0x7f else if n == 8 then 0xff
    else if n == 9 then 0x1ff else if n == 10 then 0x3ff else if n == 11 then 0x7ff else 0xfff
  }

  lemma LowHalves(w: Word, n: nat)
    requires 1 <= n <= 12
    ensures Half(Low(w, n)) == Low(Half(w), n - 1) && LowBit(Low(w, n)) == LowBit(w)
  {
  }

  lemma LowNone(w: Word)
    ensures Low(w, 0) == 0
  {
  }

  lemma LowPart(x: nat, bit: nat, p: nat)
    requires bit <= 1 && p >= 1
    ensures (2 * x + bit) % (2 * p) == 2 * (x % p) + bit
  {
    var q, r := x / p, x % p;
    assert x == p * q + r;
    assert 2 * x + bit == (2 * p) * q + (2 * r + bit) by { assert 2 * (p * q) == (2 * p) * q; }
    Quotient(2 * x + bit, 2 * p, q, 2 * r + bit);
  }

  /** They stand for the remainder by 2^n. */
  lemma {:induction false} LowNat(w: Word, n: nat)
    requires n <= 12
    ensures Nat(Low(w, n)) == Nat(w) % Pow2(n)
    decreases n
  {
    hide Nat, Half, LowBit, Low;
    if n == 0 {
      LowNone(w);
      NatOfZero();
    } else {
      LowHalves(w, n);
      LowNat(Half(w), n - 1);
      NatParts(w);
      NatParts(Low(w, n));
      LowPart(Nat(Half(w)), if LowBit(w) then 1 else 0, Pow2(n - 1));
    }
  }

  lemma AmountIsLow(b: Word)
    ensures Amount(b) == Low(b, 5) && Pow2(5) == 32
  {
  }

  /** It is the remainder of the second operand by 32. */
  lemma AmountNat(b: Word)
    ensures Nat(Amount(b)) == Nat(b) % 32
  {
    hide Nat, Amount, Low, Pow2;
    AmountIsLow(b);
    LowNat(b, 5);
  }

  /** SRL divides by a power of two and SLL multiplies by one, modulo 2^32; the exponent is the second operand
      modulo 32. */
  lemma AluShifts(a: Word, b: Word)
    ensures Nat(Alu(SRL, a, b)) == Nat(a) / Pow2(Nat(b) % 32)
    ensures Nat(Alu(SLL, a, b)) == (Nat(a) * Pow2(Nat(b) % 32)) % MODULUS
  {
    hide Nat, Alu, Right, Left, Pow2;
    AluShiftsBy(a, b);
    AmountNat(b);
    RightNat(a, Amount(b));
    LeftNat(a, Amount(b));
  }
}
