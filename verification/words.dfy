/** 32-bit words, their fields, and the number a word stands for.

    Registers, addresses and instruction words are `bv32`, so addition and
    subtraction wrap exactly as the hardware's do. */
module Words {

  type Word = bv32
  type RegId = bv5

  /** The thirty-two architectural registers. */
  type Regs = s: seq<Word> | |s| == 32 witness seq(32, _ => 0 as Word)

  /** Addition modulo 2^32. */
  function Sum(a: Word, b: Word): Word { a + b }

  /** An address with bit 0 cleared. */
  function Even(a: Word): Word { a & 0xffff_fffe }

  /** The address of the following instruction. */
  function Next(pc: Word): Word { pc + 4 }

  lemma NextDiffers(pc: Word)
    ensures Next(pc) != pc && Next(Next(pc)) != pc
  {
  }

  /** Set bit `i` of a word, or not. */
  function Flag(w: Word, i: bv5): bool {
    (w >> i) & 1 == 1
  }

  /** Two's complement "less than". */
  predicate SignedLess(a: Word, b: Word) {
    (a ^ 0x8000_0000) < (b ^ 0x8000_0000)
  }

  predicate AtLeast(a: Word, b: Word) { a >= b }

  /** The index of the memory word that holds the byte at `a`. */
  function WordIndex(a: Word): Word { a >> 2 }

  predicate Aligned(a: Word) { a & 3 == 0 }

  function Half(w: Word): Word { w >> 1 }

  predicate LowBit(w: Word) { w & 1 == 1 }

  /** The natural number a word stands for, by halving. */
  function Nat(w: Word): (n: nat)
    decreases w
  {
    if w == 0 then 0 else 2 * Nat(Half(w)) + (if LowBit(w) then 1 else 0)
  }

  function Succ(w: Word): Word { w + 1 }

  /** The word of a natural number: one more `+ 1` each time, so it wraps at 2^32. */
  function Index(n: nat): Word {
    if n == 0 then 0 else Succ(Index(n - 1))
  }

  lemma HalvesAfterOdd(w: Word)
    requires w != 0xffff_ffff && LowBit(w)
    ensures Half(Succ(w)) == Succ(Half(w)) && !LowBit(Succ(w)) && Succ(w) != 0
    ensures w != 0 && Half(w) != 0xffff_ffff
  {
  }

  lemma HalvesAfterEven(w: Word)
    requires !LowBit(w)
    ensures Half(Succ(w)) == Half(w) && LowBit(Succ(w)) && Succ(w) != 0
  {
  }

  lemma NatSuccOdd(w: Word)
    requires w != 0xffff_ffff && LowBit(w)
    requires Nat(Succ(Half(w))) == Nat(Half(w)) + 1
    ensures Nat(Succ(w)) == Nat(w) + 1
  {
    hide Half, LowBit, Succ;
    HalvesAfterOdd(w);
  }

  lemma NatSuccEven(w: Word)
    requires !LowBit(w)
    ensures Nat(Succ(w)) == Nat(w) + 1
  {
    hide Half, LowBit, Succ;
    HalvesAfterEven(w);
    HalfOfZero();
  }

  lemma HalfOfZero()
    ensures Half(0) == 0 && !LowBit(0)
  {
  }

  /** Adding one is adding one, except at the all-ones word. */
  lemma {:induction false} NatSucc(w: Word)
    requires w != 0xffff_ffff
    ensures Nat(Succ(w)) == Nat(w) + 1
    decreases Nat(w)
  {
    hide Half, LowBit, Succ;
    if LowBit(w) {
      HalvesAfterOdd(w);
      NatSucc(Half(w));
      NatSuccOdd(w);
    } else {
      NatSuccEven(w);
    }
  }

  lemma NatDouble(w: Word)
    requires w < 0x8000_0000
    ensures Nat((w << 1) | 1) == 2 * Nat(w) + 1
  {
    hide Half, LowBit, Succ;
    DoubleHalves(w);
  }

  lemma DoubleHalves(w: Word)
    requires w < 0x8000_0000
    ensures Half((w << 1) | 1) == w && LowBit((w << 1) | 1) && (w << 1) | 1 != 0
  {
  }

  lemma NatOfThirtyOnes()
    ensures Nat(0x3fff_ffff) == 0x3fff_ffff
  {
    hide Nat;
    assert Nat(0) == 0 by { NatOfZero(); }
    NatDouble(0); NatDouble(1); NatDouble(3); NatDouble(7); NatDouble(0xf);
    NatDouble(0x1f); NatDouble(0x3f); NatDouble(0x7f); NatDouble(0xff); NatDouble(0x1ff);
    NatDouble(0x3ff); NatDouble(0x7ff); NatDouble(0xfff); NatDouble(0x1fff); NatDouble(0x3fff);
    NatDouble(0x7fff); NatDouble(0xffff); NatDouble(0x1_ffff); NatDouble(0x3_ffff); NatDouble(0x7_ffff);
    NatDouble(0xf_ffff); NatDouble(0x1f_ffff); NatDouble(0x3f_ffff); NatDouble(0x7f_ffff); NatDouble(0xff_ffff);
    NatDouble(0x1ff_ffff); NatDouble(0x3ff_ffff); NatDouble(0x7ff_ffff); NatDouble(0xfff_ffff); NatDouble(0x1fff_ffff);
  }

  lemma NatOfZero()
    ensures Nat(0) == 0
  {
  }

  /** Below 2^30 the word of an index stands for that index, and fits an instruction address. */
  lemma {:induction false} IndexNat(n: nat)
    requires n < 0x4000_0000
    ensures Nat(Index(n)) == n
    ensures Index(n) <= 0x3fff_ffff
  {
    if n > 0 {
      IndexNat(n - 1);
      NatOfThirtyOnes();
      StaysBelow(Index(n - 1));
      NatSucc(Index(n - 1));
    }
  }

  lemma StaysBelow(w: Word)
    requires w <= 0x3fff_ffff
    ensures w != 0xffff_ffff
    ensures w != 0x3fff_ffff ==> Succ(w) <= 0x3fff_ffff
  {
  }

  lemma SameHalves(a: Word, b: Word)
    requires Half(a) == Half(b) && LowBit(a) == LowBit(b)
    ensures a == b
  {
  }

  lemma {:induction false} NatPositive(a: Word)
    requires a != 0
    ensures Nat(a) > 0
    decreases a
  {
    if !LowBit(a) {
      EvenHalf(a);
      NatPositive(Half(a));
    }
  }

  lemma EvenHalf(a: Word)
    requires a != 0 && !LowBit(a)
    ensures Half(a) != 0 && Half(a) < a
  {
  }

  /** Different words stand for different numbers. */
  lemma {:induction false} NatInjective(a: Word, b: Word)
    requires Nat(a) == Nat(b)
    ensures a == b
    decreases Nat(a)
  {
    hide Half, LowBit, Succ;
    if a != 0 { NatPositive(a); }
    if b != 0 { NatPositive(b); }
    if a != 0 && b != 0 {
      NatInjective(Half(a), Half(b));
      SameHalves(a, b);
    }
  }
}
