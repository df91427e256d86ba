/** What the parts of the programmer's machine mean: memory, the peripherals' windows, traps and the control registers
    as a program reads them. */
module MachineLaws {
  import opened Words
  import opened RegisterFile
  import opened ExecuteStage
  import opened Core
  import opened Sequential
  import opened Isa
  import opened Decoding
  import opened Arithmetic

  // ---- addresses and memory ----

  lemma NextIsSum(a: Word)
    ensures Next(a) == Sum(a, 4) && Index(4) == 4
  {
  }

  /** The next instruction is four bytes on, modulo 2^32. */
  lemma NextNat(a: Word)
    ensures Nat(Next(a)) == (Nat(a) + 4) % MODULUS
  {
    hide Nat, Next, Sum, Index;
    NextIsSum(a);
    NatIndex(4);
    SumNat(a, 4);
  }

  lemma EvenHalves(a: Word)
    ensures Half(Even(a)) == Half(a) && !LowBit(Even(a))
  {
  }

  /** A jump target is made even downwards. */
  lemma EvenNat(a: Word)
    ensures Nat(Even(a)) == Nat(a) - Nat(a) % 2
  {
    hide Nat, Half, LowBit, Even;
    EvenHalves(a);
    NatParts(a);
    NatParts(Even(a));
  }

  lemma WordIndexHalves(a: Word)
    ensures WordIndex(a) == Half(Half(a))
  {
  }

  lemma WordIndexNat(a: Word)
    ensures Nat(WordIndex(a)) == Nat(a) / 4
  {
    hide Nat, Half, LowBit, WordIndex;
    WordIndexHalves(a);
    HalfNat(a);
    HalfNat(Half(a));
  }

  /** Memory holds one word for each four addresses: a read sees the last write to its own word and no other. */
  lemma RamReadAfterWrite(ram: Ram, a: Word, v: Word, b: Word)
    ensures RamRead(RamWrite(ram, a, v), b) == if Nat(a) / 4 == Nat(b) / 4 then v else RamRead(ram, b)
  {
    hide Nat, WordIndex;
    WordIndexNat(a);
    WordIndexNat(b);
    if Nat(a) / 4 == Nat(b) / 4 { NatInjective(WordIndex(a), WordIndex(b)); }
  }

  /** The addresses that go to a peripheral: GPIO, UART, CAN, SPI, I2C, timer and ADC have 256 bytes each. */
  lemma DeviceWindows(a: Word)
    ensures IsDevice(a) <==>
      || 0x4000_0000 <= a <= 0x4000_00ff || 0x4000_1000 <= a <= 0x4000_10ff || 0x4000_3000 <= a <= 0x4000_30ff
      || 0x4000_4000 <= a <= 0x4000_40ff || 0x4000_4400 <= a <= 0x4000_44ff || 0x4000_5000 <= a <= 0x4000_50ff
      || 0x4000_6000 <= a <= 0x4000_60ff
  {
    assert a & 0xffff_ff00 == 0x4000_0000 <==> 0x4000_0000 <= a <= 0x4000_00ff;
    assert a & 0xffff_ff00 == 0x4000_1000 <==> 0x4000_1000 <= a <= 0x4000_10ff;
    assert a & 0xffff_ff00 == 0x4000_3000 <==> 0x4000_3000 <= a <= 0x4000_30ff;
    assert a & 0xffff_ff00 == 0x4000_4000 <==> 0x4000_4000 <= a <= 0x4000_40ff;
    assert a & 0xffff_ff00 == 0x4000_4400 <==> 0x4000_4400 <= a <= 0x4000_44ff;
    assert a & 0xffff_ff00 == 0x4000_5000 <==> 0x4000_5000 <= a <= 0x4000_50ff;
    assert a & 0xffff_ff00 == 0x4000_6000 <==> 0x4000_6000 <= a <= 0x4000_60ff;
  }

  // ---- conditions and updates ----

  /** The branch conditions compare words as numbers: LT and GE as signed, LTU and GEU as unsigned ones. */
  lemma ConditionsMean(a: Word, b: Word)
    ensures Holds(EQ, a, b) <==> Nat(a) == Nat(b)
    ensures Holds(NE, a, b) <==> Nat(a) != Nat(b)
    ensures Holds(LT, a, b) <==> Signed(a) < Signed(b)
    ensures Holds(GE, a, b) <==> Signed(a) >= Signed(b)
    ensures Holds(LTU, a, b) <==> Nat(a) < Nat(b)
    ensures Holds(GEU, a, b) <==> Nat(a) >= Nat(b)
  {
    hide Nat, SignedLess, Signed;
    SignedLessIff(a, b);
    LessIff(a, b);
    LessIff(b, a);
    LessOrEqualIff(a, b);
    if Nat(a) == Nat(b) { NatInjective(a, b); }
  }

  lemma LessOrEqualIff(a: Word, b: Word)
    ensures b <= a <==> !(a < b)
  {
  }

  lemma ClearHalves(p: Word, a: Word)
    ensures Half(CsrUpdate(ReadClear, p, a)) == CsrUpdate(ReadClear, Half(p), Half(a))
    ensures LowBit(CsrUpdate(ReadClear, p, a)) <==> LowBit(p) && !LowBit(a)
  {
    assert Half(p & !a) == Half(p) & !Half(a) && (LowBit(p & !a) <==> LowBit(p) && !LowBit(a));
  }

  lemma SetIsOr(p: Word, a: Word)
    ensures CsrUpdate(ReadSet, p, a) == Alu(OR, p, a)
  {
    assert Alu(OR, p, a) == p | a;
  }

  /** CSRRW writes its operand, CSRRS sets and CSRRC clears the bits selected by it. */
  lemma {:induction false} UpdatesMean(p: Word, a: Word, i: nat)
    ensures CsrUpdate(ReadWrite, p, a) == a
    ensures Bit(CsrUpdate(ReadSet, p, a), i) <==> Bit(p, i) || Bit(a, i)
    ensures Bit(CsrUpdate(ReadClear, p, a), i) <==> Bit(p, i) && !Bit(a, i)
    decreases i
  {
    hide Half, LowBit, Alu, CsrUpdate;
    WritesOperand(p, a);
    SetIsOr(p, a);
    OrBits(p, a, i);
    ClearHalves(p, a);
    if i > 0 { UpdatesMean(Half(p), Half(a), i - 1); }
  }

  lemma WritesOperand(p: Word, a: Word)
    ensures CsrUpdate(ReadWrite, p, a) == a
  {
  }

  // ---- traps, as a program sees them ----

  /** What a program reads from a control register. */
  function Reads(m: Arch, env: Env, name: CsrName): Word { CsrRead(m.csrs, env.mip, env.mtime, name) }

  /** `v` is `w` with bit 3 (MIE) and bit 7 (MPIE) as given. */
  predicate EnablesAre(v: Word, w: Word, mie: bool, mpie: bool) {
    && (v & 8 != 0 <==> mie) && (v & 0x80 != 0 <==> mpie) && v & 0xffff_ff77 == w & 0xffff_ff77
  }

  lemma EnablesSet(w: Word, mie: bool, mpie: bool)
    ensures EnablesAre(WithEnables(w, mie, mpie), w, mie, mpie)
  {
  }

  lemma MieBit(w: Word)
    ensures Flag(w, 3) <==> w & 8 != 0
  {
  }

  lemma MpieBit(w: Word)
    ensures Flag(w, 7) <==> w & 0x80 != 0
  {
  }

  /** From `m` to `n` a trap with this cause has been entered: control goes to where `mtvec` says, `mepc` and `mcause`
      read the interrupted PC and the cause, MIE moves to MPIE and is cleared, and no other control register reads
      differently. */
  predicate Trapped(m: Arch, n: Arch, cause: Word, env: Env) {
    && n.pc == Reads(m, env, MTvec) && Reads(n, env, MEpc) == m.pc && Reads(n, env, MCause) == cause
    && EnablesAre(Reads(n, env, MStatus), Reads(m, env, MStatus), false, Reads(m, env, MStatus) & 8 != 0)
    && forall name :: name != MEpc && name != MCause && name != MStatus ==> Reads(n, env, name) == Reads(m, env, name)
  }

  lemma EntersTrap(m: Arch, n: Arch, cause: Word, env: Env)
    requires n.pc == m.csrs.mtvec && n.csrs == EnterTrap(m.csrs, m.csrs, m.pc, cause)
    ensures Trapped(m, n, cause, env)
  {
    hide WithEnables, Flag, EnablesAre;
    EnablesSet(m.csrs.mstatus, false, Flag(m.csrs.mstatus, 3));
    MieBit(m.csrs.mstatus);
  }

  /** An interrupt between two instructions. */
  lemma InterruptMeans(m: Arch, cause: Word, env: Env)
    ensures var n := Interrupt(m, cause); Trapped(m, n, cause, env) && n.regs == m.regs && n.ram == m.ram
  {
    hide EnterTrap, Trapped;
    EntersTrap(m, Interrupt(m, cause), cause, env);
  }

  /** An instruction word that raises an illegal-instruction trap enters it with cause 2. */
  lemma IllegalTraps(w: Word, m: Arch, env: Env)
    requires Decode(w).None? && !SilentlyAccepted(w)
    ensures Trapped(m, StepWord(w, m, env), 2, env) && StepWord(w, m, env).ram == m.ram
  {
    hide Execute, Decode, SilentlyAccepted, EnterTrap, LeaveTrap, Trapped, Read, Write, CsrRead, CsrOf, CsrWrite, Next;
    var a, b, c := Read(m.regs, Rs1(w)), Read(m.regs, Rs2(w)), CsrRead(m.csrs, env.mip, env.mtime, CsrOf(w));
    IllegalIff(w, m.pc, a, b, c, m.csrs.mepc, env.deviceData);
    EffectsAreOrderly(w, m.pc, a, b, c, m.csrs.mepc, env.deviceData);
    EntersTrap(m, StepWord(w, m, env), 2, env);
  }

  lemma EcallExecutes(pc: Word, a: Word, b: Word, c: Word, mepc: Word, d: Word)
    ensures Execute(0x73, pc, a, b, c, mepc, d) == IDLE.(trap := true, cause := 11)
  {
    assert FormatOf(0x73) == SystemF && Funct3(0x73) == 0 && Upper12(0x73) == 0;
  }

  /** ECALL enters a trap with cause 11. */
  lemma EcallTraps(m: Arch, env: Env)
    ensures var n := StepWord(0x73, m, env); Trapped(m, n, 11, env) && n.regs == m.regs && n.ram == m.ram
  {
    hide Execute, EnterTrap, LeaveTrap, Trapped, Read, Write, CsrRead, CsrOf, CsrWrite, Next, Rs1, Rs2;
    var a, b, c := Read(m.regs, Rs1(0x73)), Read(m.regs, Rs2(0x73)), CsrRead(m.csrs, env.mip, env.mtime, CsrOf(0x73));
    EcallExecutes(m.pc, a, b, c, m.csrs.mepc, env.deviceData);
    WritesNothing(m.regs);
    EntersTrap(m, StepWord(0x73, m, env), 11, env);
  }

  lemma WritesNothing(regs: Regs)
    ensures Write(regs, false, 0, 0) == regs
  {
  }

  lemma MretExecutes(pc: Word, a: Word, b: Word, c: Word, mepc: Word, d: Word)
    ensures Execute(0x3020_0073, pc, a, b, c, mepc, d) == IDLE.(jump := true, target := mepc, mret := true)
  {
    assert FormatOf(0x3020_0073) == SystemF && Funct3(0x3020_0073) == 0 && Upper12(0x3020_0073) == 0x302;
  }

  /** MRET goes to where `mepc` says, moves MPIE to MIE and sets it; no other control register reads differently. */
  lemma MretReturns(m: Arch, env: Env)
    ensures var n := StepWord(0x3020_0073, m, env);
      && n.pc == Reads(m, env, MEpc) && n.regs == m.regs && n.ram == m.ram
      && EnablesAre(Reads(n, env, MStatus), Reads(m, env, MStatus), Reads(m, env, MStatus) & 0x80 != 0, true)
      && forall name :: name != MStatus ==> Reads(n, env, name) == Reads(m, env, name)
  {
    hide Execute, WithEnables, Flag, EnablesAre, Read, Write, CsrOf, CsrWrite, EnterTrap, Next, Rs1, Rs2;
    var w: Word := 0x3020_0073;
    MretExecutes(m.pc, Read(m.regs, Rs1(w)), Read(m.regs, Rs2(w)), CsrRead(m.csrs, env.mip, env.mtime, CsrOf(w)),
        m.csrs.mepc, env.deviceData);
    WritesNothing(m.regs);
    EnablesSet(m.csrs.mstatus, Flag(m.csrs.mstatus, 7), true);
    MpieBit(m.csrs.mstatus);
  }
}
