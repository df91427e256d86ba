/** The assembly language as its user knows it: what operands stand for and what a written instruction does. Nothing
    here is encoded, and nothing goes through the assembler. */
module SourceMachine {
  import opened Words
  import opened RegisterFile
  import opened ExecuteStage
  import opened Core
  import opened Sequential
  import opened Isa
  import opened Decoding
  import opened Assembler
  import opened Arithmetic

  // ---- operands ----

  /** A label's address in pages of 4 KiB, to the nearest. */
  function Upper(addr: Word): int { (Nat(addr) + 0x800) / 0x1000 % 0x10_0000 }

  /** What is left of it, between -0x800 and 0x7ff. */
  function Rest(addr: Word): int { (Nat(addr) + 0x800) % 0x1000 - 0x800 }

  /** The word an operand stands for: a number modulo 2^32, a macro's value, or a part of a label's address. */
  function Value(o: Operand, macros: Macros, labels: Labels): Word {
    match o
    case Number(v) => Index(v % MODULUS)
    case Name(n) => if IsMacro(macros, n) then macros[UpperCase(n)] else 0
    case Hi(l) => if l in labels then Index(Upper(labels[l])) else 0
    case Lo(l) => if l in labels then Index(Rest(labels[l]) % MODULUS) else 0
  }

  /** It stands for one: numbers from -2^31 up to 3 * 2^31 - 1 are taken, names must be macros and labels defined. */
  predicate HasValue(o: Operand, macros: Macros, labels: Labels) {
    match o
    case Number(v) => -0x8000_0000 <= v < 0x1_8000_0000
    case Name(n) => IsMacro(macros, n)
    case Hi(l) => l in labels
    case Lo(l) => l in labels
  }

  /** A jump operand that names a label. */
  predicate IsLabel(o: Operand, macros: Macros, labels: Labels) {
    o.Name? && !IsMacro(macros, o.text) && o.text in labels
  }

  /** Where a jump at `pc` goes: to the label, or by the offset. */
  function Goal(o: Operand, pc: Word, macros: Macros, labels: Labels): Word {
    if IsLabel(o, macros, labels) then labels[o.text] else Sum(pc, Value(o, macros, labels))
  }

  function CsrNamed(name: string): CsrName {
    if name == "MSTATUS" then MStatus
    else if name == "MIE" then Mie
    else if name == "MTVEC" then MTvec
    else if name == "MEPC" then MEpc
    else if name == "MCAUSE" then MCause
    else if name == "MIP" then Mip
    else if name == "MTIME" then MTime
    else if name == "MTIMECMP" then MTimeCmp
    else if name == "IRQPRIO" then IrqPriority
    else if name == "IRQACK" then IrqAck
    else NoCsr
  }

  /** The control register an operand stands for: by macro, by name or by number. */
  function CsrMeant(o: Operand, macros: Macros): CsrName {
    match o
    case Number(v) => if 0 <= v < 0x1000 then CsrAt(Index(v)) else NoCsr
    case Name(n) => if IsMacro(macros, n) then CsrAt(macros[UpperCase(n)]) else CsrNamed(UpperCase(n))
    case Hi(_) => NoCsr
    case Lo(_) => NoCsr
  }

  predicate NamesCsr(o: Operand, macros: Macros) {
    match o
    case Number(v) => 0 <= v < 0x1000
    case Name(n) => IsMacro(macros, n) || CsrNamed(UpperCase(n)) != NoCsr || UpperCase(n) == "MSCRATCH"
    case Hi(_) => false
    case Lo(_) => false
  }

  // ---- instructions ----

  /** One written instruction, on registers, memory and control registers. */
  function SourceStep(s: Source, m: Arch, env: Env, macros: Macros, labels: Labels): Arch {
    var next := m.(pc := Next(m.pc));
    match s
    case Nop => next
    case SAddi(rd, rs1, imm) => Put(next, rd, Sum(Read(m.regs, rs1), Value(imm, macros, labels)))
    case SArith(op, rd, rs1, rs2) => Put(next, rd, Alu(op, Read(m.regs, rs1), Read(m.regs, rs2)))
    case SLui(rd, imm) => Put(next, rd, Value(imm, macros, labels) << 12)
    case SAuipc(rd, imm) => Put(next, rd, Sum(m.pc, Value(imm, macros, labels) << 12))
    case SLw(rd, base, imm) =>
      var addr := Sum(Read(m.regs, base), Value(imm, macros, labels));
      Put(next, rd, if IsDevice(addr) then env.deviceData else RamRead(m.ram, addr))
    case SSw(src, base, imm) =>
      var addr := Sum(Read(m.regs, base), Value(imm, macros, labels));
      if IsDevice(addr) then next else next.(ram := RamWrite(m.ram, addr, Read(m.regs, src)))
    case SBranch(cond, rs1, rs2, target) =>
      if Holds(cond, Read(m.regs, rs1), Read(m.regs, rs2)) then m.(pc := Goal(target, m.pc, macros, labels)) else next
    case SJal(rd, target) => Put(next, rd, Next(m.pc)).(pc := Goal(target, m.pc, macros, labels))
    case SJalr(rd, rs1, imm) =>
      Put(next, rd, Next(m.pc)).(pc := Even(Sum(Read(m.regs, rs1), Value(imm, macros, labels))))
    case SCsr(kind, rd, csr, rs1) =>
      var name, a := CsrMeant(csr, macros), Read(m.regs, rs1);
      var prior := CsrRead(m.csrs, env.mip, env.mtime, name);
      Put(if Updates(kind, rs1) then next.(csrs := CsrWrite(m.csrs, name, CsrUpdate(kind, prior, a))) else next, rd,
          prior)
    case SEcall => m.(pc := m.csrs.mtvec, csrs := EnterTrap(m.csrs, m.csrs, m.pc, CAUSE_ECALL))
    case SMret => m.(pc := m.csrs.mepc, csrs := LeaveTrap(m.csrs))
  }

  function Put(m: Arch, rd: RegId, v: Word): Arch { m.(regs := Write(m.regs, true, rd, v)) }

  /** CSRRW always writes, the others unless their operand is x0. */
  predicate Updates(kind: CsrKind, rs1: RegId) { kind == ReadWrite || rs1 != 0 }

  /** What a written instruction shows the outside. */
  function SourceAccesses(s: Source, m: Arch, env: Env, macros: Macros, labels: Labels): seq<Access> {
    match s
    case SLw(rd, base, imm) =>
      var addr := Sum(Read(m.regs, base), Value(imm, macros, labels));
      [if IsDevice(addr) then DeviceRead(addr, env.deviceData) else BusRead(addr, RamRead(m.ram, addr))]
    case SSw(src, base, imm) =>
      var addr, v := Sum(Read(m.regs, base), Value(imm, macros, labels)), Read(m.regs, src);
      [if IsDevice(addr) then DeviceWrite(addr, v) else BusWrite(addr, v)]
    case SCsr(kind, rd, csr, rs1) =>
      var name, a := CsrMeant(csr, macros), Read(m.regs, rs1);
      var prior := CsrRead(m.csrs, env.mip, env.mtime, name);
      if Updates(kind, rs1) && Aside(name) then [CsrEvent(name, CsrUpdate(kind, prior, a))] else []
    case _ => []
  }

  /** The operands of a written instruction make sense. */
  predicate MakesSense(s: Source, macros: Macros, labels: Labels) {
    match s
    case SAddi(_, _, imm) => HasValue(imm, macros, labels)
    case SLui(_, imm) => HasValue(imm, macros, labels)
    case SAuipc(_, imm) => HasValue(imm, macros, labels)
    case SLw(_, _, imm) => HasValue(imm, macros, labels)
    case SSw(_, _, imm) => HasValue(imm, macros, labels)
    case SJalr(_, _, imm) => HasValue(imm, macros, labels)
    case SBranch(_, _, _, target) => HasValue(target, macros, labels) || IsLabel(target, macros, labels)
    case SJal(_, target) => HasValue(target, macros, labels) || IsLabel(target, macros, labels)
    case SCsr(_, _, csr, _) => NamesCsr(csr, macros)
    case _ => true
  }

  // ---- the assembler reads operands this way ----

  lemma NumberMeans(v: int)
    ensures NumberWord(v).Ok? <==> -0x8000_0000 <= v < 0x1_8000_0000
    ensures NumberWord(v).Ok? ==> NumberWord(v).value == Index(v % MODULUS)
  {
    hide Index;
  }

  lemma ShiftIsHalves(w: Word)
    ensures w >> 12 == Right(w, 12) && Nat(12) == 12 && Pow2(12) == 0x1000
  {
    hide Half, LowBit;
    NatIndex(12);
    assert Index(12) == 12 by { TwelveSteps(); }
    assert Pow2(6) == 64;
  }

  lemma TwelveSteps()
    ensures Index(12) == 12
  {
    assert Index(4) == 4;
    assert Index(8) == 8;
  }

  /** `%hi` is the address in pages, rounded. */
  lemma HiMeans(addr: Word)
    ensures HiPart(addr) == Index(Upper(addr))
  {
    hide Nat, Index, Sum, Right, Pow2, HiPart;
    ShiftIsHalves(Sum(addr, 0x800));
    HiIsShift(addr);
    RightNat(Sum(addr, 0x800), 12);
    SumNat(addr, 0x800);
    assert Nat(0x800) == 0x800 by { PageHalf(); }
    NatBound(addr);
    NatIndex(Upper(addr));
    NatInjective(HiPart(addr), Index(Upper(addr)));
  }

  lemma HiIsShift(addr: Word)
    ensures HiPart(addr) == Sum(addr, 0x800) >> 12
  {
  }

  lemma PageHalf()
    ensures Nat(0x800) == 0x800 && Nat(0x1000) == 0x1000
  {
    hide Nat;
    NatOfZero();
    NatDouble(0); NatDouble(1); NatDouble(3); NatDouble(7); NatDouble(0xf); NatDouble(0x1f); NatDouble(0x3f);
    NatDouble(0x7f); NatDouble(0xff); NatDouble(0x1ff); NatDouble(0x3ff); NatDouble(0x7ff);
    SuccNat(0x7ff);
    SuccNat(0xfff);
  }

  lemma LoIsLow(addr: Word)
    ensures LoPart(addr) == if Less(Low(addr, 12), 0x800) then Low(addr, 12) else Alu(SUB, Low(addr, 12), 0x1000)
  {
    hide Alu;
    LowIsMasked(addr);
    AluIsMinus(addr & 0xfff, 0x1000);
  }

  lemma LowIsMasked(addr: Word)
    ensures Low(addr, 12) == addr & 0xfff
  {
  }

  lemma PowerOfPage()
    ensures Pow2(12) == 0x1000
  {
    assert Pow2(6) == 64;
  }

  /** `%lo` is the rest. */
  lemma LoMeans(addr: Word)
    ensures LoPart(addr) == Index(Rest(addr) % MODULUS)
  {
    hide Nat, Index, LoPart;
    LoNat(addr);
    NatIndex(Rest(addr) % MODULUS);
    NatInjective(LoPart(addr), Index(Rest(addr) % MODULUS));
  }

  lemma LoNat(addr: Word)
    ensures Nat(LoPart(addr)) == Rest(addr) % MODULUS
  {
    hide Nat, Low, Pow2, Alu, LoPart, Less;
    var l := Low(addr, 12);
    LoIsLow(addr);
    LowNat(addr, 12);
    PowerOfPage();
    PageHalf();
    LessIffNat(l, 0x800);
    if Nat(l) >= 0x800 { PageBelow(l); }
    NatBound(addr);
  }

  lemma PageBelow(l: Word)
    requires Nat(l) < 0x1000
    ensures Nat(Alu(SUB, l, 0x1000)) == Nat(l) - 0x1000 + MODULUS
  {
    hide Nat, Alu, Low, Less;
    PageHalf();
    AluAddsAndSubtracts(l, 0x1000);
  }

  /** The assembler finds a value in an operand exactly when there is one, and that one. */
  lemma ImmediateMeans(o: Operand, macros: Macros, labels: Labels)
    ensures Immediate(o, macros, labels).Ok? <==> HasValue(o, macros, labels)
    ensures HasValue(o, macros, labels) ==> Immediate(o, macros, labels).value == Value(o, macros, labels)
  {
    hide Nat, Index, HiPart, LoPart, Upper, Rest, NumberWord, UpperCase;
    match o
    case Number(v) => NumberMeans(v);
    case Name(n) =>
    case Hi(l) => if l in labels { HiMeans(labels[l]); }
    case Lo(l) => if l in labels { LoMeans(labels[l]); }
  }

  lemma CsrNumberMeans(name: string)
    ensures CsrNumber(name).Some? <==> CsrNamed(name) != NoCsr || name == "MSCRATCH"
    ensures CsrNumber(name).Some? ==> CsrAt(CsrNumber(name).value) == CsrNamed(name)
  {
  }

  lemma CsrOperandMeans(o: Operand, macros: Macros)
    ensures CsrOperand(o, macros).Ok? <==> NamesCsr(o, macros)
    ensures NamesCsr(o, macros) ==> CsrAt(CsrOperand(o, macros).value) == CsrMeant(o, macros)
  {
    hide Index, CsrAt, CsrNumber, CsrNamed, UpperCase;
    if o.Name? { CsrNumberMeans(UpperCase(o.text)); }
  }

  lemma OffsetMeans(o: Operand, pc: Word, macros: Macros, labels: Labels)
    ensures var r := Offset(o, pc, macros, labels);
      && (r.Ok? <==> HasValue(o, macros, labels) || IsLabel(o, macros, labels))
      && (r.Ok? ==> Sum(pc, r.value) == Goal(o, pc, macros, labels))
  {
    hide Immediate, HasValue, Value, Difference, Sum, UpperCase;
    ImmediateMeans(o, macros, labels);
    if o.Name? { NamesHaveValues(o, macros, labels); }
    if IsLabel(o, macros, labels) { DifferenceLands(labels[o.text], pc); }
  }

  lemma NamesHaveValues(o: Operand, macros: Macros, labels: Labels)
    requires o.Name?
    ensures HasValue(o, macros, labels) <==> IsMacro(macros, o.text)
  {
  }

  /** The distance to an address leads to the address. */
  lemma DifferenceLands(addr: Word, pc: Word)
    ensures Sum(pc, Difference(addr, pc)) == addr
  {
    SumCongruence(pc, Difference(addr, pc), addr - pc);
  }

  lemma SumCongruence(p: Word, d: Word, e: Word)
    requires d == e
    ensures p + d == p + e
  {
  }

  /** The assembler takes a written instruction exactly when its operands make sense. */
  lemma LowersIff(s: Source, pc: Word, macros: Macros, labels: Labels)
    ensures Lower(s, pc, macros, labels).Ok? <==> MakesSense(s, macros, labels)
  {
    hide Immediate, Offset, CsrOperand, HasValue, IsLabel, NamesCsr, Sum, Goal, Value, CsrAt, CsrMeant;
    match s
    case SAddi(_, _, imm) => ImmediateMeans(imm, macros, labels);
    case SLui(_, imm) => ImmediateMeans(imm, macros, labels);
    case SAuipc(_, imm) => ImmediateMeans(imm, macros, labels);
    case SLw(_, _, imm) => ImmediateMeans(imm, macros, labels);
    case SSw(_, _, imm) => ImmediateMeans(imm, macros, labels);
    case SJalr(_, _, imm) => ImmediateMeans(imm, macros, labels);
    case SBranch(_, _, _, target) => OffsetMeans(target, pc, macros, labels);
    case SJal(_, target) => OffsetMeans(target, pc, macros, labels);
    case SCsr(_, _, csr, _) => CsrOperandMeans(csr, macros);
    case _ =>
  }

  lemma NopMeans(m: Arch, env: Env)
    ensures IsaStep(Addi(0, 0, 0), m, env) == m.(pc := Next(m.pc))
  {
  }

  lemma JumpMeans(s: Source, m: Arch, env: Env, macros: Macros, labels: Labels)
    requires (s.SBranch? || s.SJal?) && Lower(s, m.pc, macros, labels).Ok?
    ensures IsaStep(Lower(s, m.pc, macros, labels).value, m, env) == SourceStep(s, m, env, macros, labels)
  {
    hide Immediate, Offset, CsrOperand, HasValue, IsLabel, NamesCsr, Sum, Goal, Value, CsrAt, CsrMeant, Next, Even;
    hide Read, Write, Holds, IsDevice, RamRead, RamWrite, CsrRead, CsrWrite, CsrUpdate, Aside, EnterTrap, LeaveTrap;
    hide Alu;
    OffsetMeans(s.target, m.pc, macros, labels);
  }

  lemma CsrStepMeans(s: Source, m: Arch, env: Env, macros: Macros, labels: Labels)
    requires s.SCsr? && Lower(s, m.pc, macros, labels).Ok?
    ensures var i := Lower(s, m.pc, macros, labels).value;
      && IsaStep(i, m, env) == SourceStep(s, m, env, macros, labels)
      && IsaAccesses(i, m, env) == SourceAccesses(s, m, env, macros, labels)
  {
    hide Immediate, Offset, CsrOperand, HasValue, IsLabel, NamesCsr, Sum, Goal, Value, CsrAt, CsrMeant, Next, Even;
    hide Read, Write, Holds, IsDevice, RamRead, RamWrite, CsrRead, CsrWrite, CsrUpdate, Aside, EnterTrap, LeaveTrap;
    hide Alu;
    CsrOperandMeans(s.csr, macros);
  }

  lemma MemoryMeans(s: Source, m: Arch, env: Env, macros: Macros, labels: Labels)
    requires (s.SLw? || s.SSw?) && Lower(s, m.pc, macros, labels).Ok?
    ensures IsaStep(Lower(s, m.pc, macros, labels).value, m, env) == SourceStep(s, m, env, macros, labels)
  {
    hide Immediate, Offset, CsrOperand, HasValue, IsLabel, NamesCsr, Sum, Goal, Value, CsrAt, CsrMeant, Next, Even;
    hide Read, Write, Holds, IsDevice, RamRead, RamWrite, CsrRead, CsrWrite, CsrUpdate, Aside, EnterTrap, LeaveTrap;
    hide Alu;
    ImmediateMeans(s.imm, macros, labels);
  }

  lemma RegisterMeans(s: Source, m: Arch, env: Env, macros: Macros, labels: Labels)
    requires (s.SAddi? || s.SJalr?) && Lower(s, m.pc, macros, labels).Ok?
    ensures IsaStep(Lower(s, m.pc, macros, labels).value, m, env) == SourceStep(s, m, env, macros, labels)
  {
    hide Immediate, Offset, CsrOperand, HasValue, IsLabel, NamesCsr, Sum, Goal, Value, CsrAt, CsrMeant, Next, Even;
    hide Read, Write, Holds, IsDevice, RamRead, RamWrite, CsrRead, CsrWrite, CsrUpdate, Aside, EnterTrap, LeaveTrap;
    hide Alu;
    ImmediateMeans(s.imm, macros, labels);
  }

  lemma UpperLowers(s: Source, pc: Word, macros: Macros, labels: Labels)
    requires (s.SLui? || s.SAuipc?) && Lower(s, pc, macros, labels).Ok?
    ensures var v := Value(s.imm, macros, labels);
      Lower(s, pc, macros, labels).value == if s.SLui? then Lui(s.rd, v) else Auipc(s.rd, v)
  {
    hide Immediate, HasValue, Value;
    ImmediateMeans(s.imm, macros, labels);
  }

  lemma UpperMeans(s: Source, m: Arch, env: Env, macros: Macros, labels: Labels)
    requires (s.SLui? || s.SAuipc?) && Lower(s, m.pc, macros, labels).Ok?
    ensures IsaStep(Lower(s, m.pc, macros, labels).value, m, env) == SourceStep(s, m, env, macros, labels)
  {
    hide Lower, Value, Sum, Next, Write;
    UpperLowers(s, m.pc, macros, labels);
  }

  lemma PlainMeans(s: Source, m: Arch, env: Env, macros: Macros, labels: Labels)
    requires s.SArith? || s.SEcall? || s.SMret?
    ensures var r := Lower(s, m.pc, macros, labels);
      r.Ok? && IsaStep(r.value, m, env) == SourceStep(s, m, env, macros, labels)
  {
    hide Immediate, Offset, CsrOperand, HasValue, IsLabel, NamesCsr, Sum, Goal, Value, CsrAt, CsrMeant, Next, Even;
    hide Read, Write, Holds, IsDevice, RamRead, RamWrite, CsrRead, CsrWrite, CsrUpdate, Aside, EnterTrap, LeaveTrap;
    hide Alu;
  }

  lemma MemoryShows(s: Source, m: Arch, env: Env, macros: Macros, labels: Labels)
    requires !s.SCsr? && Lower(s, m.pc, macros, labels).Ok?
    ensures IsaAccesses(Lower(s, m.pc, macros, labels).value, m, env) == SourceAccesses(s, m, env, macros, labels)
  {
    hide Immediate, Offset, CsrOperand, HasValue, IsLabel, NamesCsr, Sum, Goal, Value, CsrAt, CsrMeant, Next, Even;
    hide Read, Write, Holds, IsDevice, RamRead, RamWrite, CsrRead, CsrWrite, CsrUpdate, Aside, EnterTrap, LeaveTrap;
    hide Alu;
    if s.SLw? || s.SSw? { ImmediateMeans(s.imm, macros, labels); }
  }

  /** And then the machine instruction it makes of it does what was written, at the same address: on registers, memory
      and control registers, and as seen from outside. */
  lemma LowerMeans(s: Source, m: Arch, env: Env, macros: Macros, labels: Labels)
    requires Lower(s, m.pc, macros, labels).Ok?
    ensures var i := Lower(s, m.pc, macros, labels).value;
      && IsaStep(i, m, env) == SourceStep(s, m, env, macros, labels)
      && IsaAccesses(i, m, env) == SourceAccesses(s, m, env, macros, labels)
  {
    hide *;
    if s.SCsr? {
      CsrStepMeans(s, m, env, macros, labels);
    } else {
      MemoryShows(s, m, env, macros, labels);
      if s.Nop? {
        NopLowers(m.pc, macros, labels);
        NopMeans(m, env);
        NopDoesNothing(m, env, macros, labels);
      } else if s.SBranch? || s.SJal? {
        JumpMeans(s, m, env, macros, labels);
      } else if s.SLw? || s.SSw? {
        MemoryMeans(s, m, env, macros, labels);
      } else if s.SArith? || s.SEcall? || s.SMret? {
        PlainMeans(s, m, env, macros, labels);
      } else if s.SLui? || s.SAuipc? {
        UpperMeans(s, m, env, macros, labels);
      } else {
        RegisterMeans(s, m, env, macros, labels);
      }
    }
  }

  lemma NopLowers(pc: Word, macros: Macros, labels: Labels)
    ensures Lower(Nop, pc, macros, labels) == Ok(Addi(0, 0, 0))
  {
  }

  lemma NopDoesNothing(m: Arch, env: Env, macros: Macros, labels: Labels)
    ensures SourceStep(Nop, m, env, macros, labels) == m.(pc := Next(m.pc))
  {
  }

  // ---- names ----

  /** Names of macros and CSRs are compared with their letters in upper case. */
  lemma UpperLetters(s: string, i: nat, k: nat)
    requires i < |s| && k < 26
    ensures |UpperCase(s)| == |s|
    ensures s[i] == "abcdefghijklmnopqrstuvwxyz"[k] ==> UpperCase(s)[i] == "ABCDEFGHIJKLMNOPQRSTUVWXYZ"[k]
    ensures !('a' <= s[i] <= 'z') ==> UpperCase(s)[i] == s[i]
  {
    assert "abcdefghijklmnopqrstuvwxyz"[k] == 'a' + k as char;
    assert "ABCDEFGHIJKLMNOPQRSTUVWXYZ"[k] == 'A' + k as char;
  }

  // ---- which instructions can be encoded ----

  lemma NatOfOnes()
    ensures Nat(0x7ff) == 0x7ff && Nat(0xfff) == 0xfff && Nat(0xf_ffff) == 0xf_ffff
  {
    hide Nat;
    NatOfZero();
    NatDouble(0); NatDouble(1); NatDouble(3); NatDouble(7); NatDouble(0xf); NatDouble(0x1f); NatDouble(0x3f);
    NatDouble(0x7f); NatDouble(0xff); NatDouble(0x1ff); NatDouble(0x3ff); NatDouble(0x7ff); NatDouble(0xfff);
    NatDouble(0x1fff); NatDouble(0x3fff); NatDouble(0x7fff); NatDouble(0xffff); NatDouble(0x1_ffff);
    NatDouble(0x3_ffff); NatDouble(0x7_ffff);
  }

  lemma Complements()
    ensures Sum(0xffff_f800, 0x800) == 0 && Sum(0xffff_f000, 0x1000) == 0 && Sum(0xfff0_0000, 0x10_0000) == 0
    ensures Succ(0x7ff) == 0x800 && Succ(0xffe) == 0xfff && Succ(0xfff) == 0x1000 && Succ(0xf_ffff) == 0x10_0000
  {
  }

  /** The limits of the encoders as numbers. */
  lemma Limits()
    ensures Signed(0xffff_f800) == -2048 && Signed(0x7ff) == 2047
    ensures Signed(0xffff_f000) == -4096 && Signed(0xffe) == 4094
    ensures Signed(0xfff0_0000) == -0x10_0000 && Signed(0xf_ffff) == 0xf_ffff
    ensures Signed(0xfff) == 0xfff && Signed(0) == 0
  {
    hide Nat, Sum, Succ;
    NatOfZero();
    NatOfOnes();
    Complements();
    SuccNat(0x7ff); SuccNat(0xffe); SuccNat(0xfff); SuccNat(0xf_ffff);
    NatBound(0xffe);
    SumNat(0xffff_f800, 0x800); SumNat(0xffff_f000, 0x1000); SumNat(0xfff0_0000, 0x10_0000);
    NatBound(0xffff_f800); NatBound(0xffff_f000); NatBound(0xfff0_0000);
  }

  lemma InRangeIff(v: Word, low: Word, high: Word)
    ensures InRange(v, low, high) <==> Signed(low) <= Signed(v) <= Signed(high)
  {
    hide Signed, SignedLess;
    SignedLessIff(v, low);
    SignedLessIff(high, v);
  }

  lemma EvenIff(v: Word)
    ensures v & 1 == 0 <==> Signed(v) % 2 == 0
  {
    hide Nat, Half;
    NatParts(v);
    LowBitIs(v);
  }

  lemma LowBitIs(v: Word)
    ensures v & 1 == 0 <==> !LowBit(v)
  {
  }

  /** The numbers an encoding has room for. */
  predicate HasRoom(i: Instr) {
    match i
    case Addi(_, _, imm) => -2048 <= Signed(imm) <= 2047
    case Lw(_, _, imm) => -2048 <= Signed(imm) <= 2047
    case Sw(_, _, imm) => -2048 <= Signed(imm) <= 2047
    case Jalr(_, _, imm) => -2048 <= Signed(imm) <= 2047
    case Lui(_, imm) => 0 <= Signed(imm) < 0x10_0000
    case Auipc(_, imm) => 0 <= Signed(imm) < 0x10_0000
    case Branch(_, _, _, offset) => -4096 <= Signed(offset) <= 4094 && Signed(offset) % 2 == 0
    case Jal(_, offset) => -0x10_0000 <= Signed(offset) < 0x10_0000 && Signed(offset) % 2 == 0
    case Csr(_, _, csr, _) => 0 <= Signed(csr) < 0x1000
    case _ => true
  }

  /** The encoders accept exactly these. */
  lemma EncodesIff(i: Instr)
    ensures Encode(i).Ok? <==> HasRoom(i)
  {
    hide InRange, Signed, PackI, PackR, PackS, PackB, PackJ, PackU;
    Limits();
    match i
    case Addi(_, _, imm) => InRangeIff(imm, 0xffff_f800, 0x7ff);
    case Lw(_, _, imm) => InRangeIff(imm, 0xffff_f800, 0x7ff);
    case Sw(_, _, imm) => InRangeIff(imm, 0xffff_f800, 0x7ff);
    case Jalr(_, _, imm) => InRangeIff(imm, 0xffff_f800, 0x7ff);
    case Lui(_, imm) => InRangeIff(imm, 0, 0xf_ffff);
    case Auipc(_, imm) => InRangeIff(imm, 0, 0xf_ffff);
    case Branch(_, _, _, offset) => InRangeIff(offset, 0xffff_f000, 0xffe); EvenIff(offset);
    case Jal(_, offset) => InRangeIff(offset, 0xfff0_0000, 0xf_ffff); EvenIff(offset);
    case Csr(_, _, csr, _) => InRangeIff(csr, 0, 0xfff);
    case _ =>
  }

  /** The number between -2^31 and 2^31 - 1 that equals `x` modulo 2^32. */
  function Wrapped(x: int): int { (x + 0x8000_0000) % MODULUS - 0x8000_0000 }

  /** How far a jump at `pc` goes: to the label, or by the number. */
  function Span(o: Operand, pc: Word, macros: Macros, labels: Labels): int {
    if IsLabel(o, macros, labels) then Wrapped(Nat(labels[o.text]) - Nat(pc)) else Signed(Value(o, macros, labels))
  }

  lemma SignedIsWrapped(w: Word, x: int)
    requires Nat(w) == x % MODULUS
    ensures Signed(w) == Wrapped(x)
  {
    hide Nat;
    NatBound(w);
  }

  lemma DifferenceIsSub(a: Word, b: Word)
    ensures Difference(a, b) == Alu(SUB, a, b)
  {
  }

  lemma OffsetSpan(o: Operand, pc: Word, macros: Macros, labels: Labels)
    requires Offset(o, pc, macros, labels).Ok?
    ensures Signed(Offset(o, pc, macros, labels).value) == Span(o, pc, macros, labels)
  {
    hide Immediate, HasValue, Value, Difference, UpperCase, Nat, Signed, Wrapped, Alu;
    ImmediateMeans(o, macros, labels);
    if o.Name? { NamesHaveValues(o, macros, labels); }
    if IsLabel(o, macros, labels) {
      DifferenceIsSub(labels[o.text], pc);
      AluAddsAndSubtracts(labels[o.text], pc);
      SignedIsWrapped(Difference(labels[o.text], pc), Nat(labels[o.text]) - Nat(pc));
    }
  }

  /** A written instruction's numbers fit its encoding. */
  predicate FitsEncoding(s: Source, pc: Word, macros: Macros, labels: Labels) {
    match s
    case SAddi(_, _, imm) => -2048 <= Signed(Value(imm, macros, labels)) <= 2047
    case SLw(_, _, imm) => -2048 <= Signed(Value(imm, macros, labels)) <= 2047
    case SSw(_, _, imm) => -2048 <= Signed(Value(imm, macros, labels)) <= 2047
    case SJalr(_, _, imm) => -2048 <= Signed(Value(imm, macros, labels)) <= 2047
    case SLui(_, imm) => 0 <= Signed(Value(imm, macros, labels)) < 0x10_0000
    case SAuipc(_, imm) => 0 <= Signed(Value(imm, macros, labels)) < 0x10_0000
    case SBranch(_, _, _, target) =>
      var far := Span(target, pc, macros, labels); -4096 <= far <= 4094 && far % 2 == 0
    case SJal(_, target) =>
      var far := Span(target, pc, macros, labels); -0x10_0000 <= far < 0x10_0000 && far % 2 == 0
    case SCsr(_, _, csr, _) =>
      csr.Name? && IsMacro(macros, csr.text) ==> 0 <= Signed(macros[UpperCase(csr.text)]) < 0x1000
    case _ => true
  }

  lemma CsrFits(o: Operand, macros: Macros)
    requires NamesCsr(o, macros)
    ensures 0 <= Signed(CsrOperand(o, macros).value) < 0x1000 <==>
      (o.Name? && IsMacro(macros, o.text) ==> 0 <= Signed(macros[UpperCase(o.text)]) < 0x1000)
  {
    hide Signed, Nat, Index, UpperCase, CsrNumber, CsrNamed;
    match o
    case Number(v) => NumberFits(v);
    case Name(n) => if !IsMacro(macros, n) { CsrNumberMeans(UpperCase(n)); NamedFits(UpperCase(n)); }
    case _ =>
  }

  lemma NumberFits(v: nat)
    requires v < 0x1000
    ensures Signed(WordOf(v)) == v
  {
    hide Nat, Index;
    NatIndex(v);
  }

  lemma NamedFits(name: string)
    requires CsrNumber(name).Some?
    ensures 0 <= Signed(CsrNumber(name).value) < 0x1000
  {
    hide Signed, SignedLess;
    Limits();
    InRangeIff(CsrNumber(name).value, 0, 0xfff);
    NamedInRange(name);
  }

  lemma NamedInRange(name: string)
    requires CsrNumber(name).Some?
    ensures InRange(CsrNumber(name).value, 0, 0xfff)
  {
  }

  lemma ImmediateRoom(s: Source, pc: Word, macros: Macros, labels: Labels)
    requires (s.SAddi? || s.SLui? || s.SAuipc?) && Lower(s, pc, macros, labels).Ok?
    ensures HasRoom(Lower(s, pc, macros, labels).value) <==> FitsEncoding(s, pc, macros, labels)
  {
    hide Immediate, Offset, CsrOperand, HasValue, IsLabel, NamesCsr, Sum, Goal, Value, CsrAt, CsrMeant, Signed, Encode;
    hide Span, UpperCase;
    ImmediateMeans(s.imm, macros, labels);
  }

  lemma AddressRoom(s: Source, pc: Word, macros: Macros, labels: Labels)
    requires (s.SLw? || s.SSw? || s.SJalr?) && Lower(s, pc, macros, labels).Ok?
    ensures HasRoom(Lower(s, pc, macros, labels).value) <==> FitsEncoding(s, pc, macros, labels)
  {
    hide Immediate, Offset, CsrOperand, HasValue, IsLabel, NamesCsr, Sum, Goal, Value, CsrAt, CsrMeant, Signed, Encode;
    hide Span, UpperCase;
    ImmediateMeans(s.imm, macros, labels);
  }

  lemma JumpRoom(s: Source, pc: Word, macros: Macros, labels: Labels)
    requires (s.SBranch? || s.SJal?) && Lower(s, pc, macros, labels).Ok?
    ensures HasRoom(Lower(s, pc, macros, labels).value) <==> FitsEncoding(s, pc, macros, labels)
  {
    hide Immediate, Offset, CsrOperand, HasValue, IsLabel, NamesCsr, Sum, Goal, Value, CsrAt, CsrMeant, Signed, Encode;
    hide Span, UpperCase;
    OffsetSpan(s.target, pc, macros, labels);
  }

  lemma CsrRoom(s: Source, pc: Word, macros: Macros, labels: Labels)
    requires (s.SCsr?) && Lower(s, pc, macros, labels).Ok?
    ensures HasRoom(Lower(s, pc, macros, labels).value) <==> FitsEncoding(s, pc, macros, labels)
  {
    hide Immediate, Offset, CsrOperand, HasValue, IsLabel, NamesCsr, Sum, Goal, Value, CsrAt, CsrMeant, Signed, Encode;
    hide Span, UpperCase;
    CsrOperandMeans(s.csr, macros);
    CsrFits(s.csr, macros);
  }

  lemma PlainRoom(s: Source, pc: Word, macros: Macros, labels: Labels)
    requires (s.Nop? || s.SArith? || s.SEcall? || s.SMret?) && Lower(s, pc, macros, labels).Ok?
    ensures HasRoom(Lower(s, pc, macros, labels).value) <==> FitsEncoding(s, pc, macros, labels)
  {
    hide Immediate, Offset, CsrOperand, HasValue, IsLabel, NamesCsr, Sum, Goal, Value, CsrAt, CsrMeant, Signed, Encode;
    hide Span, UpperCase;
    Limits();
  }

  /** The assembler encodes a written instruction exactly when its operands make sense and its numbers fit. */
  lemma AssemblesIff(s: Source, pc: Word, macros: Macros, labels: Labels)
    ensures EncodeSource(s, pc, macros, labels).Ok? <==>
      MakesSense(s, macros, labels) && FitsEncoding(s, pc, macros, labels)
  {
    hide Lower, MakesSense, FitsEncoding, HasRoom, Encode;
    LowersIff(s, pc, macros, labels);
    if Lower(s, pc, macros, labels).Ok? {
      EncodesIff(Lower(s, pc, macros, labels).value);
      match s
      case SAddi(_, _, _) | SLui(_, _) | SAuipc(_, _) => ImmediateRoom(s, pc, macros, labels);
      case SLw(_, _, _) | SSw(_, _, _) | SJalr(_, _, _) => AddressRoom(s, pc, macros, labels);
      case SBranch(_, _, _, _) | SJal(_, _) => JumpRoom(s, pc, macros, labels);
      case SCsr(_, _, _, _) => CsrRoom(s, pc, macros, labels);
      case Nop | SArith(_, _, _, _) | SEcall | SMret => PlainRoom(s, pc, macros, labels);
    }
  }
}
