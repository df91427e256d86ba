/** The instruction set the tools advertise, as a programmer knows it, and the assembler's encodings. */
module Isa {
  import opened Words
  import opened RegisterFile
  import opened ExecuteStage
  import opened Core
  import opened Sequential

  datatype Cond = EQ | NE | LT | GE | LTU | GEU

  datatype CsrKind = ReadWrite | ReadSet | ReadClear

  /** Immediates are 32-bit two's complement numbers. */
  datatype Instr =
    | Addi(rd: RegId, rs1: RegId, imm: Word)
    | Arith(op: AluOp, rd: RegId, rs1: RegId, rs2: RegId)
    | Lui(rd: RegId, imm: Word)
    | Auipc(rd: RegId, imm: Word)
    | Lw(rd: RegId, base: RegId, imm: Word)
    | Sw(src: RegId, base: RegId, imm: Word)
    | Branch(cond: Cond, rs1: RegId, rs2: RegId, offset: Word)
    | Jal(rd: RegId, offset: Word)
    | Jalr(rd: RegId, rs1: RegId, imm: Word)
    | Csr(kind: CsrKind, rd: RegId, csr: Word, rs1: RegId)
    | Ecall
    | Mret

  // ---- meaning ----

  predicate Holds(cond: Cond, a: Word, b: Word) {
    match cond
    case EQ => a == b
    case NE => a != b
    case LT => SignedLess(a, b)
    case GE => !SignedLess(a, b)
    case LTU => a < b
    case GEU => b <= a
  }

  function Set(m: Arch, rd: RegId, v: Word): Arch { m.(pc := Next(m.pc), regs := Write(m.regs, true, rd, v)) }

  function CsrUpdate(kind: CsrKind, prior: Word, a: Word): Word {
    match kind
    case ReadWrite => a
    case ReadSet => prior | a
    case ReadClear => prior & !a
  }

  /** One instruction of the programmer's machine. */
  function IsaStep(i: Instr, m: Arch, env: Env): Arch {
    match i
    case Addi(rd, rs1, imm) => Set(m, rd, Sum(Read(m.regs, rs1), imm))
    case Arith(op, rd, rs1, rs2) => Set(m, rd, Alu(op, Read(m.regs, rs1), Read(m.regs, rs2)))
    case Lui(rd, imm) => Set(m, rd, imm << 12)
    case Auipc(rd, imm) => Set(m, rd, Sum(m.pc, imm << 12))
    case Lw(rd, base, imm) =>
      var addr := Sum(Read(m.regs, base), imm);
      Set(m, rd, if IsDevice(addr) then env.deviceData else RamRead(m.ram, addr))
    case Sw(src, base, imm) =>
      var addr := Sum(Read(m.regs, base), imm);
      m.(pc := Next(m.pc), ram := if IsDevice(addr) then m.ram else RamWrite(m.ram, addr, Read(m.regs, src)))
    case Branch(cond, rs1, rs2, offset) =>
      m.(pc := if Holds(cond, Read(m.regs, rs1), Read(m.regs, rs2)) then Sum(m.pc, offset) else Next(m.pc))
    case Jal(rd, offset) => Set(m, rd, Next(m.pc)).(pc := Sum(m.pc, offset))
    case Jalr(rd, rs1, imm) => Set(m, rd, Next(m.pc)).(pc := Even(Sum(Read(m.regs, rs1), imm)))
    case Csr(kind, rd, csr, rs1) =>
      var prior := CsrRead(m.csrs, env.mip, env.mtime, CsrAt(csr));
      var writes := kind == ReadWrite || rs1 != 0;
      Set(m, rd, prior).(csrs :=
        if writes then CsrWrite(m.csrs, CsrAt(csr), CsrUpdate(kind, prior, Read(m.regs, rs1))) else m.csrs)
    case Ecall => m.(pc := m.csrs.mtvec, csrs := EnterTrap(m.csrs, m.csrs, m.pc, CAUSE_ECALL))
    case Mret => m.(pc := m.csrs.mepc, csrs := LeaveTrap(m.csrs))
  }

  /** What it shows the outside. */
  function IsaAccesses(i: Instr, m: Arch, env: Env): seq<Access> {
    match i
    case Lw(rd, base, imm) =>
      var addr := Sum(Read(m.regs, base), imm);
      [if IsDevice(addr) then DeviceRead(addr, env.deviceData) else BusRead(addr, RamRead(m.ram, addr))]
    case Sw(src, base, imm) =>
      var addr, v := Sum(Read(m.regs, base), imm), Read(m.regs, src);
      [if IsDevice(addr) then DeviceWrite(addr, v) else BusWrite(addr, v)]
    case Csr(kind, rd, csr, rs1) =>
      var name := CsrAt(csr);
      var prior := CsrRead(m.csrs, env.mip, env.mtime, name);
      if (kind == ReadWrite || rs1 != 0) && Aside(name) then [CsrEvent(name, CsrUpdate(kind, prior, Read(m.regs, rs1)))]
      else []
    case _ => []
  }

  // ---- encoding ----

  datatype AsmError = OutOfRange | Misaligned | UnknownLabel(name: string) | DuplicateLabel(name: string) | TooLong

  datatype Result<+T> = Ok(value: T) | Err(error: AsmError)

  predicate InRange(v: Word, low: Word, high: Word) { !SignedLess(v, low) && !SignedLess(high, v) }

  function PackR(f7: Word, rs2: RegId, rs1: RegId, f3: Word, rd: RegId, op: Word): Word {
    (f7 << 25) | ((rs2 as Word) << 20) | ((rs1 as Word) << 15) | (f3 << 12) | ((rd as Word) << 7) | op
  }

  function PackI(imm: Word, rs1: RegId, f3: Word, rd: RegId, op: Word): Word {
    ((imm & 0xfff) << 20) | ((rs1 as Word) << 15) | (f3 << 12) | ((rd as Word) << 7) | op
  }

  function PackS(imm: Word, rs2: RegId, rs1: RegId, f3: Word): Word {
    (((imm >> 5) & 0x7f) << 25) | ((rs2 as Word) << 20) | ((rs1 as Word) << 15) | (f3 << 12)
    | ((imm & 0x1f) << 7) | 0x23
  }

  function PackB(imm: Word, rs2: RegId, rs1: RegId, f3: Word): Word {
    (((imm >> 12) & 1) << 31) | (((imm >> 5) & 0x3f) << 25) | ((rs2 as Word) << 20) | ((rs1 as Word) << 15)
    | (f3 << 12) | (((imm >> 1) & 0xf) << 8) | (((imm >> 11) & 1) << 7) | 0x63
  }

  function PackJ(imm: Word, rd: RegId): Word {
    (((imm >> 20) & 1) << 31) | (((imm >> 12) & 0xff) << 12) | (((imm >> 11) & 1) << 20) | (((imm >> 1) & 0x3ff) << 21)
    | ((rd as Word) << 7) | 0x6f
  }

  function PackU(imm: Word, rd: RegId, op: Word): Word { (imm << 12) | ((rd as Word) << 7) | op }

  function EncodeI(rd: RegId, rs1: RegId, imm: Word, f3: Word, op: Word): Result<Word> {
    if InRange(imm, 0xffff_f800, 0x7ff) then Ok(PackI(imm, rs1, f3, rd, op)) else Err(OutOfRange)
  }

  function EncodeS(rs2: RegId, rs1: RegId, imm: Word, f3: Word): Result<Word> {
    if InRange(imm, 0xffff_f800, 0x7ff) then Ok(PackS(imm, rs2, rs1, f3)) else Err(OutOfRange)
  }

  function EncodeB(rs1: RegId, rs2: RegId, imm: Word, f3: Word): Result<Word> {
    if imm & 1 != 0 then Err(Misaligned)
    else if InRange(imm, 0xffff_f000, 0xffe) then Ok(PackB(imm, rs2, rs1, f3)) else Err(OutOfRange)
  }

  function EncodeJ(rd: RegId, imm: Word): Result<Word> {
    if imm & 1 != 0 then Err(Misaligned)
    else if InRange(imm, 0xfff0_0000, 0xf_ffff) then Ok(PackJ(imm, rd)) else Err(OutOfRange)
  }

  function EncodeU(rd: RegId, imm: Word, op: Word): Result<Word> {
    if InRange(imm, 0, 0xf_ffff) then Ok(PackU(imm, rd, op)) else Err(OutOfRange)
  }

  function EncodeSystem(rd: RegId, rs1: RegId, csr: Word, f3: Word): Result<Word> {
    if InRange(csr, 0, 0xfff) then Ok(PackI(csr, rs1, f3, rd, 0x73)) else Err(OutOfRange)
  }

  function ArithFunct3(op: AluOp): Word {
    match op
    case ADD => 0
    case SUB => 0
    case AND => 7
    case OR => 6
    case XOR => 4
    case SLL => 1
    case SRL => 5
  }

  function ArithFunct7(op: AluOp): Word { if op == SUB then 0x20 else 0 }

  function CondFunct3(c: Cond): Word {
    match c
    case EQ => 0
    case NE => 1
    case LT => 4
    case GE => 5
    case LTU => 6
    case GEU => 7
  }

  function CsrFunct3(k: CsrKind): Word {
    match k
    case ReadWrite => 1
    case ReadSet => 2
    case ReadClear => 3
  }

  function Encode(i: Instr): Result<Word> {
    match i
    case Addi(rd, rs1, imm) => EncodeI(rd, rs1, imm, 0, 0x13)
    case Arith(op, rd, rs1, rs2) => Ok(PackR(ArithFunct7(op), rs2, rs1, ArithFunct3(op), rd, 0x33))
    case Lui(rd, imm) => EncodeU(rd, imm, 0x37)
    case Auipc(rd, imm) => EncodeU(rd, imm, 0x17)
    case Lw(rd, base, imm) => EncodeI(rd, base, imm, 2, 0x03)
    case Sw(src, base, imm) => EncodeS(src, base, imm, 2)
    case Branch(cond, rs1, rs2, offset) => EncodeB(rs1, rs2, offset, CondFunct3(cond))
    case Jal(rd, offset) => EncodeJ(rd, offset)
    case Jalr(rd, rs1, imm) => EncodeI(rd, rs1, imm, 0, 0x67)
    case Csr(kind, rd, csr, rs1) => EncodeSystem(rd, rs1, csr, CsrFunct3(kind))
    case Ecall => Ok(0x0000_0073)
    case Mret => Ok(0x3020_0073)
  }

  // ---- the core's wires recover what the encoders scattered ----

  lemma FieldsR(f7: Word, rs2: RegId, rs1: RegId, f3: Word, rd: RegId, op: Word)
    requires f7 < 0x80 && f3 < 8 && op < 0x80
    ensures var w := PackR(f7, rs2, rs1, f3, rd, op);
      Opcode(w) == op && Funct3(w) == f3 && Funct7(w) == f7 && Rd(w) == rd && Rs1(w) == rs1 && Rs2(w) == rs2
  {
  }

  lemma FieldsI(imm: Word, rs1: RegId, f3: Word, rd: RegId, op: Word)
    requires f3 < 8 && op < 0x80
    ensures var w := PackI(imm, rs1, f3, rd, op);
      Opcode(w) == op && Funct3(w) == f3 && Rd(w) == rd && Rs1(w) == rs1 && Upper12(w) == imm & 0xfff
  {
  }

  lemma FieldsS(imm: Word, rs2: RegId, rs1: RegId, f3: Word)
    requires f3 < 8
    ensures var w := PackS(imm, rs2, rs1, f3);
      Opcode(w) == 0x23 && Funct3(w) == f3 && Rs1(w) == rs1 && Rs2(w) == rs2
  {
  }

  lemma FieldsB(imm: Word, rs2: RegId, rs1: RegId, f3: Word)
    requires f3 < 8
    ensures var w := PackB(imm, rs2, rs1, f3);
      Opcode(w) == 0x63 && Funct3(w) == f3 && Rs1(w) == rs1 && Rs2(w) == rs2
  {
  }

  lemma FieldsJ(imm: Word, rd: RegId)
    ensures var w := PackJ(imm, rd); Opcode(w) == 0x6f && Rd(w) == rd
  {
  }

  lemma FieldsU(imm: Word, rd: RegId, op: Word)
    requires op < 0x80 && imm < 0x10_0000
    ensures var w := PackU(imm, rd, op); Opcode(w) == op && Rd(w) == rd
  {
  }

  lemma ImmediateU(imm: Word, rd: RegId, op: Word)
    requires op < 0x80 && imm < 0x10_0000
    ensures var w := PackU(imm, rd, op); w >> 12 == imm && ImmU(w) == imm << 12
  {
  }

  // A number in range is the sign extension of its low bits.

  lemma SignExtend12(imm: Word)
    requires InRange(imm, 0xffff_f800, 0x7ff)
    ensures Extend((imm >> 11) & 1, 0xffff_f000, imm & 0xfff) == imm
  {
  }

  lemma SignExtend13(imm: Word)
    requires imm & 1 == 0 && InRange(imm, 0xffff_f000, 0xffe)
    ensures Extend((imm >> 12) & 1, 0xffff_f000, imm & 0xffe) == imm
  {
  }

  lemma SignExtend21(imm: Word)
    requires imm & 1 == 0 && InRange(imm, 0xfff0_0000, 0xf_ffff)
    ensures Extend((imm >> 20) & 1, 0xfff0_0000, imm & 0xf_fffe) == imm
  {
  }

  lemma BitsI(imm: Word, rs1: RegId, f3: Word, rd: RegId, op: Word)
    requires f3 < 8 && op < 0x80
    ensures var w := PackI(imm, rs1, f3, rd, op); Sign(w) == (imm >> 11) & 1 && Upper12(w) == imm & 0xfff
  {
  }

  lemma SignS(imm: Word, rs2: RegId, rs1: RegId, f3: Word)
    requires f3 < 8
    ensures Sign(PackS(imm, rs2, rs1, f3)) == (imm >> 11) & 1
  {
  }

  lemma BitsS(imm: Word, rs2: RegId, rs1: RegId, f3: Word)
    requires f3 < 8
    ensures LowS(PackS(imm, rs2, rs1, f3)) == imm & 0xfff
  {
  }

  lemma BitsB(imm: Word, rs2: RegId, rs1: RegId, f3: Word)
    requires f3 < 8
    ensures var w := PackB(imm, rs2, rs1, f3); Sign(w) == (imm >> 12) & 1 && LowB(w) == imm & 0xffe
  {
  }

  lemma BitsJ(imm: Word, rd: RegId)
    ensures var w := PackJ(imm, rd); Sign(w) == (imm >> 20) & 1 && LowJ(w) == imm & 0xf_fffe
  {
  }

  lemma ImmediateI(imm: Word, rs1: RegId, f3: Word, rd: RegId, op: Word)
    requires f3 < 8 && op < 0x80 && InRange(imm, 0xffff_f800, 0x7ff)
    ensures ImmI(PackI(imm, rs1, f3, rd, op)) == imm
  {
    hide PackI, InRange, Sign, Upper12, Extend;
    BitsI(imm, rs1, f3, rd, op);
    SignExtend12(imm);
  }

  lemma ImmediateS(imm: Word, rs2: RegId, rs1: RegId, f3: Word)
    requires f3 < 8 && InRange(imm, 0xffff_f800, 0x7ff)
    ensures ImmS(PackS(imm, rs2, rs1, f3)) == imm
  {
    hide PackS, InRange, Sign, LowS, Extend;
    BitsS(imm, rs2, rs1, f3);
    SignS(imm, rs2, rs1, f3);
    SignExtend12(imm);
  }

  lemma ImmediateB(imm: Word, rs2: RegId, rs1: RegId, f3: Word)
    requires f3 < 8 && imm & 1 == 0 && InRange(imm, 0xffff_f000, 0xffe)
    ensures ImmB(PackB(imm, rs2, rs1, f3)) == imm
  {
    hide PackB, InRange, Sign, LowB, Extend;
    BitsB(imm, rs2, rs1, f3);
    SignExtend13(imm);
  }

  lemma ImmediateJ(imm: Word, rd: RegId)
    requires imm & 1 == 0 && InRange(imm, 0xfff0_0000, 0xf_ffff)
    ensures ImmJ(PackJ(imm, rd)) == imm
  {
    hide PackJ, InRange, Sign, LowJ, Extend;
    BitsJ(imm, rd);
    SignExtend21(imm);
  }

  lemma SmallIsInRange(v: Word, high: Word)
    requires high < 0x8000_0000
    ensures InRange(v, 0, high) <==> v <= high
  {
  }

  // ---- on the words the assembler emits, the core's decoder means what the instruction means ----

  lemma FormatIs(w: Word)
    ensures Opcode(w) == 0x13 ==> FormatOf(w) == OpImm
    ensures Opcode(w) == 0x33 ==> FormatOf(w) == Op
    ensures Opcode(w) == 0x03 ==> FormatOf(w) == Loads
    ensures Opcode(w) == 0x23 ==> FormatOf(w) == Stores
    ensures Opcode(w) == 0x63 ==> FormatOf(w) == Branches
    ensures Opcode(w) == 0x6f ==> FormatOf(w) == JalF
    ensures Opcode(w) == 0x67 ==> FormatOf(w) == JalrF
    ensures Opcode(w) == 0x73 ==> FormatOf(w) == SystemF
    ensures Opcode(w) == 0x37 ==> FormatOf(w) == LuiF
    ensures Opcode(w) == 0x17 ==> FormatOf(w) == AuipcF
  {
    hide Opcode;
  }

  lemma AluAdds(a: Word, b: Word)
    ensures Alu(ADD, a, b) == Sum(a, b)
  {
  }

  lemma AddiMeans(rd: RegId, rs1: RegId, imm: Word, m: Arch, env: Env)
    requires InRange(imm, 0xffff_f800, 0x7ff)
    ensures StepWord(PackI(imm, rs1, 0, rd, 0x13), m, env) == IsaStep(Addi(rd, rs1, imm), m, env)
  {
    hide PackU;
    FieldsI(imm, rs1, 0, rd, 0x13);
    ImmediateI(imm, rs1, 0, rd, 0x13);
    AluAdds(Read(m.regs, rs1), imm);
    FormatIs(PackI(imm, rs1, 0, rd, 0x13));
  }

  lemma ArithMeans(op: AluOp, rd: RegId, rs1: RegId, rs2: RegId, m: Arch, env: Env)
    ensures StepWord(PackR(ArithFunct7(op), rs2, rs1, ArithFunct3(op), rd, 0x33), m, env) ==
        IsaStep(Arith(op, rd, rs1, rs2), m, env)
  {
    hide Read, Write, PackR, Alu, Rd, Rs1, Rs2, Next;
    FieldsR(ArithFunct7(op), rs2, rs1, ArithFunct3(op), rd, 0x33);
    FormatIs(PackR(ArithFunct7(op), rs2, rs1, ArithFunct3(op), rd, 0x33));
  }

  lemma LuiMeans(rd: RegId, imm: Word, m: Arch, env: Env)
    requires imm < 0x10_0000
    ensures StepWord(PackU(imm, rd, 0x37), m, env) == IsaStep(Lui(rd, imm), m, env)
  {
    hide PackU;
    FieldsU(imm, rd, 0x37);
    ImmediateU(imm, rd, 0x37);
    FormatIs(PackU(imm, rd, 0x37));
  }

  lemma AuipcMeans(rd: RegId, imm: Word, m: Arch, env: Env)
    requires imm < 0x10_0000
    ensures StepWord(PackU(imm, rd, 0x17), m, env) == IsaStep(Auipc(rd, imm), m, env)
  {
    hide PackU;
    FieldsU(imm, rd, 0x17);
    ImmediateU(imm, rd, 0x17);
    FormatIs(PackU(imm, rd, 0x17));
  }

  lemma LwMeans(rd: RegId, base: RegId, imm: Word, m: Arch, env: Env)
    requires InRange(imm, 0xffff_f800, 0x7ff)
    ensures StepWord(PackI(imm, base, 2, rd, 0x03), m, env) == IsaStep(Lw(rd, base, imm), m, env)
  {
    hide Read, Write, RamRead, IsDevice, ExecuteOp, ExecuteBranch, ExecuteSystem, PackI, InRange, Sum, Rs1, Rd, ImmI;
    FieldsI(imm, base, 2, rd, 0x03);
    ImmediateI(imm, base, 2, rd, 0x03);
    FormatIs(PackI(imm, base, 2, rd, 0x03));
  }

  lemma SwMeans(src: RegId, base: RegId, imm: Word, m: Arch, env: Env)
    requires InRange(imm, 0xffff_f800, 0x7ff)
    ensures StepWord(PackS(imm, src, base, 2), m, env) == IsaStep(Sw(src, base, imm), m, env)
  {
    hide Read, RamRead, RamWrite, IsDevice, ExecuteOp, ExecuteBranch, ExecuteSystem, PackS, InRange, Sum, Rs1, Rs2;
    hide ImmS;
    FieldsS(imm, src, base, 2);
    ImmediateS(imm, src, base, 2);
    FormatIs(PackS(imm, src, base, 2));
  }

  /** The branch comparison the core selects is the one the condition names. */
  lemma BranchDecides(w: Word, pc: Word, a: Word, b: Word, cond: Cond)
    requires Funct3(w) == CondFunct3(cond)
    ensures ExecuteBranch(w, pc, a, b) ==
      if Holds(cond, a, b) then IDLE.(jump := true, target := Sum(pc, ImmB(w))) else IDLE
  {
    hide SignedLess, Sum, ImmB, Funct3;
  }

  lemma BranchMeans(cond: Cond, rs1: RegId, rs2: RegId, offset: Word, m: Arch, env: Env)
    requires offset & 1 == 0 && InRange(offset, 0xffff_f000, 0xffe)
    ensures StepWord(PackB(offset, rs2, rs1, CondFunct3(cond)), m, env) ==
      IsaStep(Branch(cond, rs1, rs2, offset), m, env)
  {
    hide ExecuteBranch, Holds, Read, PackB, SignedLess, Funct3, Rd, Sum, InRange;
    FieldsB(offset, rs2, rs1, CondFunct3(cond));
    ImmediateB(offset, rs2, rs1, CondFunct3(cond));
    BranchDecides(PackB(offset, rs2, rs1, CondFunct3(cond)), m.pc, Read(m.regs, rs1), Read(m.regs, rs2), cond);
    FormatIs(PackB(offset, rs2, rs1, CondFunct3(cond)));
  }

  lemma JalMeans(rd: RegId, offset: Word, m: Arch, env: Env)
    requires offset & 1 == 0 && InRange(offset, 0xfff0_0000, 0xf_ffff)
    ensures StepWord(PackJ(offset, rd), m, env) == IsaStep(Jal(rd, offset), m, env)
  {
    hide ImmB;
    FieldsJ(offset, rd);
    ImmediateJ(offset, rd);
    FormatIs(PackJ(offset, rd));
  }

  lemma JalrMeans(rd: RegId, rs1: RegId, imm: Word, m: Arch, env: Env)
    requires InRange(imm, 0xffff_f800, 0x7ff)
    ensures StepWord(PackI(imm, rs1, 0, rd, 0x67), m, env) == IsaStep(Jalr(rd, rs1, imm), m, env)
  {
    hide PackU;
    FieldsI(imm, rs1, 0, rd, 0x67);
    ImmediateI(imm, rs1, 0, rd, 0x67);
    FormatIs(PackI(imm, rs1, 0, rd, 0x67));
  }

  lemma TwelveBits(v: Word)
    requires v <= 0xfff
    ensures v & 0xfff == v
  {
  }

  lemma CsrMeans(kind: CsrKind, rd: RegId, csr: Word, rs1: RegId, m: Arch, env: Env)
    requires csr <= 0xfff
    ensures StepWord(PackI(csr, rs1, CsrFunct3(kind), rd, 0x73), m, env) == IsaStep(Csr(kind, rd, csr, rs1), m, env)
  {
    hide PackI, CsrAt, CsrRead, CsrWrite, Read, Rd, Rs1, Upper12, ExecuteOp, ExecuteBranch, Next, InRange;
    FieldsI(csr, rs1, CsrFunct3(kind), rd, 0x73);
    TwelveBits(csr);
    FormatIs(PackI(csr, rs1, CsrFunct3(kind), rd, 0x73));
  }

  lemma EcallMeans(m: Arch, env: Env)
    ensures StepWord(0x73, m, env) == IsaStep(Ecall, m, env)
  {
    hide Rd, Rs1, Rs2, CsrOf, CsrRead, CsrWrite, Read, Next, WithEnables, Flag;
    assert FormatOf(0x73) == SystemF && Funct3(0x73) == 0 && Upper12(0x73) == 0;
  }

  lemma MretMeans(m: Arch, env: Env)
    ensures StepWord(0x3020_0073, m, env) == IsaStep(Mret, m, env)
  {
    hide Rd, Rs1, Rs2, CsrOf, CsrRead, CsrWrite, Read, Next, WithEnables, Flag;
    assert FormatOf(0x3020_0073) == SystemF && Funct3(0x3020_0073) == 0 && Upper12(0x3020_0073) == 0x302;
  }

  /** For every operand combination an encoder accepts, the sequential core does with the word what the
      instruction means. */
  lemma EncodedMeans(i: Instr, m: Arch, env: Env)
    requires Encode(i).Ok?
    ensures StepWord(Encode(i).value, m, env) == IsaStep(i, m, env)
  {
    hide StepWord, IsaStep, PackI, PackR, PackS, PackB, PackJ, PackU, InRange;
    match i
    case Addi(rd, rs1, imm) => AddiMeans(rd, rs1, imm, m, env);
    case Arith(op, rd, rs1, rs2) => ArithMeans(op, rd, rs1, rs2, m, env);
    case Lui(rd, imm) => SmallIsInRange(imm, 0xf_ffff); LuiMeans(rd, imm, m, env);
    case Auipc(rd, imm) => SmallIsInRange(imm, 0xf_ffff); AuipcMeans(rd, imm, m, env);
    case Lw(rd, base, imm) => LwMeans(rd, base, imm, m, env);
    case Sw(src, base, imm) => SwMeans(src, base, imm, m, env);
    case Branch(cond, rs1, rs2, offset) => BranchMeans(cond, rs1, rs2, offset, m, env);
    case Jal(rd, offset) => JalMeans(rd, offset, m, env);
    case Jalr(rd, rs1, imm) => JalrMeans(rd, rs1, imm, m, env);
    case Csr(kind, rd, csr, rs1) => SmallIsInRange(csr, 0xfff); CsrMeans(kind, rd, csr, rs1, m, env);
    case Ecall => EcallMeans(m, env);
    case Mret => MretMeans(m, env);
  }

  // ---- words one can look up ----

  // The instructions of the repository's sample program, which sums the positive words of an array, have the words its
  // assembled image holds.

  lemma SampleSetup()
    ensures Encode(Addi(1, 0, 0)) == Ok(0x0000_0093) && Encode(Addi(2, 0, 6)) == Ok(0x0060_0113)
    ensures Encode(Addi(10, 0, 0)) == Ok(0x0000_0513) && Encode(Addi(12, 0, 0x123)) == Ok(0x1230_0613)
  {
  }

  lemma SampleLoop()
    ensures Encode(Lw(3, 1, 0)) == Ok(0x0000_a183) && Encode(Arith(ADD, 10, 10, 3)) == Ok(0x0035_0533)
    ensures Encode(Addi(1, 1, 4)) == Ok(0x0040_8093) && Encode(Addi(2, 2, 0xffff_ffff)) == Ok(0xfff1_0113)
  {
  }

  lemma SampleStores()
    ensures Encode(Sw(12, 0, 0x44)) == Ok(0x04c0_2223) && Encode(Sw(10, 0, 0x40)) == Ok(0x04a0_2023)
  {
  }

  lemma SampleJumps()
    ensures Encode(Branch(LT, 3, 0, 8)) == Ok(0x0001_c463) && Encode(Branch(NE, 2, 0, 0xffff_ffec)) == Ok(0xfe01_16e3)
    ensures Encode(Jal(5, 16)) == Ok(0x0100_02ef) && Encode(Jalr(0, 5, 0)) == Ok(0x0002_8067)
    ensures Encode(Jal(0, 12)) == Ok(0x00c0_006f) && Encode(Jal(0, 0)) == Ok(0x0000_006f)
  {
  }

  // One word for every other instruction, as the RISC-V Instruction Set Manual encodes it.

  lemma StandardArith()
    ensures Encode(Arith(SUB, 3, 1, 2)) == Ok(0x4020_81b3) && Encode(Arith(AND, 3, 1, 2)) == Ok(0x0020_f1b3)
    ensures Encode(Arith(OR, 3, 1, 2)) == Ok(0x0020_e1b3) && Encode(Arith(XOR, 3, 1, 2)) == Ok(0x0020_c1b3)
    ensures Encode(Arith(SLL, 3, 1, 2)) == Ok(0x0020_91b3) && Encode(Arith(SRL, 3, 1, 2)) == Ok(0x0020_d1b3)
  {
  }

  lemma StandardBranches()
    ensures Encode(Branch(EQ, 1, 2, 8)) == Ok(0x0020_8463) && Encode(Branch(GE, 1, 2, 8)) == Ok(0x0020_d463)
    ensures Encode(Branch(LTU, 1, 2, 8)) == Ok(0x0020_e463) && Encode(Branch(GEU, 1, 2, 8)) == Ok(0x0020_f463)
  {
  }

  lemma StandardUpper()
    ensures Encode(Lui(1, 0x1_2345)) == Ok(0x1234_50b7) && Encode(Auipc(1, 0x1_2345)) == Ok(0x1234_5097)
  {
  }

  lemma StandardSystem()
    ensures Encode(Csr(ReadWrite, 5, 0x300, 6)) == Ok(0x3003_12f3)
    ensures Encode(Csr(ReadSet, 5, 0x300, 6)) == Ok(0x3003_22f3)
    ensures Encode(Csr(ReadClear, 5, 0x300, 6)) == Ok(0x3003_32f3)
    ensures Encode(Ecall) == Ok(0x0000_0073) && Encode(Mret) == Ok(0x3020_0073)
  {
  }
}
