/** Exactly which words the assembler emits: a decoder that inverts the encoder in both directions. */
module Decoding {
  import opened Words
  import opened ExecuteStage
  import opened Sequential
  import opened Isa

  datatype Option<+T> = None | Some(value: T)

  function DecodeArith(w: Word): Option<Instr> {
    var f3, f7 := Funct3(w), Funct7(w);
    if f7 == 0x20 && f3 == 0 then Some(Arith(SUB, Rd(w), Rs1(w), Rs2(w)))
    else if f7 != 0 then None
    else if f3 == 0 then Some(Arith(ADD, Rd(w), Rs1(w), Rs2(w)))
    else if f3 == 7 then Some(Arith(AND, Rd(w), Rs1(w), Rs2(w)))
    else if f3 == 6 then Some(Arith(OR, Rd(w), Rs1(w), Rs2(w)))
    else if f3 == 4 then Some(Arith(XOR, Rd(w), Rs1(w), Rs2(w)))
    else if f3 == 1 then Some(Arith(SLL, Rd(w), Rs1(w), Rs2(w)))
    else if f3 == 5 then Some(Arith(SRL, Rd(w), Rs1(w), Rs2(w)))
    else None
  }

  function DecodeCond(f3: Word): Option<Cond> {
    if f3 == 0 then Some(EQ) else if f3 == 1 then Some(NE) else if f3 == 4 then Some(LT)
    else if f3 == 5 then Some(GE) else if f3 == 6 then Some(LTU) else if f3 == 7 then Some(GEU) else None
  }

  function DecodeBranch(w: Word): Option<Instr> {
    match DecodeCond(Funct3(w))
    case None => None
    case Some(cond) => Some(Branch(cond, Rs1(w), Rs2(w), ImmB(w)))
  }

  function DecodeSystem(w: Word): Option<Instr> {
    var f3 := Funct3(w);
    if f3 == 1 then Some(Csr(ReadWrite, Rd(w), Upper12(w), Rs1(w)))
    else if f3 == 2 then Some(Csr(ReadSet, Rd(w), Upper12(w), Rs1(w)))
    else if f3 == 3 then Some(Csr(ReadClear, Rd(w), Upper12(w), Rs1(w)))
    else if w == 0x73 then Some(Ecall)
    else if w == 0x3020_0073 then Some(Mret)
    else None
  }

  function Upper20(w: Word): Word { w >> 12 }

  function Decode(w: Word): Option<Instr> {
    match FormatOf(w)
    case OpImm => if Funct3(w) == 0 then Some(Addi(Rd(w), Rs1(w), ImmI(w))) else None
    case Op => DecodeArith(w)
    case Loads => if Funct3(w) == 2 then Some(Lw(Rd(w), Rs1(w), ImmI(w))) else None
    case Stores => if Funct3(w) == 2 then Some(Sw(Rs2(w), Rs1(w), ImmS(w))) else None
    case Branches => DecodeBranch(w)
    case JalF => Some(Jal(Rd(w), ImmJ(w)))
    case JalrF => if Funct3(w) == 0 then Some(Jalr(Rd(w), Rs1(w), ImmI(w))) else None
    case SystemF => DecodeSystem(w)
    case LuiF => Some(Lui(Rd(w), Upper20(w)))
    case AuipcF => Some(Auipc(Rd(w), Upper20(w)))
    case Zero => None
    case Unknown => None
  }

  // ---- decode after encode ----

  lemma UpperU(imm: Word, rd: RegId, op: Word)
    requires op < 0x80 && imm < 0x10_0000
    ensures Upper20(PackU(imm, rd, op)) == imm
  {
  }

  lemma DecodeEncodeArith(op: AluOp, rd: RegId, rs1: RegId, rs2: RegId)
    ensures Decode(PackR(ArithFunct7(op), rs2, rs1, ArithFunct3(op), rd, 0x33)) == Some(Arith(op, rd, rs1, rs2))
  {
    hide PackR, FormatOf, Opcode, Funct3, Funct7, Rd, Rs1, Rs2, DecodeBranch, DecodeSystem;
    FieldsR(ArithFunct7(op), rs2, rs1, ArithFunct3(op), rd, 0x33);
    FormatIs(PackR(ArithFunct7(op), rs2, rs1, ArithFunct3(op), rd, 0x33));
  }

  lemma DecodeEncodeBranch(cond: Cond, rs1: RegId, rs2: RegId, offset: Word)
    requires offset & 1 == 0 && InRange(offset, 0xffff_f000, 0xffe)
    ensures Decode(PackB(offset, rs2, rs1, CondFunct3(cond))) == Some(Branch(cond, rs1, rs2, offset))
  {
    hide PackB, InRange, FormatOf, Opcode, Funct3, Rd, Rs1, Rs2, ImmB, DecodeArith, DecodeSystem;
    FieldsB(offset, rs2, rs1, CondFunct3(cond));
    ImmediateB(offset, rs2, rs1, CondFunct3(cond));
    FormatIs(PackB(offset, rs2, rs1, CondFunct3(cond)));
  }

  lemma DecodeEncodeCsr(kind: CsrKind, rd: RegId, csr: Word, rs1: RegId)
    requires csr <= 0xfff
    ensures Decode(PackI(csr, rs1, CsrFunct3(kind), rd, 0x73)) == Some(Csr(kind, rd, csr, rs1))
  {
    hide PackI, FormatOf, Opcode, Funct3, Rd, Rs1, Upper12, DecodeArith, DecodeBranch;
    FieldsI(csr, rs1, CsrFunct3(kind), rd, 0x73);
    TwelveBits(csr);
    FormatIs(PackI(csr, rs1, CsrFunct3(kind), rd, 0x73));
  }

  lemma DecodeEncodeImmediate(i: Instr)
    requires Encode(i).Ok? && (i.Addi? || i.Lw? || i.Sw? || i.Jalr?)
    ensures Decode(Encode(i).value) == Some(i)
  {
    hide PackI, PackS, InRange, FormatOf, Opcode, Funct3, Rd, Rs1, Rs2, ImmI, ImmS, DecodeArith, DecodeBranch;
    hide DecodeSystem, Upper20, ImmJ;
    FormatIs(Encode(i).value);
    match i
    case Addi(rd, rs1, imm) => FieldsI(imm, rs1, 0, rd, 0x13); ImmediateI(imm, rs1, 0, rd, 0x13);
    case Lw(rd, base, imm) => FieldsI(imm, base, 2, rd, 0x03); ImmediateI(imm, base, 2, rd, 0x03);
    case Sw(src, base, imm) => FieldsS(imm, src, base, 2); ImmediateS(imm, src, base, 2);
    case Jalr(rd, rs1, imm) => FieldsI(imm, rs1, 0, rd, 0x67); ImmediateI(imm, rs1, 0, rd, 0x67);
  }

  lemma DecodeEncodeLong(i: Instr)
    requires Encode(i).Ok? && (i.Lui? || i.Auipc? || i.Jal?)
    ensures Decode(Encode(i).value) == Some(i)
  {
    hide PackJ, PackU, InRange, FormatOf, Opcode, Funct3, Rd, Rs1, Rs2, ImmJ, Upper20, DecodeArith, DecodeBranch;
    hide DecodeSystem, ImmI, ImmS;
    FormatIs(Encode(i).value);
    match i
    case Lui(rd, imm) => SmallIsInRange(imm, 0xf_ffff); FieldsU(imm, rd, 0x37); UpperU(imm, rd, 0x37);
    case Auipc(rd, imm) => SmallIsInRange(imm, 0xf_ffff); FieldsU(imm, rd, 0x17); UpperU(imm, rd, 0x17);
    case Jal(rd, offset) => FieldsJ(offset, rd); ImmediateJ(offset, rd);
  }

  lemma DecodeEncodeFixed(i: Instr)
    requires i.Ecall? || i.Mret?
    ensures Decode(Encode(i).value) == Some(i)
  {
    hide FormatOf, Opcode, Funct3, Rd, Rs1, Upper12, DecodeArith, DecodeBranch;
    FormatIs(Encode(i).value);
    SystemWords();
  }

  /** Decoding an encoded instruction gives it back. */
  lemma DecodeEncode(i: Instr)
    requires Encode(i).Ok?
    ensures Decode(Encode(i).value) == Some(i)
  {
    hide Decode, InRange, PackI, PackR, PackB;
    match i
    case Arith(op, rd, rs1, rs2) => DecodeEncodeArith(op, rd, rs1, rs2);
    case Branch(cond, rs1, rs2, offset) => DecodeEncodeBranch(cond, rs1, rs2, offset);
    case Csr(kind, rd, csr, rs1) => SmallIsInRange(csr, 0xfff); DecodeEncodeCsr(kind, rd, csr, rs1);
    case Addi(_, _, _) | Lw(_, _, _) | Sw(_, _, _) | Jalr(_, _, _) => DecodeEncodeImmediate(i);
    case Lui(_, _) | Auipc(_, _) | Jal(_, _) => DecodeEncodeLong(i);
    case Ecall | Mret => DecodeEncodeFixed(i);
  }

  lemma SystemWords()
    ensures Opcode(0x73) == 0x73 && Funct3(0x73) == 0
    ensures Opcode(0x3020_0073) == 0x73 && Funct3(0x3020_0073) == 0
  {
  }

  /** Distinct instructions get distinct words. */
  lemma EncodingIsInjective(i: Instr, j: Instr)
    requires Encode(i).Ok? && Encode(i) == Encode(j)
    ensures i == j
  {
    hide Encode, Decode;
    DecodeEncode(i);
    DecodeEncode(j);
  }

  // ---- encode after decode ----

  lemma SliceI(w: Word)
    ensures ImmI(w) & 0xfff == w >> 20
  {
  }

  lemma RejoinI(w: Word)
    ensures ((w >> 20) << 20) | ((Rs1(w) as Word) << 15) | (Funct3(w) << 12) | ((Rd(w) as Word) << 7) | Opcode(w) == w
  {
  }

  lemma RepackI(w: Word)
    ensures PackI(ImmI(w), Rs1(w), Funct3(w), Rd(w), Opcode(w)) == w
  {
    hide ImmI, Opcode, Rd, Rs1, Funct3;
    SliceI(w);
    RejoinI(w);
  }

  lemma RepackCsr(w: Word)
    ensures PackI(Upper12(w), Rs1(w), Funct3(w), Rd(w), Opcode(w)) == w
  {
  }

  lemma RangeI(w: Word)
    ensures InRange(ImmI(w), 0xffff_f800, 0x7ff)
  {
  }

  lemma RepackR(w: Word)
    ensures PackR(Funct7(w), Rs2(w), Rs1(w), Funct3(w), Rd(w), Opcode(w)) == w
  {
  }

  lemma RepackS(w: Word)
    requires Opcode(w) == 0x23
    ensures PackS(ImmS(w), Rs2(w), Rs1(w), Funct3(w)) == w
  {
  }

  lemma RangeS(w: Word)
    ensures InRange(ImmS(w), 0xffff_f800, 0x7ff)
  {
  }

  lemma SliceB0(w: Word)
    ensures (ImmB(w) >> 12) & 1 == w >> 31
  {
  }

  lemma SliceB1(w: Word)
    ensures (ImmB(w) >> 11) & 1 == (w >> 7) & 1
  {
  }

  lemma SliceB2(w: Word)
    ensures (ImmB(w) >> 5) & 0x3f == (w >> 25) & 0x3f
  {
  }

  lemma SliceB3(w: Word)
    ensures (ImmB(w) >> 1) & 0xf == (w >> 8) & 0xf
  {
  }

  lemma RejoinB(w: Word)
    requires Opcode(w) == 0x63
    ensures ((w >> 31) << 31) | (((w >> 25) & 0x3f) << 25) | ((Rs2(w) as Word) << 20) | ((Rs1(w) as Word) << 15)
      | (Funct3(w) << 12) | (((w >> 8) & 0xf) << 8) | (((w >> 7) & 1) << 7) | 0x63 == w
  {
  }

  lemma RepackB(w: Word)
    requires Opcode(w) == 0x63
    ensures PackB(ImmB(w), Rs2(w), Rs1(w), Funct3(w)) == w
  {
    hide ImmB, Opcode, Rs1, Rs2, Funct3;
    SliceB0(w); SliceB1(w); SliceB2(w); SliceB3(w);
    RejoinB(w);
  }

  lemma RangeB(w: Word)
    ensures ImmB(w) & 1 == 0 && InRange(ImmB(w), 0xffff_f000, 0xffe)
  {
  }

  lemma SliceJ0(w: Word)
    ensures (ImmJ(w) >> 20) & 1 == w >> 31
  {
  }

  lemma SliceJ1(w: Word)
    ensures (ImmJ(w) >> 12) & 0xff == (w >> 12) & 0xff
  {
  }

  lemma SliceJ2(w: Word)
    ensures (ImmJ(w) >> 11) & 1 == (w >> 20) & 1
  {
  }

  lemma SliceJ3(w: Word)
    ensures (ImmJ(w) >> 1) & 0x3ff == (w >> 21) & 0x3ff
  {
  }

  lemma RejoinJ(w: Word)
    requires Opcode(w) == 0x6f
    ensures ((w >> 31) << 31) | (((w >> 12) & 0xff) << 12) | (((w >> 20) & 1) << 20) | (((w >> 21) & 0x3ff) << 21)
      | ((Rd(w) as Word) << 7) | 0x6f == w
  {
  }

  lemma RepackJ(w: Word)
    requires Opcode(w) == 0x6f
    ensures PackJ(ImmJ(w), Rd(w)) == w
  {
    hide ImmJ, Opcode, Rd;
    SliceJ0(w); SliceJ1(w); SliceJ2(w); SliceJ3(w);
    RejoinJ(w);
  }

  lemma RangeJ(w: Word)
    ensures ImmJ(w) & 1 == 0 && InRange(ImmJ(w), 0xfff0_0000, 0xf_ffff)
  {
  }

  lemma RepackU(w: Word)
    ensures PackU(Upper20(w), Rd(w), Opcode(w)) == w && Upper20(w) <= 0xf_ffff
  {
  }

  lemma Upper12Range(w: Word)
    ensures Upper12(w) <= 0xfff
  {
  }

  lemma FormatOpcode(w: Word)
    ensures match FormatOf(w)
      case OpImm => Opcode(w) == 0x13
      case Op => Opcode(w) == 0x33
      case Loads => Opcode(w) == 0x03
      case Stores => Opcode(w) == 0x23
      case Branches => Opcode(w) == 0x63
      case JalF => Opcode(w) == 0x6f
      case JalrF => Opcode(w) == 0x67
      case SystemF => Opcode(w) == 0x73
      case LuiF => Opcode(w) == 0x37
      case AuipcF => Opcode(w) == 0x17
      case _ => true
  {
    hide Opcode;
  }

  lemma EncodeDecodeArith(w: Word)
    requires Opcode(w) == 0x33 && DecodeArith(w).Some?
    ensures Encode(DecodeArith(w).value) == Ok(w)
  {
    hide PackI, PackR, PackS, PackB, PackJ, PackU, InRange, Opcode, Funct3, Funct7, Rd, Rs1, Rs2, Upper12, Upper20;
    hide ImmI, ImmS, ImmB, ImmJ;
    RepackR(w);
  }

  lemma EncodeDecodeBranch(w: Word)
    requires Opcode(w) == 0x63 && DecodeBranch(w).Some?
    ensures Encode(DecodeBranch(w).value) == Ok(w)
  {
    hide PackI, PackR, PackS, PackB, PackJ, PackU, InRange, Opcode, Funct3, Funct7, Rd, Rs1, Rs2, Upper12, Upper20;
    hide ImmI, ImmS, ImmB, ImmJ;
    RepackB(w);
    RangeB(w);
  }

  lemma EncodeDecodeSystem(w: Word)
    requires Opcode(w) == 0x73 && DecodeSystem(w).Some?
    ensures Encode(DecodeSystem(w).value) == Ok(w)
  {
    hide PackI, PackR, PackS, PackB, PackJ, PackU, InRange, Opcode, Funct3, Funct7, Rd, Rs1, Rs2, Upper12, Upper20;
    hide ImmI, ImmS, ImmB, ImmJ;
    RepackCsr(w);
    Upper12Range(w);
    SmallIsInRange(Upper12(w), 0xfff);
  }

  lemma EncodeDecodeImmediate(w: Word)
    requires FormatOf(w) in {OpImm, Loads, Stores, JalrF} && Decode(w).Some?
    ensures Encode(Decode(w).value) == Ok(w)
  {
    hide PackI, PackR, PackS, PackB, PackJ, PackU, InRange, Opcode, Funct3, Funct7, Rd, Rs1, Rs2, Upper12, Upper20;
    hide ImmI, ImmS, ImmB, ImmJ, FormatOf, DecodeArith, DecodeBranch, DecodeSystem;
    FormatOpcode(w);
    if FormatOf(w) == Stores { RepackS(w); RangeS(w); } else { RepackI(w); RangeI(w); }
  }

  lemma EncodeDecodeLong(w: Word)
    requires FormatOf(w) in {JalF, LuiF, AuipcF}
    ensures Decode(w).Some? && Encode(Decode(w).value) == Ok(w)
  {
    hide PackI, PackR, PackS, PackB, PackJ, PackU, InRange, Opcode, Funct3, Funct7, Rd, Rs1, Rs2, Upper12, Upper20;
    hide ImmI, ImmS, ImmB, ImmJ, FormatOf, DecodeArith, DecodeBranch, DecodeSystem;
    FormatOpcode(w);
    if FormatOf(w) == JalF { RepackJ(w); RangeJ(w); } else { RepackU(w); SmallIsInRange(Upper20(w), 0xf_ffff); }
  }

  /** Conversely, the assembler emits every word the decoder accepts. */
  lemma EncodeDecode(w: Word)
    requires Decode(w).Some?
    ensures Encode(Decode(w).value) == Ok(w)
  {
    hide FormatOf, Encode, DecodeArith, DecodeBranch, DecodeSystem, Funct3, Opcode, Rd, Rs1, Rs2, Upper20, ImmI, ImmS;
    hide ImmJ;
    FormatOpcode(w);
    match FormatOf(w)
    case Op => EncodeDecodeArith(w);
    case Branches => EncodeDecodeBranch(w);
    case SystemF => EncodeDecodeSystem(w);
    case JalF | LuiF | AuipcF => EncodeDecodeLong(w);
    case OpImm | Loads | Stores | JalrF => EncodeDecodeImmediate(w);
    case _ =>
  }

  /** On every word the assembler can emit, the core is the advertised machine. */
  lemma CoreMeansIsa(w: Word, m: Arch, env: Env)
    requires Decode(w).Some?
    ensures StepWord(w, m, env) == IsaStep(Decode(w).value, m, env)
  {
    hide Encode, Decode, StepWord, IsaStep;
    EncodeDecode(w);
    EncodedMeans(Decode(w).value, m, env);
  }

  /** The words the core executes although no encoder produces them: OP-IMM ignores funct3, AND, OR, XOR and SLL
      ignore funct7, ECALL and MRET ignore their register fields, and the all-zero word does nothing. */
  predicate SilentlyAccepted(w: Word) {
    match FormatOf(w)
    case OpImm => Funct3(w) != 0
    case Op => SilentOp(w)
    case SystemF => SilentSystem(w)
    case Zero => true
    case _ => false
  }

  predicate SilentOp(w: Word) {
    Funct7(w) != 0 && (Funct3(w) == 7 || Funct3(w) == 6 || Funct3(w) == 4 || Funct3(w) == 1)
  }

  predicate SilentSystem(w: Word) {
    Funct3(w) == 0 && (Upper12(w) == 0 || Upper12(w) == 0x302) && w != 0x73 && w != 0x3020_0073
  }

  predicate RaisesIllegal(x: Effect) { x.trap && x.cause == CAUSE_ILLEGAL }

  lemma PlainEffects(w: Word, pc: Word, v: Word, t: Word)
    ensures !RaisesIllegal(WriteBack(w, v)) && !RaisesIllegal(Link(w, pc, t)) && !RaisesIllegal(IDLE)
    ensures RaisesIllegal(Fault())
  {
    hide Rd, Next;
  }

  /** The core raises an illegal-instruction trap on every other word outside the instruction set, and on no word
      inside it. */
  lemma IllegalIff(w: Word, pc: Word, a: Word, b: Word, c: Word, mepc: Word, d: Word)
    ensures RaisesIllegal(Execute(w, pc, a, b, c, mepc, d)) <==> (Decode(w).None? && !SilentlyAccepted(w))
  {
    hide Alu, Rd, Rs1, Rs2, ImmI, ImmS, ImmB, ImmJ, ImmU, Sum, Even, Next, SignedLess, IsDevice, Upper20, Upper12;
    hide Funct3, Funct7, FormatOf, ExecuteOp, ExecuteLoad, ExecuteStore, ExecuteBranch, ExecuteSystem, DecodeArith;
    hide DecodeBranch, DecodeSystem, SilentOp, SilentSystem, RaisesIllegal, WriteBack, Link, Fault;
    match FormatOf(w)
    case Op => OpIllegal(w, a, b);
    case Loads => LoadIllegal(w, a, d);
    case Stores => StoreIllegal(w, a, b);
    case Branches => BranchIllegal(w, pc, a, b);
    case SystemF => SystemIllegal(w, a, c, mepc);
    case OpImm => PlainEffects(w, pc, Alu(ADD, a, ImmI(w)), 0);
    case JalF => PlainEffects(w, pc, 0, Sum(pc, ImmJ(w)));
    case JalrF => PlainEffects(w, pc, 0, Even(Sum(a, ImmI(w))));
    case LuiF => PlainEffects(w, pc, ImmU(w), 0);
    case AuipcF => PlainEffects(w, pc, Sum(pc, ImmU(w)), 0);
    case Zero | Unknown => PlainEffects(w, pc, 0, 0);
  }

  lemma OpIllegal(w: Word, a: Word, b: Word)
    ensures RaisesIllegal(ExecuteOp(w, a, b)) <==> DecodeArith(w).None? && !SilentOp(w)
  {
    hide Alu, Rd, Rs1, Rs2, Funct3, Funct7;
  }

  lemma LoadIllegal(w: Word, a: Word, d: Word)
    ensures RaisesIllegal(ExecuteLoad(w, a, d)) <==> Funct3(w) != 2
  {
    hide ImmI, IsDevice, Rd, Funct3, Sum;
  }

  lemma StoreIllegal(w: Word, a: Word, b: Word)
    ensures RaisesIllegal(ExecuteStore(w, a, b)) <==> Funct3(w) != 2
  {
    hide ImmS, IsDevice, Funct3, Sum;
  }

  lemma BranchIllegal(w: Word, pc: Word, a: Word, b: Word)
    ensures RaisesIllegal(ExecuteBranch(w, pc, a, b)) <==> DecodeBranch(w).None?
  {
    hide SignedLess, Sum, ImmB, Rs1, Rs2, Funct3;
    Funct3Range(w);
  }

  lemma Funct3Range(w: Word)
    ensures Funct3(w) == 0 || Funct3(w) == 1 || Funct3(w) == 2 || Funct3(w) == 3
         || Funct3(w) == 4 || Funct3(w) == 5 || Funct3(w) == 6 || Funct3(w) == 7
  {
    var v := Funct3(w);
    assert v <= 7;
  }

  lemma SystemIllegal(w: Word, a: Word, c: Word, mepc: Word)
    ensures RaisesIllegal(ExecuteSystem(w, a, c, mepc)) <==> DecodeSystem(w).None? && !SilentSystem(w)
  {
    hide Rd, Rs1, Funct3, Upper12;
    SystemWords();
    UpperOfSystemWords();
    assert CAUSE_ECALL != CAUSE_ILLEGAL;
  }

  lemma UpperOfSystemWords()
    ensures Upper12(0x73) == 0 && Upper12(0x3020_0073) == 0x302
  {
  }

  /** An instruction that traps as illegal writes a register all the same exactly when it is an OP word. */
  lemma IllegalWritesIff(w: Word, pc: Word, a: Word, b: Word, c: Word, mepc: Word, d: Word)
    requires RaisesIllegal(Execute(w, pc, a, b, c, mepc, d))
    ensures Execute(w, pc, a, b, c, mepc, d).we <==> FormatOf(w) == Op
  {
    hide Alu, Rd, Rs1, Rs2, ImmI, ImmS, ImmB, ImmJ, ImmU, Sum, Even, Next, SignedLess, IsDevice, Upper12, Funct3;
    hide Funct7, FormatOf, ExecuteOp, ExecuteLoad, ExecuteStore, ExecuteBranch, ExecuteSystem, WriteBack, Link, Fault;
    match FormatOf(w)
    case Op => OpWrites(w, a, b);
    case Loads => IllegalLoadWritesNothing(w, a, d);
    case Stores => IllegalStoreWritesNothing(w, a, b);
    case Branches => BranchWritesNothing(w, pc, a, b);
    case SystemF => IllegalSystemWritesNothing(w, a, c, mepc);
    case OpImm => PlainEffects(w, pc, Alu(ADD, a, ImmI(w)), 0);
    case JalF => PlainEffects(w, pc, 0, Sum(pc, ImmJ(w)));
    case JalrF => PlainEffects(w, pc, 0, Even(Sum(a, ImmI(w)))); FaultWritesNothing();
    case LuiF => PlainEffects(w, pc, ImmU(w), 0);
    case AuipcF => PlainEffects(w, pc, Sum(pc, ImmU(w)), 0);
    case Zero => PlainEffects(w, pc, 0, 0);
    case Unknown => FaultWritesNothing();
  }

  lemma FaultWritesNothing()
    ensures !Fault().we
  {
  }

  lemma WriteBackWrites(w: Word)
    ensures forall v :: WriteBack(w, v).we && Illegal(WriteBack(w, v)).we
  {
    hide Rd;
  }

  lemma OpWrites(w: Word, a: Word, b: Word)
    ensures ExecuteOp(w, a, b).we
  {
    hide Alu, Rd, Funct3, Funct7, WriteBack, Illegal;
    WriteBackWrites(w);
  }

  lemma IllegalLoadWritesNothing(w: Word, a: Word, d: Word)
    requires RaisesIllegal(ExecuteLoad(w, a, d))
    ensures !ExecuteLoad(w, a, d).we
  {
    hide ImmI, IsDevice, Rd, Funct3, Sum;
  }

  lemma IllegalStoreWritesNothing(w: Word, a: Word, b: Word)
    ensures !ExecuteStore(w, a, b).we
  {
    hide ImmS, IsDevice, Funct3, Sum;
  }

  lemma BranchWritesNothing(w: Word, pc: Word, a: Word, b: Word)
    ensures !ExecuteBranch(w, pc, a, b).we
  {
    hide SignedLess, Sum, ImmB, Funct3;
  }

  lemma IllegalSystemWritesNothing(w: Word, a: Word, c: Word, mepc: Word)
    requires RaisesIllegal(ExecuteSystem(w, a, c, mepc))
    ensures !ExecuteSystem(w, a, c, mepc).we
  {
    hide Rd, Rs1, Funct3, Upper12;
    assert CAUSE_ECALL != CAUSE_ILLEGAL;
  }
}
