/** The combinational part of the execute stage: what one instruction word does,
    for every 32-bit word, supported or not. */
module ExecuteStage {
  import opened Words

  datatype AluOp = ADD | SUB | AND | OR | XOR | SLL | SRL

  function Alu(op: AluOp, a: Word, b: Word): Word {
    match op
    case ADD => Sum(a, b)
    case SUB => a - b
    case AND => a & b
    case OR => a | b
    case XOR => a ^ b
    case SLL => a << (b & 0x1f)
    case SRL => a >> (b & 0x1f)
  }

  // Instruction fields.
  function Opcode(w: Word): Word { w & 0x7f }
  function Funct3(w: Word): Word { (w >> 12) & 7 }
  function Funct7(w: Word): Word { w >> 25 }
  function Rd(w: Word): RegId { ((w >> 7) & 0x1f) as RegId }
  function Rs1(w: Word): RegId { ((w >> 15) & 0x1f) as RegId }
  function Rs2(w: Word): RegId { ((w >> 20) & 0x1f) as RegId }
  function Upper12(w: Word): Word { w >> 20 }

  /** `low` with copies of the sign bit above it. */
  function Extend(sign: Word, high: Word, low: Word): Word { (if sign == 1 then high else 0) | low }

  function Sign(w: Word): Word { w >> 31 }
  function LowS(w: Word): Word { ((w >> 25) << 5) | ((w >> 7) & 0x1f) }
  function LowB(w: Word): Word { (((w >> 7) & 1) << 11) | (((w >> 25) & 0x3f) << 5) | (((w >> 8) & 0xf) << 1) }
  function LowJ(w: Word): Word { (((w >> 12) & 0xff) << 12) | (((w >> 20) & 1) << 11) | (((w >> 21) & 0x3ff) << 1) }

  function ImmI(w: Word): Word { Extend(Sign(w), 0xffff_f000, Upper12(w)) }
  function ImmS(w: Word): Word { Extend(Sign(w), 0xffff_f000, LowS(w)) }
  function ImmB(w: Word): Word { Extend(Sign(w), 0xffff_f000, LowB(w)) }
  function ImmJ(w: Word): Word { Extend(Sign(w), 0xfff0_0000, LowJ(w)) }
  function ImmU(w: Word): Word { w & 0xffff_f000 }

  /** The major opcodes, the all-zero word of unwritten memory (when no other opcode
      claims it), and everything else. */
  datatype Format = OpImm | Op | Loads | Stores | Branches | JalF | JalrF | SystemF | LuiF | AuipcF | Zero | Unknown

  function FormatOf(w: Word): Format {
    var op := Opcode(w);
    if op == 0x13 then OpImm
    else if op == 0x33 then Op
    else if op == 0x03 then Loads
    else if op == 0x23 then Stores
    else if op == 0x63 then Branches
    else if op == 0x6f then JalF
    else if op == 0x67 then JalrF
    else if op == 0x73 then SystemF
    else if op == 0x37 then LuiF
    else if op == 0x17 then AuipcF
    else if w == 0 then Zero
    else Unknown
  }

  const CAUSE_ILLEGAL: Word := 2
  const CAUSE_ECALL: Word := 11

  predicate UsesRs1(w: Word) {
    match FormatOf(w)
    case OpImm | Op | Loads | Stores | Branches | JalrF => true
    case SystemF => Funct3(w) != 0
    case _ => false
  }

  predicate UsesRs2(w: Word) {
    FormatOf(w) in {Op, Stores, Branches}
  }

  /** The seven 256-byte windows whose accesses go to an on-chip peripheral instead of the data bus. */
  predicate IsDevice(addr: Word) {
    var page := addr & 0xffff_ff00;
    || page == 0x4000_0000 || page == 0x4000_1000 || page == 0x4000_3000 || page == 0x4000_4000
    || page == 0x4000_4400 || page == 0x4000_5000 || page == 0x4000_6000
  }

  datatype MemOp =
    | NoMem
    | Load(addr: Word)
    | Store(addr: Word, data: Word)
    | DeviceLoad(addr: Word)
    | DeviceStore(addr: Word, data: Word)
  {
    /** The operation needs a data-bus transaction. */
    predicate OnBus() { Load? || Store? }
  }

  /** Everything the execute stage asks for on behalf of one instruction. */
  datatype Effect = Effect(
    we: bool, rd: RegId, value: Word,
    csrWe: bool, csrData: Word,
    jump: bool, target: Word,
    trap: bool, cause: Word,
    mret: bool,
    mem: MemOp)

  const IDLE := Effect(false, 0, 0, false, 0, false, 0, false, 0, false, NoMem)

  function WriteBack(w: Word, value: Word): Effect { IDLE.(we := true, rd := Rd(w), value := value) }

  function Illegal(e: Effect): Effect { e.(trap := true, cause := CAUSE_ILLEGAL) }

  function Fault(): Effect { Illegal(IDLE) }

  function Link(w: Word, pc: Word, target: Word): Effect { WriteBack(w, Next(pc)).(jump := true, target := target) }

  function ExecuteOp(w: Word, a: Word, b: Word): Effect {
    var f3, f7 := Funct3(w), Funct7(w);
    if f3 == 0 then
      if f7 == 0 then WriteBack(w, Alu(ADD, a, b))
      else if f7 == 0x20 then WriteBack(w, Alu(SUB, a, b))
      else Illegal(WriteBack(w, Alu(ADD, a, b)))
    else if f3 == 7 then WriteBack(w, Alu(AND, a, b))
    else if f3 == 6 then WriteBack(w, Alu(OR, a, b))
    else if f3 == 4 then WriteBack(w, Alu(XOR, a, b))
    else if f3 == 1 then WriteBack(w, Alu(SLL, a, b))
    else if f3 == 5 then
      if f7 == 0 then WriteBack(w, Alu(SRL, a, b)) else Illegal(WriteBack(w, Alu(ADD, a, b)))
    else Illegal(WriteBack(w, Alu(ADD, a, b)))
  }

  function ExecuteLoad(w: Word, a: Word, deviceRead: Word): Effect {
    var addr := Sum(a, ImmI(w));
    if Funct3(w) != 2 then Fault()
    else if IsDevice(addr) then WriteBack(w, deviceRead).(mem := DeviceLoad(addr))
    else IDLE.(rd := Rd(w), mem := Load(addr))
  }

  function ExecuteStore(w: Word, a: Word, b: Word): Effect {
    var addr := Sum(a, ImmS(w));
    if Funct3(w) != 2 then Fault()
    else if IsDevice(addr) then IDLE.(mem := DeviceStore(addr, b))
    else IDLE.(mem := Store(addr, b))
  }

  function ExecuteBranch(w: Word, pc: Word, a: Word, b: Word): Effect {
    var f3 := Funct3(w);
    if f3 == 2 || f3 == 3 then Fault() else
    var taken :=
      if f3 == 0 then a == b
      else if f3 == 1 then a != b
      else if f3 == 4 then SignedLess(a, b)
      else if f3 == 5 then !SignedLess(a, b)
      else if f3 == 6 then a < b
      else a >= b;
    if taken then IDLE.(jump := true, target := Sum(pc, ImmB(w))) else IDLE
  }

  function ExecuteSystem(w: Word, a: Word, csrRead: Word, mepc: Word): Effect {
    var f3 := Funct3(w);
    var read := IDLE.(we := Rd(w) != 0, rd := Rd(w), value := csrRead);
    if f3 == 1 then read.(csrWe := true, csrData := a)
    else if f3 == 2 then read.(csrWe := Rs1(w) != 0, csrData := csrRead | a)
    else if f3 == 3 then read.(csrWe := Rs1(w) != 0, csrData := csrRead & !a)
    else if f3 == 0 && Upper12(w) == 0 then IDLE.(trap := true, cause := CAUSE_ECALL)
    else if f3 == 0 && Upper12(w) == 0x302 then IDLE.(jump := true, target := mepc, mret := true)
    else Fault()
  }

  /** What the word `w` at `pc` does, given its two operands, the value of the CSR it names,
      `mepc`, and what a peripheral would return to a load. */
  function Execute(w: Word, pc: Word, a: Word, b: Word, csrRead: Word, mepc: Word, deviceRead: Word): Effect {
    match FormatOf(w)
    case OpImm => WriteBack(w, Alu(ADD, a, ImmI(w)))
    case Op => ExecuteOp(w, a, b)
    case Loads => ExecuteLoad(w, a, deviceRead)
    case Stores => ExecuteStore(w, a, b)
    case Branches => ExecuteBranch(w, pc, a, b)
    case JalF => Link(w, pc, Sum(pc, ImmJ(w)))
    case JalrF => if Funct3(w) == 0 then Link(w, pc, Even(Sum(a, ImmI(w)))) else Fault()
    case SystemF => ExecuteSystem(w, a, csrRead, mepc)
    case LuiF => WriteBack(w, ImmU(w))
    case AuipcF => WriteBack(w, Sum(pc, ImmU(w)))
    case Zero => IDLE
    case Unknown => Fault()
  }

  lemma SystemWithoutOperand(w: Word, a: Word, a': Word, csrRead: Word, mepc: Word)
    requires Funct3(w) == 0
    ensures ExecuteSystem(w, a, csrRead, mepc) == ExecuteSystem(w, a', csrRead, mepc)
  {
    hide Funct3, Upper12, Rd, Rs1;
  }

  lemma IgnoresRs1(w: Word, pc: Word, a: Word, b: Word, a': Word, csrRead: Word, mepc: Word, deviceRead: Word)
    requires !UsesRs1(w)
    ensures Execute(w, pc, a, b, csrRead, mepc, deviceRead) == Execute(w, pc, a', b, csrRead, mepc, deviceRead)
  {
    hide FormatOf, Alu, ExecuteOp, ExecuteLoad, ExecuteStore, ExecuteBranch, ExecuteSystem, Funct3, ImmI, ImmJ, ImmU;
    hide Link, WriteBack;
    if Funct3(w) == 0 { SystemWithoutOperand(w, a, a', csrRead, mepc); }
  }

  lemma IgnoresRs2(w: Word, pc: Word, a: Word, b: Word, b': Word, csrRead: Word, mepc: Word, deviceRead: Word)
    requires !UsesRs2(w)
    ensures Execute(w, pc, a, b, csrRead, mepc, deviceRead) == Execute(w, pc, a, b', csrRead, mepc, deviceRead)
  {
    hide FormatOf, Alu, ExecuteOp, ExecuteLoad, ExecuteStore, ExecuteBranch, ExecuteSystem, Funct3, ImmI, ImmJ, ImmU;
    hide Link, WriteBack;
  }

  /** An operand the instruction does not declare as used has no influence. */
  lemma UnusedOperands(w: Word, pc: Word, a: Word, b: Word, a': Word, b': Word, csrRead: Word, mepc: Word,
      deviceRead: Word)
    requires UsesRs1(w) ==> a == a'
    requires UsesRs2(w) ==> b == b'
    ensures Execute(w, pc, a, b, csrRead, mepc, deviceRead) == Execute(w, pc, a', b', csrRead, mepc, deviceRead)
  {
    hide Execute, UsesRs1, UsesRs2;
    if !UsesRs1(w) { IgnoresRs1(w, pc, a, b, a', csrRead, mepc, deviceRead); }
    if !UsesRs2(w) { IgnoresRs2(w, pc, a', b, b', csrRead, mepc, deviceRead); }
  }

  /** What the pipeline relies on: a bus access neither writes back, jumps, traps nor touches a CSR,
      and a trap or a jump accesses no memory. */
  ghost predicate Orderly(e: Effect) {
    && (e.mem.OnBus() ==> !e.we && !e.csrWe && !e.jump && !e.trap && !e.mret)
    && (e.mret ==> e.jump && !e.trap && !e.csrWe && !e.we)
    && (e.trap ==> e.mem.NoMem? && !e.jump && !e.csrWe)
    && (e.jump ==> e.mem.NoMem? && !e.csrWe)
  }

  lemma OpIsOrderly(w: Word, a: Word, b: Word)
    ensures Orderly(ExecuteOp(w, a, b))
  {
  }

  lemma BranchIsOrderly(w: Word, pc: Word, a: Word, b: Word)
    ensures Orderly(ExecuteBranch(w, pc, a, b))
  {
  }

  lemma SystemIsOrderly(w: Word, a: Word, csrRead: Word, mepc: Word)
    ensures Orderly(ExecuteSystem(w, a, csrRead, mepc))
  {
  }

  lemma LoadIsOrderly(w: Word, a: Word, deviceRead: Word)
    ensures Orderly(ExecuteLoad(w, a, deviceRead))
  {
    hide ImmI, IsDevice, Rd;
  }

  lemma StoreIsOrderly(w: Word, a: Word, b: Word)
    ensures Orderly(ExecuteStore(w, a, b))
  {
    hide ImmS, IsDevice;
  }

  lemma EffectsAreOrderly(w: Word, pc: Word, a: Word, b: Word, csrRead: Word, mepc: Word, deviceRead: Word)
    ensures Orderly(Execute(w, pc, a, b, csrRead, mepc, deviceRead))
  {
    hide FormatOf, Alu, ExecuteOp, ExecuteBranch, ExecuteSystem, ExecuteLoad, ExecuteStore, ImmI, ImmJ, ImmU, Rd;
    hide Funct3;
    match FormatOf(w)
    case Loads => LoadIsOrderly(w, a, deviceRead);
    case Stores => StoreIsOrderly(w, a, b);
    case Op => OpIsOrderly(w, a, b);
    case Branches => BranchIsOrderly(w, pc, a, b);
    case SystemF => SystemIsOrderly(w, a, csrRead, mepc);
    case _ =>
  }
}
