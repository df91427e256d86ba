/** The machine a programmer reasons about: one instruction per step, no pipeline, no bus. */
module Sequential {
  import opened Words
  import opened RegisterFile
  import opened ExecuteStage
  import opened Core

  /** Instruction memory, by word index. */
  type Rom = Word -> Word

  /** A word of data memory. */
  datatype Cell = Cell(index: Word)

  /** Data memory; unwritten words read as zero. */
  type Ram = map<Cell, Word>

  function CellAt(addr: Word): Cell { Cell(WordIndex(addr)) }

  function RamRead(ram: Ram, addr: Word): Word { if CellAt(addr) in ram then ram[CellAt(addr)] else 0 }

  function RamWrite(ram: Ram, addr: Word, v: Word): Ram { ram[CellAt(addr) := v] }

  function FetchWord(rom: Rom, pc: Word): Word { rom(WordIndex(pc)) }

  /** The architectural state. */
  datatype Arch = Arch(pc: Word, regs: Regs, csrs: Csrs, ram: Ram)

  /** What a step reads that is not architectural: the free-running CSRs and a peripheral's answer. */
  datatype Env = Env(mip: Word, mtime: Word, deviceData: Word)

  /** What an instruction does besides changing the architectural state: a memory access as seen from outside, or a
      write to one of the CSRs that are not architectural. */
  datatype Access =
    | BusRead(addr: Word, value: Word)
    | BusWrite(addr: Word, value: Word)
    | DeviceRead(addr: Word, value: Word)
    | DeviceWrite(addr: Word, value: Word)
    | CsrEvent(name: CsrName, value: Word)

  function EffectOn(w: Word, m: Arch, env: Env): Effect {
    Execute(w, m.pc, Read(m.regs, Rs1(w)), Read(m.regs, Rs2(w)),
            CsrRead(m.csrs, env.mip, env.mtime, CsrOf(w)), m.csrs.mepc, env.deviceData)
  }

  function SeqEffect(rom: Rom, m: Arch, env: Env): Effect { EffectOn(FetchWord(rom, m.pc), m, env) }

  /** The state after the instruction at `m.pc`, whose CSR field is `csr`, has its effect `x`. */
  function Complete(m: Arch, csr: CsrName, x: Effect): Arch {
    var written := if x.csrWe then CsrWrite(m.csrs, csr, x.csrData) else m.csrs;
    Arch(
      if x.trap then m.csrs.mtvec else if x.jump then x.target else Next(m.pc),
      if x.mem.Load? then Write(m.regs, true, x.rd, RamRead(m.ram, x.mem.addr)) else Write(m.regs, x.we, x.rd, x.value),
      if x.trap then EnterTrap(written, m.csrs, m.pc, x.cause) else if x.mret then LeaveTrap(written) else written,
      if x.mem.Store? then RamWrite(m.ram, x.mem.addr, x.mem.data) else m.ram)
  }

  /** One step on the instruction word `w`. */
  function StepWord(w: Word, m: Arch, env: Env): Arch { Complete(m, CsrOf(w), EffectOn(w, m, env)) }

  function SeqStep(rom: Rom, m: Arch, env: Env): Arch { StepWord(FetchWord(rom, m.pc), m, env) }

  /** An interrupt between two instructions. */
  function Interrupt(m: Arch, cause: Word): Arch {
    m.(pc := m.csrs.mtvec, csrs := EnterTrap(m.csrs, m.csrs, m.pc, cause))
  }

  /** The CSRs that change by themselves or only send pulses out: a write to one is an event. */
  predicate Aside(name: CsrName) { name == Mip || name == MTime || name == IrqAck }

  function CsrEvents(csr: CsrName, x: Effect): seq<Access> {
    if x.csrWe && Aside(csr) then [CsrEvent(csr, x.csrData)] else []
  }

  function Accesses(m: Arch, csr: CsrName, x: Effect): seq<Access> { MemAccesses(m, x) + CsrEvents(csr, x) }

  function MemAccesses(m: Arch, x: Effect): seq<Access> {
    match x.mem
    case NoMem => []
    case Load(addr) => [BusRead(addr, RamRead(m.ram, addr))]
    case Store(addr, data) => [BusWrite(addr, data)]
    case DeviceLoad(addr) => [DeviceRead(addr, x.value)]
    case DeviceStore(addr, data) => [DeviceWrite(addr, data)]
  }

  /** What one clock cycle amounts to for the programmer. */
  datatype Label = Quiet | Retired(env: Env) | Interrupted(cause: Word)

  function Apply(rom: Rom, m: Arch, l: Label): Arch {
    match l
    case Quiet => m
    case Retired(env) => SeqStep(rom, m, env)
    case Interrupted(cause) => Interrupt(m, cause)
  }

  function ApplyAll(rom: Rom, m: Arch, ls: seq<Label>): Arch
    decreases ls
  {
    if ls == [] then m else ApplyAll(rom, Apply(rom, m, ls[0]), ls[1..])
  }

  function LabelAccesses(rom: Rom, m: Arch, l: Label): seq<Access> {
    if l.Retired? then Accesses(m, CsrOf(FetchWord(rom, m.pc)), SeqEffect(rom, m, l.env)) else []
  }

  function AllAccesses(rom: Rom, m: Arch, ls: seq<Label>): seq<Access>
    decreases ls
  {
    if ls == [] then []
    else LabelAccesses(rom, m, ls[0]) + AllAccesses(rom, Apply(rom, m, ls[0]), ls[1..])
  }
}
