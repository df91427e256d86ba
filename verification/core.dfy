/** The three-stage core: its registers, and one clock edge as a function of them.

    Every right-hand side reads the state before the edge; where the clocked block assigns a
    register more than once, the last assignment wins and the functions below keep only that one. */
module Core {
  import opened Words
  import opened RegisterFile
  import opened ExecuteStage

  /** The cache size as a power of two: `indexBits` index bits, or no cache at all. */
  datatype Config = Config(cached: bool, indexBits: bv5) {
    predicate Valid() { cached ==> 1 <= indexBits <= 29 }
  }

  /** A pipeline or prefetch buffer that may hold one fetched instruction. */
  datatype Slot = Empty | Held(instr: Word, pc: Word)

  /** The execute stage with its latched operands. */
  datatype ExSlot = NoEx | Ex(instr: Word, pc: Word, a: Word, b: Word)

  /** The instruction-bus request. */
  datatype Fetch = NoFetch | Fetching(addr: Word, cacheable: bool, row: Row, tag: Word)

  /** The data-bus request. */
  datatype Data = NoData | Waiting(isLoad: bool, rd: RegId, addr: Word, wdata: Word)

  /** The place of a line in the direct-mapped cache. */
  datatype Row = Row(index: Word)

  /** One valid cache line. */
  datatype Line = Line(tag: Word, word: Word)

  /** The control registers a program can rely on; `mip` and `mtime` change by themselves. */
  datatype Csrs = Csrs(mstatus: Word, mtvec: Word, mepc: Word, mcause: Word, mie: Word, mtimecmp: Word,
      irqPriority: bool)

  datatype State = State(
    pcFetch: Word, fetch: Fetch, ifs: Slot, slot: Slot, id: Slot, ex: ExSlot, data: Data,
    regs: Regs, csrs: Csrs, mip: Word, mtime: Word, timerAck: bool, extAck: bool,
    icache: map<Row, Line>)

  /** What the outside drives during one cycle. */
  datatype Pins = Pins(imemReady: bool, imemData: Word, memReady: bool, memData: Word,
                       deviceData: Word, timerIrq: bool, extIrq: bool)

  function ZeroRegs(): Regs { seq(32, _ => 0) }

  const RESET := State(0, NoFetch, Empty, Empty, Empty, NoEx, NoData, ZeroRegs(),
                       Csrs(0, 0x100, 0, 0, 0, 200, false), 0, 0, false, false, map[])

  /** The control registers an instruction can name; every other number is `NoCsr`. */
  datatype CsrName = MStatus | Mie | MTvec | MEpc | MCause | Mip | MTime | MTimeCmp | IrqPriority | IrqAck | NoCsr

  function CsrAt(addr: Word): CsrName {
    if addr == 0x300 then MStatus
    else if addr == 0x305 then MTvec
    else if addr == 0x341 then MEpc
    else if addr == 0x342 then MCause
    else if addr == 0x304 then Mie
    else if addr == 0x344 then Mip
    else if addr == 0x701 then MTime
    else if addr == 0x720 then MTimeCmp
    else if addr == 0xBC0 then IrqPriority
    else if addr == 0xBC1 then IrqAck
    else NoCsr
  }

  const CAUSE_TIMER: Word := 0x8000_0007
  const CAUSE_EXTERNAL: Word := 0x8000_000B

  function CsrRead(csrs: Csrs, mip: Word, mtime: Word, name: CsrName): Word {
    match name
    case MStatus => csrs.mstatus
    case MTvec => csrs.mtvec
    case MEpc => csrs.mepc
    case MCause => csrs.mcause
    case Mie => csrs.mie
    case Mip => mip
    case MTime => mtime
    case MTimeCmp => csrs.mtimecmp
    case IrqPriority => if csrs.irqPriority then 1 else 0
    case IrqAck => 0
    case NoCsr => 0
  }

  function CsrWrite(csrs: Csrs, name: CsrName, v: Word): Csrs {
    match name
    case MStatus => csrs.(mstatus := v)
    case MTvec => csrs.(mtvec := v)
    case MEpc => csrs.(mepc := v)
    case MCause => csrs.(mcause := v)
    case Mie => csrs.(mie := v)
    case MTimeCmp => csrs.(mtimecmp := v)
    case IrqPriority => csrs.(irqPriority := Flag(v, 0))
    case _ => csrs
  }

  /** The registers a CSR write reaches and a later CSR read sees. */
  predicate Keeps(name: CsrName) { name != Mip && name != MTime && name != IrqAck && name != NoCsr }

  /** A CSR reads back what was last written to it, the priority register its lowest bit, and no other CSR changes. */
  lemma CsrReadAfterWrite(csrs: Csrs, mip: Word, mtime: Word, w: CsrName, v: Word, r: CsrName)
    ensures CsrRead(CsrWrite(csrs, w, v), mip, mtime, r) ==
      if r == w && Keeps(w) then (if w.IrqPriority? then (if Flag(v, 0) then 1 else 0) else v)
      else CsrRead(csrs, mip, mtime, r)
  {
    hide Flag;
  }

  /** The control register the instruction word names. */
  function CsrOf(w: Word): CsrName { CsrAt(Upper12(w)) }

  /** `w` with its MIE (bit 3) and MPIE (bit 7) bits replaced. */
  function WithEnables(w: Word, mie: bool, mpie: bool): Word {
    (w & 0xffff_ff77) | (if mie then 8 else 0) | (if mpie then 0x80 else 0)
  }

  /** Trap entry: save the PC and the cause, push the interrupt enable. `before` is the state the edge started from. */
  function EnterTrap(csrs: Csrs, before: Csrs, pc: Word, cause: Word): Csrs {
    csrs.(mepc := pc, mcause := cause, mstatus := WithEnables(csrs.mstatus, false, Flag(before.mstatus, 3)))
  }

  /** MRET: pop the interrupt enable. */
  function LeaveTrap(csrs: Csrs): Csrs {
    csrs.(mstatus := WithEnables(csrs.mstatus, Flag(csrs.mstatus, 7), true))
  }

  // ---- combinational signals ----

  function EffectOf(s: State, p: Pins): Effect {
    match s.ex
    case NoEx => IDLE
    case Ex(w, pc, a, b) => Execute(w, pc, a, b, CsrRead(s.csrs, s.mip, s.mtime, CsrOf(w)), s.csrs.mepc, p.deviceData)
  }

  predicate BusWait(s: State, p: Pins) { s.data.Waiting? && !p.memReady }

  predicate StartsBus(s: State, x: Effect) { x.mem.OnBus() && s.data.NoData? }

  predicate Stalled(s: State, p: Pins, x: Effect) { BusWait(s, p) || StartsBus(s, x) }

  predicate Commits(s: State, p: Pins) { s.data.Waiting? && p.memReady && s.data.isLoad }

  /** The register file's write port. */
  datatype Port = Port(we: bool, rd: RegId, value: Word)

  function WritePort(s: State, p: Pins, x: Effect): Port {
    if Commits(s, p) then Port(true, s.data.rd, p.memData) else Port(x.we, x.rd, x.value)
  }

  predicate TimerFires(s: State) { Flag(s.csrs.mstatus, 3) && Flag(s.csrs.mie, 7) && Flag(s.mip, 7) }

  predicate ExternalFires(s: State) { Flag(s.csrs.mstatus, 3) && Flag(s.csrs.mie, 11) && Flag(s.mip, 11) }

  predicate IrqFires(s: State) { TimerFires(s) || ExternalFires(s) }

  function IrqCause(s: State): Word {
    if TimerFires(s) && (!ExternalFires(s) || !s.csrs.irqPriority) then CAUSE_TIMER else CAUSE_EXTERNAL
  }

  /** An interrupt is taken in this cycle: one fires and the executing instruction does not trap itself. */
  predicate TakesIrq(s: State, x: Effect) { !x.trap && IrqFires(s) }

  predicate Traps(s: State, x: Effect) { x.trap || IrqFires(s) }

  function TrapCause(s: State, x: Effect): Word { if x.trap then x.cause else IrqCause(s) }

  /** The PC a trap saves: that of the oldest of EX, ID and IF, or else the next fetch address. */
  function TrapPc(s: State): Word {
    if s.ex.Ex? then s.ex.pc else if s.id.Held? then s.id.pc else if s.ifs.Held? then s.ifs.pc else s.pcFetch
  }

  predicate Flushes(s: State, x: Effect) { Traps(s, x) || x.jump }

  predicate LoadUse(s: State) {
    && s.data.Waiting? && s.data.isLoad && s.id.Held?
    && ((UsesRs1(s.id.instr) && Rs1(s.id.instr) != 0 && Rs1(s.id.instr) == s.data.rd)
        || (UsesRs2(s.id.instr) && Rs2(s.id.instr) != 0 && Rs2(s.id.instr) == s.data.rd))
  }

  predicate ExAccepts(s: State, p: Pins, x: Effect) { s.ex.NoEx? || !Stalled(s, p, x) }

  predicate IdStalls(s: State, p: Pins, x: Effect) { LoadUse(s) || (!ExAccepts(s, p, x) && s.id.Held?) }

  predicate IdAccepts(s: State, p: Pins, x: Effect) { s.ifs.Held? && s.id.Empty? && !IdStalls(s, p, x) }

  predicate IdMoves(s: State, p: Pins, x: Effect) { s.id.Held? && !IdStalls(s, p, x) && ExAccepts(s, p, x) }

  predicate SlotMoves(s: State, accepts: bool) { s.slot.Held? && (s.ifs.Empty? || accepts) }

  /** A newly fetched word goes to IF (and otherwise to the prefetch slot). */
  predicate ToIf(s: State, accepts: bool) { (s.ifs.Empty? || accepts) && !SlotMoves(s, accepts) }

  /** No request is outstanding and fewer than two fetched words are buffered. */
  predicate CanFetch(s: State) { s.fetch.NoFetch? && !(s.ifs.Held? && s.slot.Held?) }

  predicate Arrives(s: State, p: Pins) { s.fetch.Fetching? && p.imemReady }

  function CacheRow(cfg: Config, addr: Word): Row { Row(WordIndex(addr) & ((1 << cfg.indexBits) - 1)) }

  function CacheTag(cfg: Config, addr: Word): Word { WordIndex(addr) >> cfg.indexBits }

  predicate Hits(cfg: Config, s: State) {
    && cfg.cached
    && CacheRow(cfg, s.pcFetch) in s.icache
    && s.icache[CacheRow(cfg, s.pcFetch)].tag == CacheTag(cfg, s.pcFetch)
  }

  function HitWord(cfg: Config, s: State): Word
    requires Hits(cfg, s)
  {
    s.icache[CacheRow(cfg, s.pcFetch)].word
  }

  /** Operand read in ID: the write port bypasses the register file when EX finishes this cycle. */
  function Operand(s: State, p: Pins, x: Effect, r: RegId, uses: bool): Word {
    var port := WritePort(s, p, x);
    if s.ex.Ex? && !Stalled(s, p, x) && port.we && port.rd != 0 && port.rd == r && uses then port.value
    else Read(s.regs, r)
  }

  /** EX holding `w` with its operands read from the register file. */
  function Loaded(w: Word, pc: Word, regs: Regs): ExSlot { Ex(w, pc, Read(regs, Rs1(w)), Read(regs, Rs2(w))) }

  // ---- next values, register by register ----

  function NextPcFetch(s: State, x: Effect): Word {
    if Traps(s, x) then s.csrs.mtvec
    else if x.jump then x.target
    else if CanFetch(s) then Next(s.pcFetch)
    else s.pcFetch
  }

  function NextFetch(cfg: Config, s: State, p: Pins, x: Effect): Fetch {
    if Flushes(s, x) || Arrives(s, p) then NoFetch
    else if CanFetch(s) && !Hits(cfg, s) then
      Fetching(s.pcFetch, cfg.cached, CacheRow(cfg, s.pcFetch), CacheTag(cfg, s.pcFetch))
    else s.fetch
  }

  function NextIf(cfg: Config, s: State, p: Pins, x: Effect): Slot {
    var accepts := IdAccepts(s, p, x);
    if Flushes(s, x) then Empty
    else if Arrives(s, p) && ToIf(s, accepts) then Held(p.imemData, s.fetch.addr)
    else if SlotMoves(s, accepts) then s.slot
    else if accepts then Empty
    else if CanFetch(s) && Hits(cfg, s) && ToIf(s, accepts) then Held(HitWord(cfg, s), s.pcFetch)
    else s.ifs
  }

  function NextSlot(cfg: Config, s: State, p: Pins, x: Effect): Slot {
    var accepts := IdAccepts(s, p, x);
    if Flushes(s, x) then Empty
    else if Arrives(s, p) && !ToIf(s, accepts) then Held(p.imemData, s.fetch.addr)
    else if SlotMoves(s, accepts) then Empty
    else if CanFetch(s) && Hits(cfg, s) && !ToIf(s, accepts) then Held(HitWord(cfg, s), s.pcFetch)
    else s.slot
  }

  function NextId(s: State, p: Pins, x: Effect): Slot {
    if Flushes(s, x) || IdMoves(s, p, x) then Empty
    else if IdAccepts(s, p, x) then s.ifs
    else s.id
  }

  function NextEx(s: State, p: Pins, x: Effect): ExSlot {
    if Flushes(s, x) then NoEx
    else if IdMoves(s, p, x) then
      var w := s.id.instr;
      Ex(w, s.id.pc, Operand(s, p, x, Rs1(w), UsesRs1(w)), Operand(s, p, x, Rs2(w), UsesRs2(w)))
    else if !Stalled(s, p, x) then NoEx
    else s.ex
  }

  function NextData(s: State, p: Pins, x: Effect): Data {
    if StartsBus(s, x) then
      match x.mem
      case Load(addr) => Waiting(true, x.rd, addr, 0)
      case Store(addr, data) => Waiting(false, x.rd, addr, data)
      case _ => s.data
    else if p.memReady then NoData
    else s.data
  }

  function NextCsrs(s: State, x: Effect): Csrs {
    var written := if x.csrWe && s.ex.Ex? then CsrWrite(s.csrs, CsrOf(s.ex.instr), x.csrData) else s.csrs;
    if Traps(s, x) then EnterTrap(written, s.csrs, TrapPc(s), TrapCause(s, x))
    else if x.mret then LeaveTrap(written)
    else written
  }

  predicate CsrHit(s: State, x: Effect, name: CsrName) { x.csrWe && s.ex.Ex? && CsrOf(s.ex.instr) == name }

  function WithBit(w: Word, i: bv5, b: bool): Word {
    (w & !((1 as Word) << i)) | (if b then (1 as Word) << i else 0)
  }

  /** The timer interrupt line: the comparator or an outside timer. */
  predicate TimerLevel(s: State, p: Pins) { AtLeast(s.mtime, s.csrs.mtimecmp) || p.timerIrq }

  function NextMip(s: State, p: Pins, x: Effect): Word {
    var sampled :=
      if CsrHit(s, x, Mip) then x.csrData
      else WithBit(WithBit(s.mip, 7, TimerLevel(s, p)), 11, p.extIrq);
    if CsrHit(s, x, IrqAck) && Flag(x.csrData, 1) then WithBit(sampled, 11, false) else sampled
  }

  function NextMtime(s: State, x: Effect): Word {
    if CsrHit(s, x, MTime) then x.csrData else s.mtime + 1
  }

  function NextCache(cfg: Config, s: State, p: Pins, x: Effect): map<Row, Line> {
    if !Flushes(s, x) && Arrives(s, p) && s.fetch.cacheable && cfg.cached
    then s.icache[s.fetch.row := Line(s.fetch.tag, p.imemData)]
    else s.icache
  }

  /** One clock edge, given what the execute stage asks for. */
  function StepWith(cfg: Config, s: State, p: Pins, x: Effect): State {
    var port := WritePort(s, p, x);
    State(
      NextPcFetch(s, x), NextFetch(cfg, s, p, x), NextIf(cfg, s, p, x), NextSlot(cfg, s, p, x),
      NextId(s, p, x), NextEx(s, p, x), NextData(s, p, x),
      Write(s.regs, port.we, port.rd, port.value), NextCsrs(s, x), NextMip(s, p, x), NextMtime(s, x),
      CsrHit(s, x, IrqAck) && Flag(x.csrData, 0), CsrHit(s, x, IrqAck) && Flag(x.csrData, 1),
      NextCache(cfg, s, p, x))
  }

  function Step(cfg: Config, s: State, p: Pins): State {
    StepWith(cfg, s, p, EffectOf(s, p))
  }
}
