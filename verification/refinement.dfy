/** Every run of the pipelined core is a run of the sequential machine. */
module Refinement {
  import opened Words
  import opened RegisterFile
  import opened ExecuteStage
  import opened Core
  import opened Sequential
  import opened Stream

  /** What the environment chooses in one cycle: which memories answer, what a peripheral returns, which interrupt
      lines are up. */
  datatype Inputs = Inputs(imemReady: bool, memReady: bool, deviceData: Word, timerIrq: bool, extIrq: bool)

  /** The core together with its data memory. */
  datatype Board = Board(core: State, ram: Ram)

  /** The buses carry the memories' words. */
  function PinsOf(rom: Rom, y: Board, i: Inputs): Pins {
    Pins(i.imemReady, if y.core.fetch.Fetching? then FetchWord(rom, y.core.fetch.addr) else 0,
         i.memReady, if y.core.data.Waiting? then RamRead(y.ram, y.core.data.addr) else 0,
         i.deviceData, i.timerIrq, i.extIrq)
  }

  function NextRam(y: Board, memReady: bool): Ram {
    if y.core.data.Waiting? && !y.core.data.isLoad && memReady
    then RamWrite(y.ram, y.core.data.addr, y.core.data.wdata) else y.ram
  }

  function CycleWith(cfg: Config, y: Board, p: Pins, x: Effect): Board {
    Board(StepWith(cfg, y.core, p, x), NextRam(y, p.memReady))
  }

  function Cycle(cfg: Config, rom: Rom, y: Board, i: Inputs): Board {
    var p := PinsOf(rom, y, i);
    CycleWith(cfg, y, p, EffectOf(y.core, p))
  }

  /** The architectural state a pipeline state stands for. */
  function Abs(y: Board): Arch { Arch(ArchPc(y.core), y.core.regs, y.core.csrs, y.ram) }

  predicate Retires(s: State, p: Pins, x: Effect) { s.ex.Ex? && !Stalled(s, p, x) }

  /** The sequential step a cycle performs. */
  function LabelOf(s: State, p: Pins, x: Effect): Label {
    if TakesIrq(s, x) then Interrupted(IrqCause(s))
    else if Retires(s, p, x) then Retired(Env(s.mip, s.mtime, p.deviceData))
    else Quiet
  }

  /** No instruction is in EX, and the oldest one is in a buffer or about to be requested. */
  predicate Interruptible(s: State) {
    s.ex.NoEx? && !(s.id.Empty? && s.ifs.Empty? && s.fetch.Fetching?)
  }

  /** A cycle in which the core keeps its promises: no cache hit is lost and an interrupt comes at an interruptible
      point. */
  predicate Smooth(cfg: Config, s: State, p: Pins, x: Effect) {
    !HitLost(cfg, s, p, x) && (TakesIrq(s, x) ==> Interruptible(s))
  }

  // ---- the invariant ----

  /** The operands latched in EX are the current register values. */
  ghost predicate Operands(s: State) {
    s.ex.Ex? ==>
      && (UsesRs1(s.ex.instr) ==> s.ex.a == Read(s.regs, Rs1(s.ex.instr)))
      && (UsesRs2(s.ex.instr) ==> s.ex.b == Read(s.regs, Rs2(s.ex.instr)))
  }

  function RequestFor(x: Effect): Data
    requires x.mem.OnBus()
  {
    if x.mem.Load? then Waiting(true, x.rd, x.mem.addr, 0) else Waiting(false, x.rd, x.mem.addr, x.mem.data)
  }

  /** A pending data request is the one the instruction in EX asks for. */
  ghost predicate RequestMatches(s: State) {
    s.data.Waiting? ==>
      && s.ex.Ex?
      && var x := Execute(s.ex.instr, s.ex.pc, s.ex.a, s.ex.b, 0, 0, 0);
         x.mem.OnBus() && s.data == RequestFor(x)
  }

  ghost predicate Inv(cfg: Config, rom: Rom, s: State) {
    Consecutive(s) && Genuine(rom, s) && CacheOk(cfg, rom, s) && Operands(s) && RequestMatches(s)
  }

  /** What the invariant says about the effect of the instruction in EX. */
  ghost predicate EffectFits(s: State, x: Effect) {
    && Orderly(x)
    && (s.ex.NoEx? ==> x == IDLE)
    && (s.data.Waiting? ==> s.ex.Ex? && x.mem.OnBus() && s.data == RequestFor(x))
  }

  /** Which bus access an instruction makes depends on its operands only. */
  lemma BusUseIsFixed(w: Word, pc: Word, a: Word, b: Word, c: Word, m: Word, d: Word)
    ensures var x, y := Execute(w, pc, a, b, c, m, d), Execute(w, pc, a, b, 0, 0, 0);
      x.mem.OnBus() == y.mem.OnBus() && (x.mem.OnBus() ==> RequestFor(x) == RequestFor(y))
  {
    hide FormatOf, Alu, ExecuteOp, ExecuteBranch, ExecuteSystem, ExecuteLoad, ExecuteStore, ImmI, ImmJ, ImmU, Rd;
    hide Funct3;
    LoadAccessIsFixed(w, a, d);
    OpHasNoAccess(w, a, b);
    BranchHasNoAccess(w, pc, a, b);
    SystemHasNoAccess(w, a, c, m);
    SystemHasNoAccess(w, a, 0, 0);
  }

  lemma LoadAccessIsFixed(w: Word, a: Word, d: Word)
    ensures var x, y := ExecuteLoad(w, a, d), ExecuteLoad(w, a, 0);
      x.mem == y.mem && (x.mem.OnBus() ==> x.rd == y.rd)
  {
    hide ImmI, IsDevice, Rd;
  }

  lemma OpHasNoAccess(w: Word, a: Word, b: Word)
    ensures ExecuteOp(w, a, b).mem.NoMem?
  {
    hide Alu, Rd;
  }

  lemma BranchHasNoAccess(w: Word, pc: Word, a: Word, b: Word)
    ensures ExecuteBranch(w, pc, a, b).mem.NoMem?
  {
    hide ImmB, SignedLess;
  }

  lemma SystemHasNoAccess(w: Word, a: Word, c: Word, m: Word)
    ensures ExecuteSystem(w, a, c, m).mem.NoMem?
  {
    hide Rd, Rs1;
  }

  lemma EffectFitsInv(cfg: Config, rom: Rom, s: State, p: Pins)
    requires Inv(cfg, rom, s)
    ensures EffectFits(s, EffectOf(s, p))
  {
    hide Execute, CsrRead, CsrOf, UsesRs1, UsesRs2, Rs1, Rs2, Genuine, CacheOk, Consecutive;
    if s.ex.Ex? {
      var c := CsrRead(s.csrs, s.mip, s.mtime, CsrOf(s.ex.instr));
      EffectsAreOrderly(s.ex.instr, s.ex.pc, s.ex.a, s.ex.b, c, s.csrs.mepc, p.deviceData);
      BusUseIsFixed(s.ex.instr, s.ex.pc, s.ex.a, s.ex.b, c, s.csrs.mepc, p.deviceData);
    }
  }

  /** The write port is driven only when the instruction in EX completes. */
  lemma PortNeedsRetirement(s: State, p: Pins, x: Effect)
    requires EffectFits(s, x)
    ensures WritePort(s, p, x).we ==> Retires(s, p, x)
  {
  }

  lemma OperandsStep(cfg: Config, s: State, p: Pins, x: Effect)
    requires Operands(s) && EffectFits(s, x)
    ensures Operands(StepWith(cfg, s, p, x))
  {
    hide Read, Write, WritePort, NextMip, NextMtime, NextCsrs, NextData, NextIf, NextSlot, NextFetch, NextPcFetch;
    hide NextCache, NextId, IdMoves, Flushes, Orderly, UsesRs1, UsesRs2, Rs1, Rs2, RequestFor, Stalled;
    PortNeedsRetirement(s, p, x);
    var port := WritePort(s, p, x);
    NoWrite(s.regs, port);
    if NextEx(s, p, x).Ex? {
      var w := NextEx(s, p, x).instr;
      ReadAfterWrite(s.regs, port.we, port.rd, port.value, Rs1(w));
      ReadAfterWrite(s.regs, port.we, port.rd, port.value, Rs2(w));
      ReadZero(s.regs);
    }
  }

  lemma NoWrite(regs: Regs, port: Port)
    ensures !port.we ==> Write(regs, port.we, port.rd, port.value) == regs
  {
  }

  lemma ReadZero(regs: Regs)
    ensures Read(regs, 0) == 0
  {
  }

  lemma RequestStep(cfg: Config, rom: Rom, s: State, p: Pins)
    requires Inv(cfg, rom, s) && Smooth(cfg, s, p, EffectOf(s, p))
    ensures RequestMatches(Step(cfg, s, p))
  {
    hide Execute, CsrRead, CsrOf, NextMip, NextMtime, NextCsrs, NextIf, NextSlot, NextFetch, NextPcFetch, NextCache;
    hide NextId, UsesRs1, UsesRs2, Rs1, Rs2, Genuine, CacheOk, Consecutive, Operand, IrqFires, HitLost, Operands;
    hide WritePort, LoadUse;
    var x := EffectOf(s, p);
    EffectFitsInv(cfg, rom, s, p);
    if s.ex.Ex? {
      BusUseIsFixed(s.ex.instr, s.ex.pc, s.ex.a, s.ex.b, CsrRead(s.csrs, s.mip, s.mtime, CsrOf(s.ex.instr)),
          s.csrs.mepc, p.deviceData);
    }
  }

  /** The invariant holds after reset and after every smooth cycle. */
  lemma InvInit(cfg: Config, rom: Rom)
    ensures Inv(cfg, rom, RESET)
  {
  }

  lemma InvStep(cfg: Config, rom: Rom, s: State, p: Pins)
    requires cfg.Valid() && Inv(cfg, rom, s) && BusAnswers(rom, s, p) && Smooth(cfg, s, p, EffectOf(s, p))
    ensures Inv(cfg, rom, Step(cfg, s, p))
  {
    hide Consecutive, Genuine, CacheOk, Operands, RequestMatches, StepWith, EffectOf, BusAnswers, TakesIrq, HitLost;
    var x := EffectOf(s, p);
    EffectFitsInv(cfg, rom, s, p);
    StreamStep(cfg, rom, s, p, x);
    CacheStep(cfg, rom, s, p, x);
    OperandsStep(cfg, s, p, x);
    RequestStep(cfg, rom, s, p);
  }

  // ---- one cycle ----

  lemma PcStep(cfg: Config, s: State, p: Pins, x: Effect)
    requires Consecutive(s) && !Flushes(s, x) && !HitLost(cfg, s, p, x)
    ensures ArchPc(StepWith(cfg, s, p, x)) == if Retires(s, p, x) then IdPc(s) else ArchPc(s)
  {
    hide CacheRow, CacheTag, Traps, NextMip, NextMtime, NextCsrs, NextData, NextCache, WritePort, Operand, LoadUse;
    hide Stalled, Hits, HitWord, Next;
  }

  lemma FlushedPc(cfg: Config, s: State, p: Pins, x: Effect)
    requires Flushes(s, x)
    ensures ArchPc(StepWith(cfg, s, p, x)) == if Traps(s, x) then s.csrs.mtvec else x.target
  {
    hide NextMip, NextMtime, NextCsrs, NextData, NextCache, WritePort, IrqFires;
  }

  lemma RetireCycle(cfg: Config, y: Board, p: Pins, x: Effect)
    requires Consecutive(y.core) && EffectFits(y.core, x) && !HitLost(cfg, y.core, p, x)
    requires Retires(y.core, p, x) && !TakesIrq(y.core, x)
    requires y.core.data.Waiting? ==> p.memData == RamRead(y.ram, y.core.data.addr)
    ensures Abs(CycleWith(cfg, y, p, x)) == Complete(Abs(y), CsrOf(y.core.ex.instr), x)
  {
    hide NextMip, NextMtime, NextIf, NextSlot, NextFetch, NextPcFetch, NextCache, NextId, NextEx, Operand, IrqFires;
    hide HitLost, IdPc, Write, CsrWrite, WithEnables, Flag, RamRead, RamWrite, CsrOf, Next;
    var s := y.core;
    if Flushes(s, x) { FlushedPc(cfg, s, p, x); } else { PcStep(cfg, s, p, x); }
  }

  lemma QuietCycle(cfg: Config, y: Board, p: Pins, x: Effect)
    requires Consecutive(y.core) && EffectFits(y.core, x) && !HitLost(cfg, y.core, p, x)
    requires !Retires(y.core, p, x) && !TakesIrq(y.core, x)
    ensures Abs(CycleWith(cfg, y, p, x)) == Abs(y)
  {
    hide NextMip, NextMtime, NextIf, NextSlot, NextFetch, NextPcFetch, NextCache, NextId, NextEx, Operand, IrqFires;
    hide HitLost, Consecutive, ArchPc, Write, CsrWrite, WithEnables, Flag, RamRead, RamWrite, CsrOf, Next;
    var s := y.core;
    PortNeedsRetirement(s, p, x);
    NoWrite(s.regs, WritePort(s, p, x));
    PcStep(cfg, s, p, x);
  }

  lemma InterruptCycle(cfg: Config, y: Board, p: Pins, x: Effect)
    requires Consecutive(y.core) && EffectFits(y.core, x)
    requires TakesIrq(y.core, x) && y.core.ex.NoEx?
    ensures Abs(CycleWith(cfg, y, p, x)) ==
        Interrupt(Abs(y), IrqCause(y.core)).(csrs := EnterTrap(y.core.csrs, y.core.csrs, TrapPc(y.core),
        IrqCause(y.core)))
  {
    hide NextMip, NextMtime, NextIf, NextSlot, NextFetch, NextPcFetch, NextCache, NextId, NextEx, Operand, ArchPc;
    hide Consecutive, Write, CsrWrite, WithEnables, Flag, CsrOf, TrapPc, IrqCause, EnterTrap, IrqFires;
    var s := y.core;
    PortNeedsRetirement(s, p, x);
    NoWrite(s.regs, WritePort(s, p, x));
    FlushedPc(cfg, s, p, x);
  }

  /** The effect in EX is the one the sequential machine computes from the registers. */
  lemma EffectIsSequential(cfg: Config, rom: Rom, y: Board, p: Pins)
    requires Inv(cfg, rom, y.core) && y.core.ex.Ex?
    ensures FetchWord(rom, Abs(y).pc) == y.core.ex.instr
    ensures SeqEffect(rom, Abs(y), Env(y.core.mip, y.core.mtime, p.deviceData)) == EffectOf(y.core, p)
  {
    hide Execute, CsrRead, CsrOf, UsesRs1, UsesRs2, Rs1, Rs2, Read, Consecutive, CacheOk, RequestMatches, FetchWord;
    var s := y.core;
    var w := s.ex.instr;
    UnusedOperands(w, s.ex.pc, s.ex.a, s.ex.b, Read(s.regs, Rs1(w)), Read(s.regs, Rs2(w)),
                   CsrRead(s.csrs, s.mip, s.mtime, CsrOf(w)), s.csrs.mepc, p.deviceData);
  }

  /** One smooth clock cycle performs exactly the sequential step its label names. */
  lemma CycleRefines(cfg: Config, rom: Rom, y: Board, i: Inputs)
    requires cfg.Valid() && Inv(cfg, rom, y.core)
    requires var p := PinsOf(rom, y, i); Smooth(cfg, y.core, p, EffectOf(y.core, p))
    ensures var p := PinsOf(rom, y, i);
      Abs(Cycle(cfg, rom, y, i)) == Apply(rom, Abs(y), LabelOf(y.core, p, EffectOf(y.core, p)))
    ensures Inv(cfg, rom, Cycle(cfg, rom, y, i).core)
  {
    hide Abs, Consecutive, Genuine, CacheOk, Operands, RequestMatches, StepWith, EffectOf, TakesIrq, HitLost, EffectOn;
    hide Complete, EffectFits, Retires, NextRam, Interruptible, FetchWord, RamRead, Interrupt, EnterTrap, IrqCause;
    var p := PinsOf(rom, y, i);
    var x := EffectOf(y.core, p);
    InvStep(cfg, rom, y.core, p);
    EffectFitsInv(cfg, rom, y.core, p);
    if TakesIrq(y.core, x) {
      InterruptAtBoundary(cfg, y, p, x);
    } else if Retires(y.core, p, x) {
      RetiresFromEx(y.core, p, x);
      EffectIsSequential(cfg, rom, y, p);
      RetireCycle(cfg, y, p, x);
    } else {
      QuietCycle(cfg, y, p, x);
    }
  }

  lemma RetiresFromEx(s: State, p: Pins, x: Effect)
    requires Retires(s, p, x)
    ensures s.ex.Ex?
  {
  }

  /** At an interruptible point the cycle that takes an interrupt is exactly the architectural interrupt. */
  lemma InterruptAtBoundary(cfg: Config, y: Board, p: Pins, x: Effect)
    requires Consecutive(y.core) && EffectFits(y.core, x) && TakesIrq(y.core, x) && Interruptible(y.core)
    ensures Abs(CycleWith(cfg, y, p, x)) == Interrupt(Abs(y), IrqCause(y.core))
  {
    hide CycleWith, EnterTrap, IrqCause, Consecutive, EffectFits, TakesIrq, TrapPc, ArchPc;
    InterruptCycle(cfg, y, p, x);
    TrapPcIsArchPc(y.core);
  }
}
