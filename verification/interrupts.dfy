/** Taking an interrupt and coming back. */
module Interrupts {
  import opened Words
  import opened RegisterFile
  import opened ExecuteStage
  import opened Core
  import opened Sequential
  import opened Stream
  import opened Refinement
  import opened Runs
  import MachineLaws

  /** With EX empty, the cycle that takes an interrupt is the architectural interrupt if and only if the
      oldest instruction is not still on the instruction bus; otherwise the saved PC skips it. */
  lemma PreciseIffNotFetching(cfg: Config, rom: Rom, y: Board, i: Inputs)
    requires Inv(cfg, rom, y.core)
    requires var p := PinsOf(rom, y, i); TakesIrq(y.core, EffectOf(y.core, p))
    requires y.core.ex.NoEx?
    ensures Abs(Cycle(cfg, rom, y, i)) == Interrupt(Abs(y), IrqCause(y.core)) <==> Interruptible(y.core)
  {
    hide CycleWith, WithEnables, IrqCause, Consecutive, Genuine, CacheOk, Operands, RequestMatches, EffectFits;
    hide TakesIrq, TrapPc, ArchPc, EffectOf;
    var p := PinsOf(rom, y, i);
    EffectFitsInv(cfg, rom, y.core, p);
    InterruptCycle(cfg, y, p, EffectOf(y.core, p));
    TrapPcIsArchPc(y.core);
  }

  /** The instruction completing in EX writes its register and its memory word, interrupt or not. */
  lemma CompletedData(y: Board, p: Pins, x: Effect)
    requires EffectFits(y.core, x) && Retires(y.core, p, x)
    requires y.core.data.Waiting? ==> p.memData == RamRead(y.ram, y.core.data.addr)
    ensures var done, port := Complete(Abs(y), CsrOf(y.core.ex.instr), x), WritePort(y.core, p, x);
      Write(y.core.regs, port.we, port.rd, port.value) == done.regs && NextRam(y, p.memReady) == done.ram
  {
    hide Write, CsrWrite, EnterTrap, LeaveTrap, RamRead, RamWrite, CsrOf, Next, ArchPc;
  }

  /** Its CSR write takes place, and trap entry over it. */
  lemma CompletedCsrs(y: Board, x: Effect)
    requires Orderly(x) && TakesIrq(y.core, x) && y.core.ex.Ex? && !x.mret
    ensures var done := Complete(Abs(y), CsrOf(y.core.ex.instr), x);
      NextCsrs(y.core, x) == EnterTrap(done.csrs, y.core.csrs, y.core.ex.pc, IrqCause(y.core))
  {
    hide Write, CsrWrite, EnterTrap, LeaveTrap, RamRead, RamWrite, CsrOf, Next, ArchPc, IrqFires, IrqCause;
  }

  lemma InterruptedRetirement(cfg: Config, y: Board, p: Pins, x: Effect)
    requires EffectFits(y.core, x) && TakesIrq(y.core, x) && Retires(y.core, p, x) && !x.mret
    requires y.core.data.Waiting? ==> p.memData == RamRead(y.ram, y.core.data.addr)
    ensures var done, csrs := Complete(Abs(y), CsrOf(y.core.ex.instr), x), y.core.csrs;
      Abs(CycleWith(cfg, y, p, x)) ==
        Arch(csrs.mtvec, done.regs, EnterTrap(done.csrs, csrs, y.core.ex.pc, IrqCause(y.core)), done.ram)
  {
    hide NextMip, NextMtime, NextIf, NextSlot, NextFetch, NextPcFetch, NextCache, NextId, NextEx, NextData, NextCsrs;
    hide Complete, EnterTrap, IrqFires, IrqCause, Write, WritePort, RamRead, CsrOf, ArchPc, Stalled, NextRam;
    hide EffectFits;
    FlushedPc(cfg, y.core, p, x);
    CompletedData(y, p, x);
    assert Orderly(x) by { FitsOrderly(y.core, x); }
    CompletedCsrs(y, x);
  }

  lemma FitsOrderly(s: State, x: Effect)
    requires EffectFits(s, x)
    ensures Orderly(x)
  {
  }

  /** With an instruction completing in EX, the interrupt saves that instruction's own PC although all its
      effects take place: the handler will return to an instruction that has already run. */
  lemma InterruptRepeatsInstruction(cfg: Config, rom: Rom, y: Board, i: Inputs)
    requires Inv(cfg, rom, y.core)
    requires var p := PinsOf(rom, y, i); var x := EffectOf(y.core, p);
      TakesIrq(y.core, x) && Retires(y.core, p, x) && !x.mret
    ensures var p := PinsOf(rom, y, i); var env := Env(y.core.mip, y.core.mtime, p.deviceData);
      var done := SeqStep(rom, Abs(y), env);
      Abs(Cycle(cfg, rom, y, i)) ==
        Arch(y.core.csrs.mtvec, done.regs, EnterTrap(done.csrs, y.core.csrs, ArchPc(y.core), IrqCause(y.core)),
            done.ram)
      && CycleAccesses(rom, y, i) == LabelAccesses(rom, Abs(y), Retired(env))
  {
    AccessesOfCompletion(cfg, rom, y, i);
    hide EffectOf, CycleWith, EffectOn, Complete, EnterTrap, IrqCause, TakesIrq, FetchWord, RamRead, CsrOf, Consecutive;
    hide Genuine, CacheOk, Operands, RequestMatches, EffectFits, Stalled;
    var s, p := y.core, PinsOf(rom, y, i);
    EffectFitsInv(cfg, rom, s, p);
    EffectIsSequential(cfg, rom, y, p);
    InterruptedRetirement(cfg, y, p, EffectOf(s, p));
  }

  lemma InterruptedMret(cfg: Config, y: Board, p: Pins, x: Effect)
    requires EffectFits(y.core, x) && TakesIrq(y.core, x) && y.core.ex.Ex? && x.mret
    ensures Abs(CycleWith(cfg, y, p, x)) == Interrupt(Abs(y), IrqCause(y.core))
  {
    hide NextMip, NextMtime, NextIf, NextSlot, NextFetch, NextPcFetch, NextCache, NextId, NextEx, Operand, IrqFires;
    hide IrqCause, CsrWrite, WithEnables, Flag, RamRead, RamWrite, CsrOf, Next, IdPc;
    FlushedPc(cfg, y.core, p, x);
    NoWrite(y.core.regs, WritePort(y.core, p, x));
  }

  // ---- exactly when an interrupt is exact ----

  /** `mstatus` without its two enable bits. */
  function Masked(w: Word): Word { w & 0xffff_ff77 }

  /** After trap entry nothing shows in the architectural CSRs of a write of `v` to the named one: the trap overwrites
      `mepc`, `mcause` and the enable bits of `mstatus`, and the others hold `v` already. Writes to `mip`, `mtime` and
      the acknowledge register change none of these; `AsideUnmoved` judges them. */
  predicate CsrUnmoved(csrs: Csrs, name: CsrName, v: Word) {
    match name
    case MStatus => Masked(v) == Masked(csrs.mstatus)
    case MTvec => v == csrs.mtvec
    case Mie => v == csrs.mie
    case MTimeCmp => v == csrs.mtimecmp
    case IrqPriority => Flag(v, 0) == csrs.irqPriority
    case _ => true
  }

  /** The registers besides the architectural state that a program can see or that reach the outside. */
  datatype AsideState = AsideState(mip: Word, mtime: Word, timerAck: bool, extAck: bool)

  function AsideOf(s: State): AsideState { AsideState(s.mip, s.mtime, s.timerAck, s.extAck) }

  /** A write of `v` to the named CSR leaves them as a cycle without it does: `mtime` one further, `mip` with the
      sampled lines, no acknowledge pulse. */
  predicate AsideUnmoved(s: State, p: Pins, name: CsrName, v: Word) {
    match name
    case MTime => v == s.mtime + 1
    case Mip => v == WithBit(WithBit(s.mip, 7, TimerLevel(s, p)), 11, p.extIrq)
    case IrqAck => !Flag(v, 0) && !Flag(v, 1)
    case _ => true
  }

  lemma MipUnmovedIff(s: State, p: Pins, x: Effect)
    requires s.ex.Ex? && x.csrWe && CsrOf(s.ex.instr) != IrqAck
    ensures NextMip(s, p, x) == NextMip(s, p, IDLE) <==>
      (CsrOf(s.ex.instr) == Mip ==> AsideUnmoved(s, p, Mip, x.csrData))
  {
    hide CsrOf, WithBit, Flag, TimerLevel;
  }

  lemma MtimeUnmovedIff(s: State, p: Pins, x: Effect)
    requires s.ex.Ex? && x.csrWe
    ensures NextMtime(s, x) == NextMtime(s, IDLE) <==>
      (CsrOf(s.ex.instr) == MTime ==> AsideUnmoved(s, p, MTime, x.csrData))
  {
    hide CsrOf;
  }

  lemma AckUnmoved(s: State, p: Pins, x: Effect)
    requires s.ex.Ex? && x.csrWe && CsrOf(s.ex.instr) == IrqAck && !Flag(x.csrData, 1)
    ensures NextMip(s, p, x) == NextMip(s, p, IDLE)
  {
    hide CsrOf, WithBit, Flag, TimerLevel;
  }

  lemma NoWriteUnmoved(s: State, p: Pins, x: Effect)
    requires !x.csrWe
    ensures NextMip(s, p, x) == NextMip(s, p, IDLE) && NextMtime(s, x) == NextMtime(s, IDLE) && !CsrHit(s, x, IrqAck)
  {
    hide CsrOf, WithBit, Flag, TimerLevel;
  }

  lemma AsideUnmovedIff(cfg: Config, s: State, p: Pins, x: Effect)
    requires s.ex.Ex?
    ensures AsideOf(StepWith(cfg, s, p, x)) == AsideOf(StepWith(cfg, s, p, IDLE))
            <==> (x.csrWe ==> AsideUnmoved(s, p, CsrOf(s.ex.instr), x.csrData))
  {
    hide NextPcFetch, NextFetch, NextIf, NextSlot, NextId, NextEx, NextData, NextCsrs, NextCache, WritePort, Write;
    hide CsrOf, WithBit, Flag, TimerLevel, NextMip, NextMtime;
    if !x.csrWe {
      NoWriteUnmoved(s, p, x);
    } else {
      MtimeUnmovedIff(s, p, x);
      if CsrOf(s.ex.instr) != IrqAck {
        MipUnmovedIff(s, p, x);
      } else if !Flag(x.csrData, 1) {
        AckUnmoved(s, p, x);
      }
    }
  }

  /** The value the instruction leaves in its destination register is the one already there. */
  predicate RegisterUnmoved(m: Arch, x: Effect) {
    if x.mem.Load? then x.rd == 0 || Read(m.regs, x.rd) == RamRead(m.ram, x.mem.addr)
    else x.we && x.rd != 0 ==> Read(m.regs, x.rd) == x.value
  }

  /** Completing an instruction with effect `x`, whose CSR field is `csr`, changes nothing but the PC and what a trap
      overwrites. */
  predicate WritesNothingNew(m: Arch, csr: CsrName, x: Effect) {
    && RegisterUnmoved(m, x)
    && (x.mem.Store? ==> CellAt(x.mem.addr) in m.ram && m.ram[CellAt(x.mem.addr)] == x.mem.data)
    && (x.csrWe ==> CsrUnmoved(m.csrs, csr, x.csrData))
  }

  lemma MaskKeeps(w: Word, a: bool, b: bool)
    ensures Masked(WithEnables(w, a, b)) == Masked(w)
  {
    // One bit at a time, so that the solver sees four constant masks.
    match (a, b)
    case (true, true) => assert Masked((w & 0xffff_ff77) | 8 | 0x80) == Masked(w);
    case (true, false) => assert Masked((w & 0xffff_ff77) | 8 | 0) == Masked(w);
    case (false, true) => assert Masked((w & 0xffff_ff77) | 0 | 0x80) == Masked(w);
    case (false, false) => assert Masked((w & 0xffff_ff77) | 0 | 0) == Masked(w);
  }

  lemma EnablesCongruent(v: Word, w: Word, a: bool, b: bool)
    requires Masked(v) == Masked(w)
    ensures WithEnables(v, a, b) == WithEnables(w, a, b)
  {
    assert v & 0xffff_ff77 == w & 0xffff_ff77;
  }

  lemma StatusUnmovedIff(v: Word, w: Word, a: bool, b: bool)
    ensures WithEnables(v, a, b) == WithEnables(w, a, b) <==> Masked(v) == Masked(w)
  {
    hide WithEnables, Masked;
    MaskKeeps(v, a, b);
    MaskKeeps(w, a, b);
    if Masked(v) == Masked(w) { EnablesCongruent(v, w, a, b); }
  }

  /** What trap entry keeps of the CSRs is the same in both. */
  predicate SameKept(a: Csrs, b: Csrs) {
    && Masked(a.mstatus) == Masked(b.mstatus) && a.mtvec == b.mtvec && a.mie == b.mie
    && a.mtimecmp == b.mtimecmp && a.irqPriority == b.irqPriority
  }

  lemma TrapKeeps(a: Csrs, b: Csrs, before: Csrs, pc: Word, cause: Word)
    ensures EnterTrap(a, before, pc, cause) == EnterTrap(b, before, pc, cause) <==> SameKept(a, b)
  {
    hide WithEnables, Flag, Masked;
    StatusUnmovedIff(a.mstatus, b.mstatus, false, Flag(before.mstatus, 3));
  }

  lemma SameKeptIff(csrs: Csrs, name: CsrName, v: Word)
    ensures SameKept(CsrWrite(csrs, name, v), csrs) <==> CsrUnmoved(csrs, name, v)
  {
    hide Flag, Masked;
  }

  lemma CsrUnmovedIff(csrs: Csrs, name: CsrName, v: Word, pc: Word, cause: Word)
    ensures EnterTrap(CsrWrite(csrs, name, v), csrs, pc, cause) == EnterTrap(csrs, csrs, pc, cause)
            <==> CsrUnmoved(csrs, name, v)
  {
    hide EnterTrap, SameKept, CsrWrite, CsrUnmoved;
    TrapKeeps(CsrWrite(csrs, name, v), csrs, csrs, pc, cause);
    SameKeptIff(csrs, name, v);
  }

  lemma WriteUnmovedIff(regs: Regs, we: bool, r: RegId, v: Word)
    ensures Write(regs, we, r, v) == regs <==> (we && r != 0 ==> Read(regs, r) == v)
  {
    if we && r != 0 { assert Write(regs, we, r, v)[r as nat] == v; }
  }

  lemma RamUnmovedIff(ram: Ram, addr: Word, v: Word)
    ensures RamWrite(ram, addr, v) == ram <==> CellAt(addr) in ram && ram[CellAt(addr)] == v
  {
    assert CellAt(addr) in RamWrite(ram, addr, v);
  }

  lemma CompletionUnmovedIff(m: Arch, csr: CsrName, x: Effect, cause: Word)
    requires !x.trap && !x.mret
    ensures var done := Complete(m, csr, x);
      && done.regs == m.regs && done.ram == m.ram
      && EnterTrap(done.csrs, m.csrs, m.pc, cause) == EnterTrap(m.csrs, m.csrs, m.pc, cause)
      <==> WritesNothingNew(m, csr, x)
  {
    hide Write, Read, RamRead, RamWrite, CsrWrite, EnterTrap, CsrUnmoved, Next;
    if x.mem.Load? {
      WriteUnmovedIff(m.regs, true, x.rd, RamRead(m.ram, x.mem.addr));
    } else {
      WriteUnmovedIff(m.regs, x.we, x.rd, x.value);
    }
    if x.mem.Store? { RamUnmovedIff(m.ram, x.mem.addr, x.mem.data); }
    CsrUnmovedIff(m.csrs, csr, x.csrData, m.pc, cause);
  }

  /** The cycle is the architectural interrupt, moves the other registers as a cycle without an instruction does, and
      leaves the pipeline in order. */
  ghost predicate Exact(cfg: Config, rom: Rom, y: Board, i: Inputs) {
    && Abs(Cycle(cfg, rom, y, i)) == Interrupt(Abs(y), IrqCause(y.core))
    && AsideOf(Cycle(cfg, rom, y, i).core) == AsideOf(StepWith(cfg, y.core, PinsOf(rom, y, i), IDLE))
    && Inv(cfg, rom, Cycle(cfg, rom, y, i).core)
  }

  /** Completing the instruction in EX, with effect `x`, changes nothing that the interrupt does not. */
  predicate Harmless(y: Board, p: Pins, x: Effect)
    requires y.core.ex.Ex?
  {
    var csr := CsrOf(y.core.ex.instr);
    x.mret || (WritesNothingNew(Abs(y), csr, x) && (x.csrWe ==> AsideUnmoved(y.core, p, csr, x.csrData)))
  }

  /** With the instruction in EX waiting on the data bus, or raising its request in this very cycle, the architectural
      state is that of the interrupt, but only the instruction is discarded: its request stays outstanding with no
      instruction behind it. `OrphanStrikes` says what becomes of it. */
  lemma InterruptOrphansRequest(cfg: Config, y: Board, p: Pins, x: Effect)
    requires Consecutive(y.core) && EffectFits(y.core, x) && TakesIrq(y.core, x)
    requires y.core.ex.Ex? && Stalled(y.core, p, x)
    ensures Abs(CycleWith(cfg, y, p, x)) == Interrupt(Abs(y), IrqCause(y.core))
    ensures var v := StepWith(cfg, y.core, p, x);
      x.mem.OnBus() && v.ex.NoEx? && v.data == RequestFor(x) && !RequestMatches(v)
  {
    hide NextMip, NextMtime, NextIf, NextSlot, NextFetch, NextPcFetch, NextCache, NextId, Operand, WithEnables;
    hide IrqFires, IrqCause, CsrWrite, Write, Execute, CsrOf, RamWrite, Consecutive;
    PortNeedsRetirement(y.core, p, x);
    NoWrite(y.core.regs, WritePort(y.core, p, x));
    FlushedPc(cfg, y.core, p, x);
  }

  /** When memory answers a request whose instruction is gone: a load writes its register all the same, in place of
      anything the instruction now in EX writes, and a store its memory word; and an instruction in EX that needs the
      bus completes on that answer, its own request never made. */
  lemma OrphanStrikes(cfg: Config, y: Board, p: Pins, x: Effect)
    requires y.core.data.Waiting? && p.memReady
    ensures var d, v := y.core.data, CycleWith(cfg, y, p, x);
      && v.core.regs == (if d.isLoad then Write(y.core.regs, true, d.rd, p.memData)
                         else Write(y.core.regs, x.we, x.rd, x.value))
      && v.ram == (if d.isLoad then y.ram else RamWrite(y.ram, d.addr, d.wdata))
      && (y.core.ex.Ex? && x.mem.OnBus() ==> Retires(y.core, p, x) && v.core.data == NoData)
  {
    hide NextMip, NextMtime, NextIf, NextSlot, NextFetch, NextPcFetch, NextCache, NextId, NextEx, NextCsrs, Write;
    hide RamWrite;
  }

  /** An interrupt with EX empty or completing leaves nothing of the pipeline, and so leaves it in order. */
  lemma FlushedInOrder(cfg: Config, rom: Rom, s: State, p: Pins, x: Effect)
    requires cfg.Valid() && CacheOk(cfg, rom, s) && BusAnswers(rom, s, p) && EffectFits(s, x) && TakesIrq(s, x)
    requires s.ex.NoEx? || !Stalled(s, p, x)
    ensures Inv(cfg, rom, StepWith(cfg, s, p, x))
  {
    CacheStep(cfg, rom, s, p, x);
    hide NextMip, NextMtime, NextCache, NextPcFetch, WritePort, NextCsrs, IrqFires, CacheOk, FetchWord, Orderly;
    hide Execute;
  }

  /** For every state of the pipeline that takes an interrupt: the cycle is exact, and the pipeline in order after it,
      if and only if EX is empty and the oldest instruction not still being fetched, or EX completes an MRET or an
      instruction that writes nothing new, to the architectural state or to `mip`, `mtime` and the acknowledge pins. */
  lemma InterruptExactIff(cfg: Config, rom: Rom, y: Board, i: Inputs)
    requires cfg.Valid() && Inv(cfg, rom, y.core)
    requires var p := PinsOf(rom, y, i); TakesIrq(y.core, EffectOf(y.core, p))
    ensures var p := PinsOf(rom, y, i); var x := EffectOf(y.core, p);
      Exact(cfg, rom, y, i) <==>
        if y.core.ex.NoEx? then Interruptible(y.core)
        else Retires(y.core, p, x) && Harmless(y, p, x)
  {
    hide AsideOf, AsideUnmoved, Abs, EffectOf, StepWith, NextRam, Complete, EnterTrap, IrqCause, FetchWord, RamRead;
    hide CsrOf, Consecutive, Genuine, CacheOk, Operands, RequestMatches, EffectFits, Stalled, IrqFires;
    hide WritesNothingNew, Interruptible, Inv;
    var s, p := y.core, PinsOf(rom, y, i);
    var x := EffectOf(s, p);
    InvParts(cfg, rom, s);
    EffectFitsInv(cfg, rom, s, p);
    if s.ex.NoEx? {
      assert x == IDLE by { NothingInEx(s, x); }
      PreciseIffNotFetching(cfg, rom, y, i);
      FlushedInOrder(cfg, rom, s, p, x);
    } else if Stalled(s, p, x) {
      InterruptOrphansRequest(cfg, y, p, x);
      NotInOrder(cfg, rom, StepWith(cfg, s, p, x));
    } else {
      FlushedInOrder(cfg, rom, s, p, x);
      AsideUnmovedIff(cfg, s, p, x);
      assert x.mret ==> !x.csrWe by { MretWritesNoCsr(s, x); }
      if x.mret { InterruptedMret(cfg, y, p, x); } else { CompletedExactIff(cfg, y, p, x); }
    }
  }

  lemma NothingInEx(s: State, x: Effect)
    requires EffectFits(s, x) && s.ex.NoEx?
    ensures x == IDLE
  {
  }

  lemma MretWritesNoCsr(s: State, x: Effect)
    requires EffectFits(s, x)
    ensures x.mret ==> !x.csrWe
  {
  }

  lemma InvParts(cfg: Config, rom: Rom, s: State)
    requires Inv(cfg, rom, s)
    ensures Consecutive(s) && CacheOk(cfg, rom, s) && RequestMatches(s)
  {
  }

  lemma NotInOrder(cfg: Config, rom: Rom, s: State)
    requires !RequestMatches(s)
    ensures !Inv(cfg, rom, s)
  {
  }

  lemma CompletedExactIff(cfg: Config, y: Board, p: Pins, x: Effect)
    requires EffectFits(y.core, x) && TakesIrq(y.core, x) && Retires(y.core, p, x) && !x.mret
    requires y.core.data.Waiting? ==> p.memData == RamRead(y.ram, y.core.data.addr)
    ensures Abs(CycleWith(cfg, y, p, x)) == Interrupt(Abs(y), IrqCause(y.core))
            <==> WritesNothingNew(Abs(y), CsrOf(y.core.ex.instr), x)
  {
    hide CycleWith, Complete, EnterTrap, IrqCause, RamRead, CsrOf, EffectFits, Stalled, IrqFires, WritesNothingNew;
    InterruptedRetirement(cfg, y, p, x);
    CompletionUnmovedIff(Abs(y), CsrOf(y.core.ex.instr), x, IrqCause(y.core));
  }

  /** The effect makes no memory access and no event in `mip`, `mtime` or the acknowledge register. */
  predicate Unseen(csr: CsrName, x: Effect) { x.mem.NoMem? && !(x.csrWe && Aside(csr)) }

  /** A cycle shows no access and no event exactly when no instruction with one completes in it. */
  lemma NoAccessIff(cfg: Config, rom: Rom, y: Board, i: Inputs)
    requires Inv(cfg, rom, y.core)
    ensures var p := PinsOf(rom, y, i); var x := EffectOf(y.core, p);
      CycleAccesses(rom, y, i) == [] <==> (Retires(y.core, p, x) ==> Unseen(CsrOf(y.core.ex.instr), x))
  {
    hide EffectOf, Abs, Inv, SeqEffect, RamRead, Stalled, CycleAccesses, FetchWord, CsrOf, Aside;
    var p := PinsOf(rom, y, i);
    AccessesOfCompletion(cfg, rom, y, i);
    if Retires(y.core, p, EffectOf(y.core, p)) { EffectIsSequential(cfg, rom, y, p); }
  }

  /** The same for what memory, peripherals and the free-running CSRs see: no access or event of the interrupted program
      is made, and later made again, if and only if, besides, the instruction completing in EX has none. */
  lemma InterruptUnseenIff(cfg: Config, rom: Rom, y: Board, i: Inputs)
    requires cfg.Valid() && Inv(cfg, rom, y.core)
    requires var p := PinsOf(rom, y, i); TakesIrq(y.core, EffectOf(y.core, p))
    ensures var p := PinsOf(rom, y, i); var x := EffectOf(y.core, p);
      Exact(cfg, rom, y, i) && CycleAccesses(rom, y, i) == [] <==>
        if y.core.ex.NoEx? then Interruptible(y.core)
        else
          && Retires(y.core, p, x) && Unseen(CsrOf(y.core.ex.instr), x)
          && (x.mret || WritesNothingNew(Abs(y), CsrOf(y.core.ex.instr), x))
  {
    hide EffectOf, Abs, Inv, Exact, CycleAccesses, Stalled, TakesIrq, Interruptible, WritesNothingNew, CsrOf;
    InterruptExactIff(cfg, rom, y, i);
    NoAccessIff(cfg, rom, y, i);
  }

  const MRET_WORD: Word := 0x3020_0073

  lemma EnableBits(w: Word, mie: bool, mpie: bool)
    ensures Flag(WithEnables(w, mie, mpie), 3) == mie && Flag(WithEnables(w, mie, mpie), 7) == mpie
  {
  }

  lemma EnablesOverwrite(w: Word, a: bool, b: bool, c: bool, d: bool)
    ensures WithEnables(WithEnables(w, a, b), c, d) == WithEnables(w, c, d)
  {
  }

  /** A handler that keeps the saved PC and `mstatus` and ends in MRET resumes the interrupted program
      exactly: same next instruction, interrupts enabled as before. */
  lemma HandlerResumes(rom: Rom, m: Arch, cause: Word, h: Arch, env: Env)
    requires h.csrs.mepc == Interrupt(m, cause).csrs.mepc
    requires h.csrs.mstatus == Interrupt(m, cause).csrs.mstatus
    requires FetchWord(rom, h.pc) == MRET_WORD
    ensures var r := SeqStep(rom, h, env);
      && r.pc == m.pc && r.regs == h.regs && r.ram == h.ram
      && r.csrs == h.csrs.(mstatus := WithEnables(m.csrs.mstatus, Flag(m.csrs.mstatus, 3), true))
      && Flag(r.csrs.mstatus, 3) == Flag(m.csrs.mstatus, 3)
  {
    hide Execute, WithEnables, Flag, CsrRead, Read, Write, FetchWord;
    var w := MRET_WORD;
    MachineLaws.MretExecutes(h.pc, Read(h.regs, Rs1(w)), Read(h.regs, Rs2(w)),
        CsrRead(h.csrs, env.mip, env.mtime, CsrOf(w)), h.csrs.mepc, env.deviceData);
    EnableBits(m.csrs.mstatus, false, Flag(m.csrs.mstatus, 3));
    EnablesOverwrite(m.csrs.mstatus, false, Flag(m.csrs.mstatus, 3), Flag(m.csrs.mstatus, 3), true);
    EnableBits(m.csrs.mstatus, Flag(m.csrs.mstatus, 3), true);
    NoWrite(h.regs, Port(false, 0, 0));
  }
}
