/** Whole runs: refinement, the order of memory accesses, and programs that never enable interrupts. */
module Runs {
  import opened Words
  import opened RegisterFile
  import opened ExecuteStage
  import opened Core
  import opened Sequential
  import opened Stream
  import opened Refinement

  function Run(cfg: Config, rom: Rom, y: Board, ins: seq<Inputs>): Board
    decreases ins
  {
    if ins == [] then y else Run(cfg, rom, Cycle(cfg, rom, y, ins[0]), ins[1..])
  }

  lemma {:induction false} RunSnoc(cfg: Config, rom: Rom, y: Board, ins: seq<Inputs>, i: Inputs)
    ensures Run(cfg, rom, y, ins + [i]) == Cycle(cfg, rom, Run(cfg, rom, y, ins), i)
    decreases ins
  {
    hide Cycle;
    if ins == [] {
      assert ins + [i] == [i];
    } else {
      RunSnoc(cfg, rom, Cycle(cfg, rom, y, ins[0]), ins[1..], i);
      assert (ins + [i])[1..] == ins[1..] + [i];
    }
  }

  function CycleLabel(rom: Rom, y: Board, i: Inputs): Label {
    var p := PinsOf(rom, y, i);
    LabelOf(y.core, p, EffectOf(y.core, p))
  }

  function LabelsOf(cfg: Config, rom: Rom, y: Board, ins: seq<Inputs>): seq<Label>
    decreases ins
  {
    if ins == [] then [] else [CycleLabel(rom, y, ins[0])] + LabelsOf(cfg, rom, Cycle(cfg, rom, y, ins[0]), ins[1..])
  }

  predicate SmoothCycle(cfg: Config, rom: Rom, y: Board, i: Inputs) {
    var p := PinsOf(rom, y, i);
    Smooth(cfg, y.core, p, EffectOf(y.core, p))
  }

  /** No cycle of the run loses a cache hit or takes an interrupt away from an instruction boundary. */
  predicate SmoothRun(cfg: Config, rom: Rom, y: Board, ins: seq<Inputs>)
    decreases ins
  {
    ins == [] || (SmoothCycle(cfg, rom, y, ins[0]) && SmoothRun(cfg, rom, Cycle(cfg, rom, y, ins[0]), ins[1..]))
  }

  // ---- the accesses the outside sees ----

  /** The data-bus handshake that completes in a cycle. */
  function Handshake(s: State, p: Pins): seq<Access> {
    if s.data.Waiting? && p.memReady then
      [if s.data.isLoad then BusRead(s.data.addr, p.memData) else BusWrite(s.data.addr, s.data.wdata)]
    else []
  }

  /** The strobe a peripheral sees in a cycle. */
  function Strobe(p: Pins, x: Effect): seq<Access> {
    match x.mem
    case DeviceLoad(addr) => [DeviceRead(addr, p.deviceData)]
    case DeviceStore(addr, data) => [DeviceWrite(addr, data)]
    case _ => []
  }

  /** The write to `mip`, `mtime` or the acknowledge register in a cycle. */
  function CsrStrobe(s: State, x: Effect): seq<Access> {
    if s.ex.Ex? then CsrEvents(CsrOf(s.ex.instr), x) else []
  }

  function CycleAccesses(rom: Rom, y: Board, i: Inputs): seq<Access> {
    var p := PinsOf(rom, y, i);
    var x := EffectOf(y.core, p);
    Handshake(y.core, p) + Strobe(p, x) + CsrStrobe(y.core, x)
  }

  function AccessLog(cfg: Config, rom: Rom, y: Board, ins: seq<Inputs>): seq<Access>
    decreases ins
  {
    if ins == [] then []
    else CycleAccesses(rom, y, ins[0]) + AccessLog(cfg, rom, Cycle(cfg, rom, y, ins[0]), ins[1..])
  }

  lemma LoadReadValue(w: Word, a: Word, d: Word)
    ensures ExecuteLoad(w, a, d).mem.DeviceLoad? ==> ExecuteLoad(w, a, d).value == d
  {
    hide ImmI, IsDevice, Rd;
  }

  lemma DeviceReadValue(w: Word, pc: Word, a: Word, b: Word, c: Word, m: Word, d: Word)
    ensures Execute(w, pc, a, b, c, m, d).mem.DeviceLoad? ==> Execute(w, pc, a, b, c, m, d).value == d
  {
    hide FormatOf, Alu, ExecuteOp, ExecuteLoad, ExecuteStore, ExecuteBranch, ExecuteSystem, ImmI, ImmJ, ImmU, Rd;
    hide Funct3, Even, Sum;
    match FormatOf(w)
    case Op => OpHasNoAccess(w, a, b);
    case Branches => BranchHasNoAccess(w, pc, a, b);
    case SystemF => SystemHasNoAccess(w, a, c, m);
    case Loads => LoadReadValue(w, a, d);
    case Stores => StoreIsNoLoad(w, a, b);
    case _ =>
  }

  lemma StoreIsNoLoad(w: Word, a: Word, b: Word)
    ensures !ExecuteStore(w, a, b).mem.DeviceLoad?
  {
    hide ImmS, IsDevice;
  }

  /** Bus handshake and peripheral strobe are those of the instruction completing in EX. */
  lemma MemoryOfCompletion(y: Board, p: Pins, x: Effect)
    requires EffectFits(y.core, x) && (x.mem.DeviceLoad? ==> x.value == p.deviceData)
    requires y.core.data.Waiting? ==> p.memData == RamRead(y.ram, y.core.data.addr)
    ensures Handshake(y.core, p) + Strobe(p, x) == if Retires(y.core, p, x) then MemAccesses(Abs(y), x) else []
  {
    hide Abs, RamRead;
    AbsRam(y);
  }

  /** A CSR is written only in the cycle its instruction completes. */
  lemma EventsOfCompletion(s: State, p: Pins, x: Effect)
    requires EffectFits(s, x)
    ensures CsrStrobe(s, x) == if Retires(s, p, x) then CsrEvents(CsrOf(s.ex.instr), x) else []
  {
    hide CsrOf, Aside;
  }

  /** Whether or not an interrupt is taken or a cache hit lost, a cycle performs exactly the accesses and CSR events of
      the instruction that completes in it. */
  lemma AccessesOfCompletion(cfg: Config, rom: Rom, y: Board, i: Inputs)
    requires Inv(cfg, rom, y.core)
    ensures var p := PinsOf(rom, y, i);
      CycleAccesses(rom, y, i) ==
        if Retires(y.core, p, EffectOf(y.core, p))
        then LabelAccesses(rom, Abs(y), Retired(Env(y.core.mip, y.core.mtime, p.deviceData))) else []
  {
    hide Abs, EffectFits, CsrOf, Inv, SeqEffect, RamRead, Stalled, Handshake, Strobe, CsrStrobe, MemAccesses, CsrEvents;
    hide FetchWord, Execute, CsrRead;
    var s, p := y.core, PinsOf(rom, y, i);
    var x := EffectOf(s, p);
    EffectFitsInv(cfg, rom, s, p);
    if s.ex.Ex? {
      EffectIsSequential(cfg, rom, y, p);
      DeviceReadValue(s.ex.instr, s.ex.pc, s.ex.a, s.ex.b, CsrRead(s.csrs, s.mip, s.mtime, CsrOf(s.ex.instr)),
          s.csrs.mepc, p.deviceData);
    }
    MemoryOfCompletion(y, p, x);
    EventsOfCompletion(s, p, x);
  }

  /** In a smooth cycle these are those of the sequential step it performs. */
  lemma AccessesOfCycle(cfg: Config, rom: Rom, y: Board, i: Inputs)
    requires Inv(cfg, rom, y.core) && SmoothCycle(cfg, rom, y, i)
    ensures CycleAccesses(rom, y, i) == LabelAccesses(rom, Abs(y), CycleLabel(rom, y, i))
  {
    hide Abs, EffectOf, PinsOf, Inv, CycleAccesses, Stalled, TakesIrq, HitLost, Accesses, SeqEffect;
    AccessesOfCompletion(cfg, rom, y, i);
  }

  /** What CSR events do: after any cycle `mtime` holds the value of its event, or else one more than before; `mip`
      holds that of its event, or else the sampled lines; and the acknowledge pins pulse exactly with the bits of
      theirs. */
  lemma CsrEventsHappen(cfg: Config, s: State, p: Pins, x: Effect)
    ensures var v, e := StepWith(cfg, s, p, x), CsrStrobe(s, x);
      && v.mtime == (if e != [] && e[0].name == MTime then e[0].value else s.mtime + 1)
      && v.timerAck == (e != [] && e[0].name == IrqAck && Flag(e[0].value, 0))
      && v.extAck == (e != [] && e[0].name == IrqAck && Flag(e[0].value, 1))
      && v.mip == (
           var sampled := WithBit(WithBit(s.mip, 7, TimerLevel(s, p)), 11, p.extIrq);
           if e != [] && e[0].name == Mip then e[0].value
           else if v.extAck then WithBit(sampled, 11, false) else sampled)
  {
    hide NextPcFetch, NextFetch, NextIf, NextSlot, NextId, NextEx, NextData, NextCsrs, NextCache, WritePort, Write;
    hide CsrOf, WithBit, Flag, TimerLevel;
  }

  lemma AbsRam(y: Board)
    ensures Abs(y).ram == y.ram
  {
  }

  /** Refinement of runs: after any number of cycles, under any pattern of wait states, the architectural
      state is the one the sequential machine reaches by the steps the cycles name, and the memory and the
      peripherals have seen exactly its accesses, in its order. */
  lemma {:induction false} RunRefines(cfg: Config, rom: Rom, y: Board, ins: seq<Inputs>)
    requires cfg.Valid() && Inv(cfg, rom, y.core) && SmoothRun(cfg, rom, y, ins)
    ensures Inv(cfg, rom, Run(cfg, rom, y, ins).core)
    ensures Abs(Run(cfg, rom, y, ins)) == ApplyAll(rom, Abs(y), LabelsOf(cfg, rom, y, ins))
    ensures AccessLog(cfg, rom, y, ins) == AllAccesses(rom, Abs(y), LabelsOf(cfg, rom, y, ins))
    decreases ins
  {
    hide Abs, Inv, Cycle, LabelOf, Apply, LabelAccesses, Smooth, CycleAccesses, EffectOf, PinsOf;
    if ins != [] {
      assert SmoothCycle(cfg, rom, y, ins[0]);
      StepOfRun(cfg, rom, y, ins[0]);
      var y' := Cycle(cfg, rom, y, ins[0]);
      RunRefines(cfg, rom, y', ins[1..]);
      var ls := LabelsOf(cfg, rom, y, ins);
      assert ls[0] == CycleLabel(rom, y, ins[0]) && ls[1..] == LabelsOf(cfg, rom, y', ins[1..]);
    }
  }

  lemma StepOfRun(cfg: Config, rom: Rom, y: Board, i: Inputs)
    requires cfg.Valid() && Inv(cfg, rom, y.core) && SmoothCycle(cfg, rom, y, i)
    ensures Inv(cfg, rom, Cycle(cfg, rom, y, i).core)
    ensures Abs(Cycle(cfg, rom, y, i)) == Apply(rom, Abs(y), CycleLabel(rom, y, i))
    ensures CycleAccesses(rom, y, i) == LabelAccesses(rom, Abs(y), CycleLabel(rom, y, i))
  {
    hide Abs, Inv, Cycle, LabelOf, Apply, LabelAccesses, Smooth, CycleAccesses, EffectOf, PinsOf;
    CycleRefines(cfg, rom, y, i);
    AccessesOfCycle(cfg, rom, y, i);
  }

  /** Every valid cache line and every buffered word stays what the instruction memory holds, through any run: lost
      hits, flushes, traps and interrupts included, for every cache size. */
  lemma {:induction false} WordsStayGenuine(cfg: Config, rom: Rom, y: Board, ins: seq<Inputs>)
    requires cfg.Valid() && CacheOk(cfg, rom, y.core) && Genuine(rom, y.core)
    ensures var v := Run(cfg, rom, y, ins);
      CacheOk(cfg, rom, v.core) && Genuine(rom, v.core)
    decreases ins
  {
    hide CacheOk, Genuine, StepWith, EffectOf, FetchWord, RamRead;
    if ins != [] {
      var p := PinsOf(rom, y, ins[0]);
      CacheStep(cfg, rom, y.core, p, EffectOf(y.core, p));
      GenuineStep(cfg, rom, y.core, p, EffectOf(y.core, p));
      WordsStayGenuine(cfg, rom, Cycle(cfg, rom, y, ins[0]), ins[1..]);
    }
  }

  /** A raised request keeps its address, direction and data through every cycle until memory answers, whatever the
      pipeline, flushes and interrupts do meanwhile; memory stays as it is. */
  lemma {:induction false} RequestHeld(cfg: Config, rom: Rom, y: Board, ins: seq<Inputs>)
    requires y.core.data.Waiting? && forall k :: 0 <= k < |ins| ==> !ins[k].memReady
    ensures var v := Run(cfg, rom, y, ins);
      v.core.data == y.core.data && v.ram == y.ram
    decreases ins
  {
    hide EffectOf, NextIf, NextSlot, NextFetch, NextPcFetch, NextCache, NextId, NextEx, NextCsrs, NextMip, NextMtime;
    hide WritePort;
    if ins != [] { RequestHeld(cfg, rom, Cycle(cfg, rom, y, ins[0]), ins[1..]); }
  }

  // ---- programs that never enable an interrupt ----

  /** Neither interrupt is enabled in `mie`. */
  predicate MieOff(m: Arch) { !Flag(m.csrs.mie, 7) && !Flag(m.csrs.mie, 11) }

  predicate NoInterrupts(ls: seq<Label>) { forall k :: 0 <= k < |ls| ==> !ls[k].Interrupted? }

  /** Run one instruction after another from `m`, the program never enables an interrupt in `mie`. */
  ghost predicate NeverEnables(rom: Rom, m: Arch) {
    forall ls: seq<Label> :: NoInterrupts(ls) ==> MieOff(ApplyAll(rom, m, ls))
  }

  lemma NeverEnablesNext(rom: Rom, m: Arch, l: Label)
    requires NeverEnables(rom, m) && !l.Interrupted?
    ensures MieOff(m) && NeverEnables(rom, Apply(rom, m, l))
  {
    hide Apply, MieOff;
    assert MieOff(ApplyAll(rom, m, []));
    forall ls: seq<Label> | NoInterrupts(ls)
      ensures MieOff(ApplyAll(rom, Apply(rom, m, l), ls))
    {
      var all := [l] + ls;
      assert all[1..] == ls && NoInterrupts(all);
      assert MieOff(ApplyAll(rom, m, all));
    }
  }

  lemma MieOffMeansNoIrq(y: Board)
    requires MieOff(Abs(y))
    ensures !IrqFires(y.core)
  {
  }

  /** Without a cache and without interrupts every cycle is smooth. */
  lemma {:induction false} PlainRunIsSmooth(cfg: Config, rom: Rom, y: Board, ins: seq<Inputs>)
    requires cfg.Valid() && !cfg.cached && Inv(cfg, rom, y.core) && NeverEnables(rom, Abs(y))
    ensures SmoothRun(cfg, rom, y, ins)
    ensures NoInterrupts(LabelsOf(cfg, rom, y, ins))
    decreases ins
  {
    hide Abs, Inv, Cycle, Apply, EffectOf, PinsOf, NeverEnables, IrqFires, IdAccepts, Flushes, CanFetch, Retires;
    hide IrqCause;
    if ins != [] {
      NeverEnablesNext(rom, Abs(y), Quiet);
      MieOffMeansNoIrq(y);
      assert SmoothCycle(cfg, rom, y, ins[0]);
      var l := CycleLabel(rom, y, ins[0]);
      StepOfRun(cfg, rom, y, ins[0]);
      NeverEnablesNext(rom, Abs(y), l);
      PlainRunIsSmooth(cfg, rom, Cycle(cfg, rom, y, ins[0]), ins[1..]);
    }
  }

  /** The headline, from reset: the default configuration runs any program that never enables interrupts
      exactly as the sequential machine does, whatever the wait states. */
  lemma PipelineRefinesSequential(cfg: Config, rom: Rom, ram: Ram, ins: seq<Inputs>)
    requires cfg.Valid() && !cfg.cached
    requires NeverEnables(rom, Abs(Board(RESET, ram)))
    ensures var y, ls := Board(RESET, ram), LabelsOf(cfg, rom, Board(RESET, ram), ins);
      && NoInterrupts(ls)
      && Abs(Run(cfg, rom, y, ins)) == ApplyAll(rom, Abs(y), ls)
      && AccessLog(cfg, rom, y, ins) == AllAccesses(rom, Abs(y), ls)
  {
    hide Abs, Inv, NeverEnables;
    InvInit(cfg, rom);
    PlainRunIsSmooth(cfg, rom, Board(RESET, ram), ins);
    RunRefines(cfg, rom, Board(RESET, ram), ins);
  }

  // ---- programs that never write `mie` ----

  /** A CSR instruction that names `mie`. */
  predicate WritesMie(w: Word) { FormatOf(w) == SystemF && Funct3(w) != 0 && CsrOf(w) == Mie }

  lemma SystemWritesCsr(w: Word, a: Word, c: Word, m: Word)
    ensures ExecuteSystem(w, a, c, m).csrWe ==> Funct3(w) != 0
  {
    hide Rd, Rs1, Funct3, Upper12;
  }

  lemma DataWritesNoCsr(w: Word, pc: Word, a: Word, b: Word, d: Word)
    ensures !ExecuteOp(w, a, b).csrWe && !ExecuteBranch(w, pc, a, b).csrWe
    ensures !ExecuteLoad(w, a, d).csrWe && !ExecuteStore(w, a, b).csrWe
  {
    hide Alu, Rd, Funct3, Funct7, ImmI, ImmS, ImmB, SignedLess, IsDevice, Sum;
  }

  lemma OnlySystemWritesCsrs(w: Word, pc: Word, a: Word, b: Word, c: Word, m: Word, d: Word)
    ensures Execute(w, pc, a, b, c, m, d).csrWe ==> FormatOf(w) == SystemF && Funct3(w) != 0
  {
    hide FormatOf, Alu, ExecuteSystem, ExecuteOp, ExecuteLoad, ExecuteStore, ExecuteBranch, ImmI, ImmJ, ImmU, Rd;
    hide Funct3, Even, Sum, Next;
    SystemWritesCsr(w, a, c, m);
    DataWritesNoCsr(w, pc, a, b, d);
  }

  lemma CompleteKeepsMie(m: Arch, csr: CsrName, x: Effect)
    requires x.csrWe ==> csr != Mie
    ensures Complete(m, csr, x).csrs.mie == m.csrs.mie
  {
    hide Write, EnterTrap, LeaveTrap, CsrWrite, RamRead, RamWrite, Next;
    var written := if x.csrWe then CsrWrite(m.csrs, csr, x.csrData) else m.csrs;
    if x.csrWe { CsrWriteKeepsMie(m.csrs, csr, x.csrData); }
    TrapsKeepMie(written, m.csrs, m.pc, x.cause);
  }

  lemma CsrWriteKeepsMie(csrs: Csrs, name: CsrName, v: Word)
    requires name != Mie
    ensures CsrWrite(csrs, name, v).mie == csrs.mie
  {
    hide Flag;
  }

  lemma TrapsKeepMie(csrs: Csrs, before: Csrs, pc: Word, cause: Word)
    ensures EnterTrap(csrs, before, pc, cause).mie == csrs.mie && LeaveTrap(csrs).mie == csrs.mie
  {
    hide WithEnables, Flag;
  }

  /** An instruction that does not name `mie` in a CSR access leaves it alone. */
  lemma MieKept(rom: Rom, m: Arch, l: Label)
    requires !WritesMie(FetchWord(rom, m.pc)) && !l.Interrupted?
    ensures Apply(rom, m, l).csrs.mie == m.csrs.mie
  {
    hide Execute, Write, Read, CsrRead, CsrOf, WithEnables, Flag, RamRead, RamWrite, FormatOf, Funct3, Next, Complete;
    hide FetchWord;
    if l.Retired? {
      var w := FetchWord(rom, m.pc);
      OnlySystemWritesCsrs(w, m.pc, Read(m.regs, Rs1(w)), Read(m.regs, Rs2(w)),
          CsrRead(m.csrs, l.env.mip, l.env.mtime, CsrOf(w)), m.csrs.mepc, l.env.deviceData);
      CompleteKeepsMie(m, CsrOf(w), SeqEffect(rom, m, l.env));
    }
  }

  ghost predicate NoMieWords(rom: Rom) { forall i: Word :: !WritesMie(rom(i)) }

  lemma {:induction false} MieKeptOverRun(rom: Rom, m: Arch, ls: seq<Label>)
    requires NoMieWords(rom) && NoInterrupts(ls)
    ensures ApplyAll(rom, m, ls).csrs.mie == m.csrs.mie
    decreases ls
  {
    hide WritesMie, Apply;
    if ls != [] {
      MieKept(rom, m, ls[0]);
      MieKeptOverRun(rom, Apply(rom, m, ls[0]), ls[1..]);
    }
  }

  /** For every program without an instruction that accesses `mie`, the core from reset is the sequential machine. */
  lemma QuietProgramRefines(cfg: Config, rom: Rom, ram: Ram, ins: seq<Inputs>)
    requires cfg.Valid() && !cfg.cached && NoMieWords(rom)
    ensures NeverEnables(rom, Abs(Board(RESET, ram)))
    ensures var y, ls := Board(RESET, ram), LabelsOf(cfg, rom, Board(RESET, ram), ins);
      && NoInterrupts(ls)
      && Abs(Run(cfg, rom, y, ins)) == ApplyAll(rom, Abs(y), ls)
      && AccessLog(cfg, rom, y, ins) == AllAccesses(rom, Abs(y), ls)
  {
    hide NoMieWords, ApplyAll, AccessLog, AllAccesses, LabelsOf, Run;
    var m := Abs(Board(RESET, ram));
    ResetMie(ram);
    forall ls: seq<Label> | NoInterrupts(ls)
      ensures MieOff(ApplyAll(rom, m, ls))
    {
      MieKeptOverRun(rom, m, ls);
    }
    PipelineRefinesSequential(cfg, rom, ram, ins);
  }

  lemma ResetMie(ram: Ram)
    ensures Abs(Board(RESET, ram)).csrs.mie == 0 && !Flag(0, 7) && !Flag(0, 11)
  {
  }
}
