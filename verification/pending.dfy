/** When interrupts become pending, when they fire, and with which cause. */
module PendingInterrupts {
  import opened Words
  import opened RegisterFile
  import opened ExecuteStage
  import opened Core
  import opened Sequential
  import opened Refinement
  import opened Runs
  import opened Arithmetic

  /** The instruction in EX writes the named CSR in this cycle. */
  predicate WritesCsr(s: State, x: Effect, name: CsrName) { s.ex.Ex? && x.csrWe && CsrOf(s.ex.instr) == name }

  /** The value of `mip` with bits 7 and 11 as given and the others those of `w`. */
  predicate Pending(v: Word, w: Word, timer: bool, ext: bool) {
    && (v & 0x80 != 0 <==> timer) && (v & 0x800 != 0 <==> ext) && v & 0xffff_f77f == w & 0xffff_f77f
  }

  lemma SampledBits(w: Word, timer: bool, ext: bool)
    ensures Pending(WithBit(WithBit(w, 7, timer), 11, ext), w, timer, ext)
  {
  }

  lemma ClearsExternal(v: Word, w: Word, timer: bool, ext: bool)
    requires Pending(v, w, timer, ext)
    ensures Pending(WithBit(v, 11, false), w, timer, false)
  {
  }

  lemma AckBit(v: Word)
    ensures Flag(v, 1) <==> v & 2 != 0
  {
  }

  lemma NotLess(a: Word, b: Word)
    ensures AtLeast(a, b) <==> !(a < b)
  {
  }

  lemma AtLeastIff(a: Word, b: Word)
    ensures AtLeast(a, b) <==> Nat(a) >= Nat(b)
  {
    hide Nat, AtLeast;
    NotLess(a, b);
    LessIff(a, b);
  }

  lemma LevelIs(s: State, p: Pins)
    ensures TimerLevel(s, p) <==> Nat(s.mtime) >= Nat(s.csrs.mtimecmp) || p.timerIrq
  {
    hide Nat, AtLeast;
    AtLeastIff(s.mtime, s.csrs.mtimecmp);
  }

  lemma MipSamples(s: State, p: Pins, x: Effect)
    requires !WritesCsr(s, x, Mip)
    ensures var sampled := WithBit(WithBit(s.mip, 7, TimerLevel(s, p)), 11, p.extIrq);
      NextMip(s, p, x) ==
        if WritesCsr(s, x, IrqAck) && Flag(x.csrData, 1) then WithBit(sampled, 11, false) else sampled
  {
    hide CsrOf, WithBit, Flag, TimerLevel;
  }

  lemma PendingLevels(s: State, p: Pins, x: Effect)
    requires !WritesCsr(s, x, Mip)
    ensures Pending(NextMip(s, p, x), s.mip, TimerLevel(s, p),
                p.extIrq && !(WritesCsr(s, x, IrqAck) && x.csrData & 2 != 0))
  {
    hide WithBit, Flag, Pending, NextMip, WritesCsr, TimerLevel;
    var timer := TimerLevel(s, p);
    MipSamples(s, p, x);
    SampledBits(s.mip, timer, p.extIrq);
    ClearsExternal(WithBit(WithBit(s.mip, 7, timer), 11, p.extIrq), s.mip, timer, p.extIrq);
    AckBit(x.csrData);
  }

  lemma MipIs(cfg: Config, s: State, p: Pins, x: Effect)
    ensures StepWith(cfg, s, p, x).mip == NextMip(s, p, x)
  {
    hide NextPcFetch, NextFetch, NextIf, NextSlot, NextId, NextEx, NextData, NextCsrs, NextMtime, NextCache, WritePort;
    hide Write, NextMip;
  }

  /** Unless `mip` is written, its bit 7 after any cycle says whether the counter had reached the comparator or the
      timer's line was up, and its bit 11 whether an external line was up and not acknowledged in that cycle; no other
      bit changes. A write to `mip` sets it. */
  lemma PendingBits(cfg: Config, s: State, p: Pins, x: Effect)
    ensures var v := StepWith(cfg, s, p, x).mip;
      if WritesCsr(s, x, Mip) then v == x.csrData
      else Pending(v, s.mip, Nat(s.mtime) >= Nat(s.csrs.mtimecmp) || p.timerIrq,
          p.extIrq && !(WritesCsr(s, x, IrqAck) && x.csrData & 2 != 0))
  {
    hide StepWith, NextMip, WritesCsr, Pending, TimerLevel, Nat;
    MipIs(cfg, s, p, x);
    if WritesCsr(s, x, Mip) {
      MipIsWritten(s, p, x);
    } else {
      LevelIs(s, p);
      PendingLevels(s, p, x);
    }
  }

  lemma MipIsWritten(s: State, p: Pins, x: Effect)
    requires WritesCsr(s, x, Mip)
    ensures NextMip(s, p, x) == x.csrData
  {
    hide CsrOf, WithBit, Flag, TimerLevel;
  }

  // ---- firing ----

  lemma EnableBit(w: Word)
    ensures Flag(w, 3) <==> w & 8 != 0
  {
  }

  lemma BothBits(e: Word, q: Word)
    ensures Flag(e, 7) && Flag(q, 7) <==> e & q & 0x80 != 0
    ensures Flag(e, 11) && Flag(q, 11) <==> e & q & 0x800 != 0
  {
  }

  lemma EitherBit(w: Word)
    ensures w & 0x880 != 0 <==> w & 0x80 != 0 || w & 0x800 != 0
  {
  }

  /** What a program would read from a control register. */
  function Reads(s: State, name: CsrName): Word { CsrRead(s.csrs, s.mip, s.mtime, name) }

  /** An interrupt is taken exactly when the executing instruction does not trap itself, interrupts are enabled
      (`mstatus` bit 3), and the timer's (bit 7) or the external one (bit 11) is both enabled and pending. */
  lemma TakenIff(s: State, x: Effect)
    ensures TakesIrq(s, x) <==> !x.trap && Reads(s, MStatus) & 8 != 0 && Reads(s, Mie) & Reads(s, Mip) & 0x880 != 0
  {
    hide Flag;
    EnableBit(s.csrs.mstatus);
    BothBits(s.csrs.mie, s.mip);
    EitherBit(s.csrs.mie & s.mip);
  }

  /** The cycle that takes it goes to `mtvec`, disables interrupts and saves the cause: the timer's 0x80000007 if
      that is due and the external interrupt is not, or does not have priority, and otherwise the external one's
      0x8000000B. */
  lemma CauseIsSaved(cfg: Config, s: State, p: Pins, x: Effect)
    requires TakesIrq(s, x)
    ensures var v, due := StepWith(cfg, s, p, x), Reads(s, Mie) & Reads(s, Mip);
      && v.pcFetch == Reads(s, MTvec) && Reads(v, MStatus) & 8 == 0
      && Reads(v, MCause) ==
         if due & 0x80 != 0 && (due & 0x800 == 0 || Reads(s, IrqPriority) == 0) then 0x8000_0007 else 0x8000_000B
  {
    hide NextFetch, NextIf, NextSlot, NextId, NextEx, NextData, NextMip, NextMtime, NextCache, WritePort, Write, CsrOf;
    hide Flag, CsrWrite, WithEnables;
    EnableBit(s.csrs.mstatus);
    BothBits(s.csrs.mie, s.mip);
    var written := if x.csrWe && s.ex.Ex? then CsrWrite(s.csrs, CsrOf(s.ex.instr), x.csrData) else s.csrs;
    Disabled(written.mstatus, Flag(s.csrs.mstatus, 3));
  }

  lemma Disabled(w: Word, before: bool)
    ensures WithEnables(w, false, before) & 8 == 0
  {
  }

  // ---- the machine timer over runs ----

  /** The timer's line stays down, and no cycle writes `mip`, `mtime` or `mtimecmp`. */
  predicate LeftAlone(cfg: Config, rom: Rom, y: Board, ins: seq<Inputs>)
    decreases ins
  {
    ins == [] ||
    var x := EffectOf(y.core, PinsOf(rom, y, ins[0]));
    && !ins[0].timerIrq
    && !WritesCsr(y.core, x, Mip) && !WritesCsr(y.core, x, MTime) && !WritesCsr(y.core, x, MTimeCmp)
    && LeftAlone(cfg, rom, Cycle(cfg, rom, y, ins[0]), ins[1..])
  }

  lemma CsrWriteKeepsComparator(csrs: Csrs, name: CsrName, v: Word)
    requires name != MTimeCmp
    ensures CsrWrite(csrs, name, v).mtimecmp == csrs.mtimecmp
  {
    hide Flag;
  }

  lemma TrapsKeepComparator(csrs: Csrs, before: Csrs, pc: Word, cause: Word)
    ensures EnterTrap(csrs, before, pc, cause).mtimecmp == LeaveTrap(csrs).mtimecmp == csrs.mtimecmp
  {
    hide WithEnables, Flag;
  }

  lemma ComparatorKept(s: State, x: Effect)
    requires !WritesCsr(s, x, MTimeCmp)
    ensures NextCsrs(s, x).mtimecmp == s.csrs.mtimecmp
  {
    hide CsrOf, CsrWrite, EnterTrap, LeaveTrap, IrqFires, IrqCause, TrapPc;
    var written := if x.csrWe && s.ex.Ex? then CsrWrite(s.csrs, CsrOf(s.ex.instr), x.csrData) else s.csrs;
    if x.csrWe && s.ex.Ex? { CsrWriteKeepsComparator(s.csrs, CsrOf(s.ex.instr), x.csrData); }
    TrapsKeepComparator(written, s.csrs, TrapPc(s), TrapCause(s, x));
  }

  lemma CounterCounts(s: State, x: Effect)
    requires !WritesCsr(s, x, MTime)
    ensures NextMtime(s, x) == Succ(s.mtime)
  {
    hide CsrOf;
  }

  predicate TimerPends(mip: Word) { mip & 0x80 != 0 }

  lemma PendsIff(v: Word, w: Word, timer: bool, ext: bool)
    requires Pending(v, w, timer, ext)
    ensures TimerPends(v) <==> timer
  {
  }

  lemma SamplesComparator(cfg: Config, s: State, p: Pins, x: Effect)
    requires !WritesCsr(s, x, Mip) && !p.timerIrq
    ensures TimerPends(StepWith(cfg, s, p, x).mip) <==> Nat(s.mtime) >= Nat(s.csrs.mtimecmp)
  {
    hide StepWith, WritesCsr, Pending, TimerPends, Nat;
    PendingBits(cfg, s, p, x);
    PendsIff(StepWith(cfg, s, p, x).mip, s.mip, Nat(s.mtime) >= Nat(s.csrs.mtimecmp) || p.timerIrq,
        p.extIrq && !(WritesCsr(s, x, IrqAck) && x.csrData & 2 != 0));
  }

  lemma TimerCycle(cfg: Config, rom: Rom, y: Board, i: Inputs)
    requires LeftAlone(cfg, rom, y, [i])
    ensures var v := Cycle(cfg, rom, y, i).core;
      && v.csrs.mtimecmp == y.core.csrs.mtimecmp && v.mtime == Succ(y.core.mtime)
      && (TimerPends(v.mip) <==> Nat(y.core.mtime) >= Nat(y.core.csrs.mtimecmp))
  {
    hide NextPcFetch, NextFetch, NextIf, NextSlot, NextId, NextEx, NextData, NextCsrs, NextMip, NextMtime, NextCache;
    hide WritePort, Write, EffectOf, WritesCsr, Succ, TimerPends, Nat;
    var p := PinsOf(rom, y, i);
    var s, x := y.core, EffectOf(y.core, p);
    SamplesComparator(cfg, s, p, x);
    ComparatorKept(s, x);
    CounterCounts(s, x);
  }

  lemma {:induction false} TimerRun(cfg: Config, rom: Rom, y: Board, ins: seq<Inputs>)
    requires LeftAlone(cfg, rom, y, ins) && ins != [] && Nat(y.core.mtime) + |ins| < MODULUS
    ensures var v := Run(cfg, rom, y, ins).core;
      && v.csrs.mtimecmp == y.core.csrs.mtimecmp && Nat(v.mtime) == Nat(y.core.mtime) + |ins|
      && (TimerPends(v.mip) <==> Nat(y.core.mtime) + |ins| - 1 >= Nat(y.core.csrs.mtimecmp))
    decreases ins
  {
    hide Cycle, Nat, WritesCsr, EffectOf, TimerPends, Succ;
    var i, y' := ins[0], Cycle(cfg, rom, y, ins[0]);
    assert LeftAlone(cfg, rom, y', [i][1..]);
    TimerCycle(cfg, rom, y, i);
    SuccNat(y.core.mtime);
    if ins[1..] != [] { TimerRun(cfg, rom, y', ins[1..]); } else { assert ins == [i]; }
  }

  /** Left alone, the counter counts the cycles, and bit 7 of `mip` is set after exactly those cycles that found it
      at or past the comparator: until the counter wraps, it rises in the cycle in which the counter has come to the
      comparator, no sooner and no later, and stays. */
  lemma TimerRises(cfg: Config, rom: Rom, y: Board, ins: seq<Inputs>)
    requires LeftAlone(cfg, rom, y, ins) && ins != [] && Nat(Reads(y.core, MTime)) + |ins| < MODULUS
    ensures var v := Run(cfg, rom, y, ins).core;
      && Reads(v, MTimeCmp) == Reads(y.core, MTimeCmp) && Nat(Reads(v, MTime)) == Nat(Reads(y.core, MTime)) + |ins|
      && (TimerPends(Reads(v, Mip)) <==> Nat(Reads(y.core, MTime)) + |ins| - 1 >= Nat(Reads(y.core, MTimeCmp)))
  {
    hide Run, Nat, TimerPends, LeftAlone;
    TimerRun(cfg, rom, y, ins);
  }
}
