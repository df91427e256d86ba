/** A run from reset in which an interrupt makes an instruction run twice. */
module RepeatedInstruction {
  import opened Words
  import opened RegisterFile
  import opened ExecuteStage
  import opened Core
  import opened Sequential
  import opened Refinement
  import opened Runs

  const NO_CACHE := Config(false, 1)

  const SET: Word := 0x0880_0113      // ADDI x2, x0, 0x88
  const WRITE_MIE: Word := 0x3041_1073     // CSRRW x0, mie, x2
  const WRITE_STATUS: Word := 0x3001_1073  // CSRRW x0, mstatus, x2
  const COUNT: Word := 0x0010_8093    // ADDI x1, x1, 1
  const RETURN: Word := 0x3020_0073   // MRET
  const NOTHING: Word := 0x13         // NOP

  /** Enable interrupts, then count once; the handler at 0x100 returns at once. */
  function Program(): Rom {
    (i: Word) =>
      if i == 0 then SET else if i == 1 then WRITE_MIE else if i == 2 then WRITE_STATUS
      else if i == 3 then COUNT else if i == 64 then RETURN else NOTHING
  }

  /** The part of the state that is not the instruction stream. */
  datatype Context = Context(regs: Regs, csrs: Csrs, mip: Word, mtime: Word)

  function Stage(k: Context, pcFetch: Word, fetch: Fetch, ifs: Slot, id: Slot, ex: ExSlot): Board {
    Board(State(pcFetch, fetch, ifs, Empty, id, ex, NoData, k.regs, k.csrs, k.mip, k.mtime, false, false, map[]), map[])
  }

  function Request(pc: Word): Fetch { Fetching(pc, false, CacheRow(NO_CACHE, pc), CacheTag(NO_CACHE, pc)) }

  function Word0(pc: Word): Word { FetchWord(Program(), pc) }

  // The stages an instruction passes when nothing is in front of it.
  function Idle(k: Context, pc: Word): Board { Stage(k, pc, NoFetch, Empty, Empty, NoEx) }
  function Requested(k: Context, pc: Word): Board { Stage(k, Next(pc), Request(pc), Empty, Empty, NoEx) }
  function Fetched(k: Context, pc: Word): Board { Stage(k, Next(pc), NoFetch, Held(Word0(pc), pc), Empty, NoEx) }
  function Decoded(k: Context, pc: Word): Board {
    Stage(k, Next(Next(pc)), Request(Next(pc)), Empty, Held(Word0(pc), pc), NoEx)
  }
  function Executing(k: Context, pc: Word): Board {
    Stage(k, Next(Next(pc)), NoFetch, Held(Word0(Next(pc)), Next(pc)), Empty, Loaded(Word0(pc), pc, k.regs))
  }

  /** The memories answer at once; in one cycle the timer's line is up. */
  function Input(timer: bool): Inputs { Inputs(true, false, 0, timer, false) }

  /** A context in which no interrupt is pending, and the one after a cycle. */
  predicate Calm(k: Context) { k.mip == 0 && k.csrs.mtimecmp == 200 && k.mtime < 190 }

  /** The machine timer is far from its comparator, and at most the timer interrupt is pending. */
  predicate Timely(k: Context) { (k.mip == 0 || k.mip == 0x80) && k.csrs.mtimecmp == 200 && k.mtime < 190 }

  function Later(k: Context, timer: bool): Context { k.(mip := if timer then 0x80 else 0, mtime := k.mtime + 1) }

  lemma CalmMeansNoIrq(s: State)
    requires s.mip == 0
    ensures !IrqFires(s)
  {
    assert !Flag(0, 7) && !Flag(0, 11);
  }

  lemma PendingBit(mip: Word, timer: bool)
    requires mip == 0 || mip == 0x80
    ensures WithBit(WithBit(mip, 7, timer), 11, false) == (if timer then 0x80 else 0)
  {
  }

  // ---- cycles with nothing in EX ----

  /** With nothing in EX and no interrupt pending, only the instruction stream and the two free-running CSRs move. */
  lemma StreamMoves(k: Context, pcFetch: Word, fetch: Fetch, ifs: Slot, id: Slot, timer: bool)
    requires Calm(k)
    ensures var y := Stage(k, pcFetch, fetch, ifs, id, NoEx);
      var s, p, x := y.core, PinsOf(Program(), y, Input(timer)), IDLE;
      && Flowing(s) && p.imemReady && (fetch.Fetching? ==> p.imemData == Word0(fetch.addr))
      && (NextSlot(NO_CACHE, s, p, x) == Empty ==>
            Cycle(NO_CACHE, Program(), y, Input(timer)) ==
              Stage(Later(k, timer), NextPcFetch(s, x), NextFetch(NO_CACHE, s, p, x), NextIf(NO_CACHE, s, p, x),
                  NextId(s, p, x), NextEx(s, p, x)))
  {
    hide WithBit, IrqFires, FetchWord, NextPcFetch, NextFetch, NextIf, NextSlot, NextId, NextEx, Write, Program;
    CalmMeansNoIrq(Stage(k, pcFetch, fetch, ifs, id, NoEx).core);
    PendingBit(0, timer);
    NoWrite(k.regs, Port(false, 0, 0));
  }

  // What the stream's registers do, stage by stage.

  predicate Flowing(s: State) {
    s.ex.NoEx? && s.data.NoData? && s.slot.Empty? && s.icache == map[] && !IrqFires(s)
  }

  lemma NoStall(s: State, p: Pins)
    requires Flowing(s)
    ensures !LoadUse(s) && !Stalled(s, p, IDLE) && !Flushes(s, IDLE)
  {
    hide IrqFires;
  }

  lemma IdleMoves(s: State, p: Pins)
    requires Flowing(s) && s.fetch.NoFetch? && s.ifs.Empty? && s.id.Empty?
    ensures NextPcFetch(s, IDLE) == Next(s.pcFetch) && NextFetch(NO_CACHE, s, p, IDLE) == Request(s.pcFetch)
    ensures NextIf(NO_CACHE, s, p, IDLE) == NextSlot(NO_CACHE, s, p, IDLE) == NextId(s, p, IDLE) == Empty
    ensures NextEx(s, p, IDLE) == NoEx
  {
    hide CacheRow, CacheTag, IrqFires, Next, LoadUse, Stalled;
    NoStall(s, p);
  }

  lemma RequestMoves(s: State, p: Pins)
    requires Flowing(s) && s.fetch.Fetching? && s.ifs.Empty? && s.id.Empty? && p.imemReady
    ensures NextPcFetch(s, IDLE) == s.pcFetch && NextFetch(NO_CACHE, s, p, IDLE) == NoFetch
    ensures NextIf(NO_CACHE, s, p, IDLE) == Held(p.imemData, s.fetch.addr)
    ensures NextSlot(NO_CACHE, s, p, IDLE) == NextId(s, p, IDLE) == Empty && NextEx(s, p, IDLE) == NoEx
  {
    hide CacheRow, CacheTag, IrqFires, Next, LoadUse, Stalled;
    NoStall(s, p);
  }

  lemma FetchedMoves(s: State, p: Pins)
    requires Flowing(s) && s.fetch.NoFetch? && s.ifs.Held? && s.id.Empty?
    ensures NextPcFetch(s, IDLE) == Next(s.pcFetch) && NextFetch(NO_CACHE, s, p, IDLE) == Request(s.pcFetch)
    ensures NextIf(NO_CACHE, s, p, IDLE) == NextSlot(NO_CACHE, s, p, IDLE) == Empty
    ensures NextId(s, p, IDLE) == s.ifs && NextEx(s, p, IDLE) == NoEx
  {
    hide CacheRow, CacheTag, IrqFires, Next, LoadUse, Stalled;
    NoStall(s, p);
  }

  lemma DecodedMoves(s: State, p: Pins)
    requires Flowing(s) && s.fetch.Fetching? && s.ifs.Empty? && s.id.Held? && p.imemReady
    ensures NextPcFetch(s, IDLE) == s.pcFetch && NextFetch(NO_CACHE, s, p, IDLE) == NoFetch
    ensures NextIf(NO_CACHE, s, p, IDLE) == Held(p.imemData, s.fetch.addr)
    ensures NextSlot(NO_CACHE, s, p, IDLE) == NextId(s, p, IDLE) == Empty
    ensures NextEx(s, p, IDLE) == Loaded(s.id.instr, s.id.pc, s.regs)
  {
    hide CacheRow, CacheTag, IrqFires, Next, LoadUse, Stalled, Rs1, Rs2, UsesRs1, UsesRs2, WritePort, Read;
    NoStall(s, p);
  }

  lemma RequestAddress(pc: Word)
    ensures Request(pc).Fetching? && Request(pc).addr == pc
  {
  }

  lemma FetchCycle(k: Context, pc: Word)
    requires Calm(k)
    ensures Cycle(NO_CACHE, Program(), Idle(k, pc), Input(false)) == Requested(Later(k, false), pc)
  {
    hide Cycle, Calm, Later, Flowing, PinsOf, Program, Word0, Next, Request, NextPcFetch, NextFetch, NextIf, NextSlot;
    hide NextId, NextEx;
    StreamMoves(k, pc, NoFetch, Empty, Empty, false);
    IdleMoves(Idle(k, pc).core, PinsOf(Program(), Idle(k, pc), Input(false)));
  }

  lemma ArriveCycle(k: Context, pc: Word)
    requires Calm(k)
    ensures Cycle(NO_CACHE, Program(), Requested(k, pc), Input(false)) == Fetched(Later(k, false), pc)
  {
    hide Cycle, Calm, Later, Flowing, PinsOf, Program, Word0, Next, Request, NextPcFetch, NextFetch, NextIf, NextSlot;
    hide NextId, NextEx;
    RequestAddress(pc);
    StreamMoves(k, Next(pc), Request(pc), Empty, Empty, false);
    RequestMoves(Requested(k, pc).core, PinsOf(Program(), Requested(k, pc), Input(false)));
  }

  lemma DecodeCycle(k: Context, pc: Word)
    requires Calm(k)
    ensures Cycle(NO_CACHE, Program(), Fetched(k, pc), Input(false)) == Decoded(Later(k, false), pc)
  {
    hide Cycle, Calm, Later, Flowing, PinsOf, Program, Word0, Next, Request, NextPcFetch, NextFetch, NextIf, NextSlot;
    hide NextId, NextEx;
    StreamMoves(k, Next(pc), NoFetch, Held(Word0(pc), pc), Empty, false);
    FetchedMoves(Fetched(k, pc).core, PinsOf(Program(), Fetched(k, pc), Input(false)));
  }

  lemma IssueCycle(k: Context, pc: Word, timer: bool)
    requires Calm(k)
    ensures Cycle(NO_CACHE, Program(), Decoded(k, pc), Input(timer)) == Executing(Later(k, timer), pc)
  {
    hide Cycle, Calm, Flowing, PinsOf, Program, Word0, Next, Request, NextPcFetch, NextFetch, NextIf, NextSlot, NextId;
    hide NextEx, Loaded;
    RequestAddress(Next(pc));
    StreamMoves(k, Next(Next(pc)), Request(Next(pc)), Empty, Held(Word0(pc), pc), timer);
    DecodedMoves(Decoded(k, pc).core, PinsOf(Program(), Decoded(k, pc), Input(timer)));
  }

  // ---- cycles with an instruction in EX ----

  /** The effect of the instruction in EX. */
  function EffectAt(k: Context, w: Word, pc: Word): Effect {
    Execute(w, pc, Read(k.regs, Rs1(w)), Read(k.regs, Rs2(w)),
            CsrRead(k.csrs, k.mip, k.mtime, CsrOf(w)), k.csrs.mepc, 0)
  }

  lemma EffectIs(k: Context, pc: Word)
    ensures var y := Executing(k, pc);
      EffectOf(y.core, PinsOf(Program(), y, Input(false))) == EffectAt(k, Word0(pc), pc)
  {
    hide Execute, CsrRead, CsrOf, Program, Read, Rs1, Rs2;
  }

  /** It writes a register or an ordinary CSR at most. */
  predicate Simple(w: Word, x: Effect) {
    && x.mem.NoMem? && !x.trap && !x.mret
    && (x.csrWe ==> CsrOf(w) != Mip && CsrOf(w) != MTime && CsrOf(w) != IrqAck)
  }

  /** The context after the instruction `w` with effect `x`; `csrs` are the CSRs after traps. */
  function Done(k: Context, x: Effect, csrs: Csrs): Context {
    Context(Write(k.regs, x.we, x.rd, x.value), csrs, 0, k.mtime + 1)
  }

  function Written(k: Context, w: Word, x: Effect): Csrs {
    if x.csrWe then CsrWrite(k.csrs, CsrOf(w), x.csrData) else k.csrs
  }

  predicate Allowed(w: Word, x: Effect) { Simple(w, x) || x == IDLE.(jump := true, target := x.target, mret := true) }

  lemma DataMoves(s: State, p: Pins, x: Effect)
    requires s.ex.Ex? && s.data.NoData? && Allowed(s.ex.instr, x) && s.icache == map[] && s.fetch.NoFetch?
    ensures !Stalled(s, p, x) && NextData(s, p, x) == NoData && WritePort(s, p, x) == Port(x.we, x.rd, x.value)
    ensures NextCache(NO_CACHE, s, p, x) == map[]
  {
    hide CsrOf, IrqFires;
  }

  lemma CountersMove(s: State, p: Pins, x: Effect)
    requires s.ex.Ex? && Allowed(s.ex.instr, x) && Timely(Context(s.regs, s.csrs, s.mip, s.mtime))
    requires !p.timerIrq && !p.extIrq
    ensures NextMip(s, p, x) == 0 && NextMtime(s, x) == s.mtime + 1 && !CsrHit(s, x, IrqAck)
  {
    hide CsrHit, WithBit, TimerLevel, Allowed, Timely;
    NoCounterWritten(s, x);
    LevelLow(s, p);
    assert s.mip == 0 || s.mip == 0x80 by { OnlyTimerPending(s); }
    PendingBit(s.mip, false);
  }

  lemma OnlyTimerPending(s: State)
    requires Timely(Context(s.regs, s.csrs, s.mip, s.mtime))
    ensures s.mip == 0 || s.mip == 0x80
  {
  }

  lemma NoCounterWritten(s: State, x: Effect)
    requires s.ex.Ex? && Allowed(s.ex.instr, x)
    ensures !CsrHit(s, x, Mip) && !CsrHit(s, x, MTime) && !CsrHit(s, x, IrqAck)
  {
    hide CsrOf;
  }

  lemma LevelLow(s: State, p: Pins)
    requires Timely(Context(s.regs, s.csrs, s.mip, s.mtime)) && !p.timerIrq
    ensures !TimerLevel(s, p)
  {
  }

  lemma CalmIsTimely(k: Context, pc: Word)
    requires Calm(k)
    ensures Timely(k) && !IrqFires(Executing(k, pc).core)
  {
    CalmMeansNoIrq(Executing(k, pc).core);
    hide IrqFires;
  }

  /** A cycle with a simple instruction, or MRET, completing in EX. */
  lemma ExMoves(k: Context, pc: Word, x: Effect)
    requires Timely(k) && x == EffectAt(k, Word0(pc), pc) && Allowed(Word0(pc), x)
    ensures var y := Executing(k, pc);
      var s, p := y.core, PinsOf(Program(), y, Input(false));
      && !Stalled(s, p, x)
      && Cycle(NO_CACHE, Program(), y, Input(false)) ==
         Board(State(NextPcFetch(s, x), NextFetch(NO_CACHE, s, p, x), NextIf(NO_CACHE, s, p, x),
             NextSlot(NO_CACHE, s, p, x),
                     NextId(s, p, x), NextEx(s, p, x), NoData, Write(k.regs, x.we, x.rd, x.value), NextCsrs(s, x), 0,
                     k.mtime + 1, false, false, map[]), map[])
  {
    hide EffectAt, EffectOf, Word0, Next, NextPcFetch, NextFetch, NextIf, NextSlot, NextId, NextEx, Program, Write;
    hide IrqFires, NextData, NextMip, NextMtime, WritePort, CsrHit, NextCache, NextCsrs, Stalled, Loaded, Allowed;
    hide Timely;
    var y := Executing(k, pc);
    var p := PinsOf(Program(), y, Input(false));
    EffectIs(k, pc);
    LoadedIsEx(Word0(pc), pc, k.regs);
    DataMoves(y.core, p, x);
    CountersMove(y.core, p, x);
  }

  lemma LoadedIsEx(w: Word, pc: Word, regs: Regs)
    ensures Loaded(w, pc, regs).Ex? && Loaded(w, pc, regs).instr == w && Loaded(w, pc, regs).pc == pc
  {
  }

  lemma CsrsMove(s: State, x: Effect)
    requires s.ex.Ex? && Allowed(s.ex.instr, x)
    ensures var csrs := if x.csrWe then CsrWrite(s.csrs, CsrOf(s.ex.instr), x.csrData) else s.csrs;
      NextCsrs(s, x) == if IrqFires(s) then EnterTrap(csrs, s.csrs, s.ex.pc, IrqCause(s))
                        else if x.mret then LeaveTrap(csrs) else csrs
  {
    hide CsrOf, CsrWrite, IrqFires, IrqCause, EnterTrap, LeaveTrap;
  }

  lemma RetireMoves(s: State, p: Pins, x: Effect)
    requires s.ex.Ex? && s.data.NoData? && s.slot.Empty? && s.icache == map[] && s.fetch.NoFetch? && s.ifs.Held?
        && s.id.Empty?
    requires !Stalled(s, p, x) && !Flushes(s, x)
    ensures NextPcFetch(s, x) == Next(s.pcFetch) && NextFetch(NO_CACHE, s, p, x) == Request(s.pcFetch)
    ensures NextIf(NO_CACHE, s, p, x) == NextSlot(NO_CACHE, s, p, x) == Empty && NextId(s, p, x) == s.ifs
        && NextEx(s, p, x) == NoEx
  {
    hide CacheRow, CacheTag, IrqFires, Next, Stalled, Traps;
  }

  lemma FlushMoves(s: State, p: Pins, x: Effect)
    requires Flushes(s, x)
    ensures NextPcFetch(s, x) == (if Traps(s, x) then s.csrs.mtvec else x.target)
        && NextFetch(NO_CACHE, s, p, x) == NoFetch
    ensures NextIf(NO_CACHE, s, p, x) == NextSlot(NO_CACHE, s, p, x) == NextId(s, p, x) == Empty
        && NextEx(s, p, x) == NoEx
  {
    hide CacheRow, CacheTag, IrqFires, Next, Traps;
  }

  /** A simple instruction completes; the next one has been decoded. */
  lemma CompleteCycle(k: Context, pc: Word, x: Effect)
    requires Calm(k) && x == EffectAt(k, Word0(pc), pc) && Simple(Word0(pc), x) && !x.jump
    ensures Cycle(NO_CACHE, Program(), Executing(k, pc), Input(false)) ==
            Decoded(Done(k, x, Written(k, Word0(pc), x)), Next(pc))
  {
    assert Allowed(Word0(pc), x);
    hide EffectAt, PinsOf, Program, Word0, Next, Request, NextPcFetch, NextFetch, NextIf, NextSlot, NextId, NextEx;
    hide NextCsrs, Cycle, Write, CsrOf, CsrWrite, IrqFires, IrqCause, Stalled, Loaded, EnterTrap, LeaveTrap, Allowed;
    hide Calm, Timely;
    var y := Executing(k, pc);
    var p := PinsOf(Program(), y, Input(false));
    LoadedIsEx(Word0(pc), pc, k.regs);
    CalmIsTimely(k, pc);
    ExMoves(k, pc, x);
    CsrsMove(y.core, x);
    RetireMoves(y.core, p, x);
  }

  /** MRET completes: control goes to the saved PC. */
  lemma ReturnCycle(k: Context, pc: Word, x: Effect)
    requires Calm(k) && x == EffectAt(k, Word0(pc), pc) && x == IDLE.(jump := true, target := k.csrs.mepc, mret := true)
    ensures Cycle(NO_CACHE, Program(), Executing(k, pc), Input(false)) ==
            Idle(Done(k, x, LeaveTrap(k.csrs)), k.csrs.mepc)
  {
    assert Allowed(Word0(pc), x);
    hide EffectAt, PinsOf, Program, Word0, Next, Request, NextPcFetch, NextFetch, NextIf, NextSlot, NextId, NextEx;
    hide NextCsrs, Cycle, Write, CsrOf, CsrWrite, IrqFires, IrqCause, Stalled, Loaded, EnterTrap, LeaveTrap, Allowed;
    hide Calm, Timely;
    var y := Executing(k, pc);
    LoadedIsEx(Word0(pc), pc, k.regs);
    CalmIsTimely(k, pc);
    ExMoves(k, pc, x);
    CsrsMove(y.core, x);
    FlushMoves(y.core, PinsOf(Program(), y, Input(false)), x);
  }

  /** The timer interrupt meets a simple instruction completing in EX. */
  lemma InterruptedCycle(k: Context, pc: Word, x: Effect)
    requires Timely(k) && x == EffectAt(k, Word0(pc), pc) && Simple(Word0(pc), x) && !x.csrWe
    requires k.mip == 0x80 && k.csrs.mie == 0x88 && k.csrs.mstatus == 0x88
    ensures Cycle(NO_CACHE, Program(), Executing(k, pc), Input(false)) ==
            Idle(Done(k, x, EnterTrap(k.csrs, k.csrs, pc, CAUSE_TIMER)), k.csrs.mtvec)
  {
    assert Allowed(Word0(pc), x);
    hide EffectAt, PinsOf, Program, Word0, Next, Request, NextPcFetch, NextFetch, NextIf, NextSlot, NextId, NextEx;
    hide NextCsrs, Cycle, Write, CsrOf, CsrWrite, IrqFires, IrqCause, Stalled, Loaded, EnterTrap, LeaveTrap, Allowed;
    hide Calm, Timely;
    var y := Executing(k, pc);
    LoadedIsEx(Word0(pc), pc, k.regs);
    ExMoves(k, pc, x);
    TimerInterrupts(y.core);
    CsrsMove(y.core, x);
    FlushMoves(y.core, PinsOf(Program(), y, Input(false)), x);
  }

  lemma TimerInterrupts(s: State)
    requires s.mip == 0x80 && s.csrs.mie == 0x88 && s.csrs.mstatus == 0x88
    ensures IrqFires(s) && IrqCause(s) == CAUSE_TIMER
  {
    assert Flag(0x88, 3) && Flag(0x88, 7) && Flag(0x80, 7) && !Flag(0x80, 11);
  }

  // ---- the run ----

  const C0 := RESET.csrs

  function R1(): Regs { Write(ZeroRegs(), true, 2, 0x88) }
  function R2(): Regs { Write(R1(), true, 1, 1) }
  function R3(): Regs { Write(R2(), true, 1, 2) }

  function C1(): Csrs { CsrWrite(RESET.csrs, Mie, 0x88) }
  function C2(): Csrs { CsrWrite(C1(), MStatus, 0x88) }
  function C3(): Csrs { EnterTrap(C2(), C2(), 12, CAUSE_TIMER) }
  function C4(): Csrs { LeaveTrap(C3()) }

  lemma CsrValues()
    ensures C1() == RESET.csrs.(mie := 0x88) && C2() == RESET.csrs.(mie := 0x88, mstatus := 0x88)
    ensures C3() == RESET.csrs.(mie := 0x88, mstatus := 0x80, mepc := 12, mcause := CAUSE_TIMER)
    ensures C4() == RESET.csrs.(mie := 0x88, mstatus := 0x88, mepc := 12, mcause := CAUSE_TIMER)
  {
    assert WithEnables(0x88, false, Flag(0x88, 3)) == 0x80;
    assert WithEnables(0x80, Flag(0x80, 7), true) == 0x88;
  }

  lemma RegValues()
    ensures Read(ZeroRegs(), 0) == 0 && Read(R1(), 2) == 0x88 && Read(R1(), 1) == 0 && Read(R2(), 1) == 1
        && Read(R3(), 1) == 2
  {
    ReadAfterWrite(ZeroRegs(), true, 2, 0x88, 2);
    ReadAfterWrite(ZeroRegs(), true, 2, 0x88, 1);
    ReadAfterWrite(R1(), true, 1, 1, 1);
    ReadAfterWrite(R2(), true, 1, 2, 1);
  }

  lemma WordsOfProgram()
    ensures Word0(0) == SET && Word0(4) == WRITE_MIE && Word0(8) == WRITE_STATUS && Word0(12) == COUNT
        && Word0(0x100) == RETURN
    ensures Word0(16) == NOTHING
  {
    assert WordIndex(0) == 0 && WordIndex(4) == 1 && WordIndex(8) == 2 && WordIndex(12) == 3;
    assert WordIndex(0x100) == 64 && WordIndex(16) == 4;
  }

  lemma SetEffect(k: Context, pc: Word)
    requires Read(k.regs, 0) == 0
    ensures EffectAt(k, SET, pc) == IDLE.(we := true, rd := 2, value := 0x88)
  {
    assert FormatOf(SET) == OpImm && ImmI(SET) == 0x88 && Rd(SET) == 2 && Rs1(SET) == 0;
    hide CsrRead, CsrOf, Read;
  }

  lemma CountEffect(k: Context, pc: Word)
    ensures EffectAt(k, COUNT, pc) == IDLE.(we := true, rd := 1, value := Sum(Read(k.regs, 1), 1))
  {
    assert FormatOf(COUNT) == OpImm && ImmI(COUNT) == 1 && Rd(COUNT) == 1 && Rs1(COUNT) == 1;
    hide CsrRead, CsrOf, Read, Sum;
  }

  lemma WriteMieEffect(k: Context, pc: Word)
    ensures CsrOf(WRITE_MIE) == Mie
    ensures EffectAt(k, WRITE_MIE, pc) ==
      IDLE.(value := CsrRead(k.csrs, k.mip, k.mtime, Mie), csrWe := true, csrData := Read(k.regs, 2))
  {
    assert FormatOf(WRITE_MIE) == SystemF && Funct3(WRITE_MIE) == 1 && Rd(WRITE_MIE) == 0 && Rs1(WRITE_MIE) == 2;
    assert Upper12(WRITE_MIE) == 0x304;
    hide CsrRead, Read;
  }

  lemma WriteStatusEffect(k: Context, pc: Word)
    ensures CsrOf(WRITE_STATUS) == MStatus
    ensures EffectAt(k, WRITE_STATUS, pc) ==
      IDLE.(value := CsrRead(k.csrs, k.mip, k.mtime, MStatus), csrWe := true, csrData := Read(k.regs, 2))
  {
    assert FormatOf(WRITE_STATUS) == SystemF && Funct3(WRITE_STATUS) == 1 && Rd(WRITE_STATUS) == 0
        && Rs1(WRITE_STATUS) == 2;
    assert Upper12(WRITE_STATUS) == 0x300;
    hide CsrRead, Read;
  }

  lemma ReturnEffect(k: Context, pc: Word)
    ensures EffectAt(k, RETURN, pc) == IDLE.(jump := true, target := k.csrs.mepc, mret := true)
  {
    assert FormatOf(RETURN) == SystemF && Funct3(RETURN) == 0 && Upper12(RETURN) == 0x302;
    hide CsrRead, Read, CsrOf;
  }

  /** `n` cycles; the timer's line is up in cycle 9. */
  function Feed(n: nat): seq<Inputs> { seq(n, k => Input(k == 9)) }

  /** The state after `n` cycles from reset. */
  function Reached(n: nat): Board { Run(NO_CACHE, Program(), Board(RESET, map[]), Feed(n)) }

  lemma ReachedNext(n: nat)
    ensures Reached(n + 1) == Cycle(NO_CACHE, Program(), Reached(n), Input(n == 9))
  {
    hide Cycle, Run, Program, Input;
    assert Feed(n + 1) == Feed(n) + [Input(n == 9)];
    RunSnoc(NO_CACHE, Program(), Board(RESET, map[]), Feed(n), Input(n == 9));
  }

  lemma CalmLater(k: Context)
    requires Calm(k) && k.mtime < 180
    ensures Later(k, false) == k.(mtime := k.mtime + 1)
    ensures Calm(k.(mtime := k.mtime + 1)) && Calm(k.(mtime := k.mtime + 2)) && Calm(k.(mtime := k.mtime + 3))
    ensures Calm(k.(mtime := k.mtime + 4))
  {
  }

  function Aged(k: Context, t: Word): Context { k.(mtime := k.mtime + t) }

  lemma AgedSteps(k: Context)
    requires Calm(k) && k.mtime < 180
    ensures Aged(k, 1) == Later(k, false) && Aged(k, 2) == Later(Aged(k, 1), false)
    ensures Aged(k, 3) == Later(Aged(k, 2), false) && Aged(k, 4) == Later(Aged(k, 3), false)
    ensures Calm(Aged(k, 1)) && Calm(Aged(k, 2)) && Calm(Aged(k, 3)) && Calm(Aged(k, 4))
  {
    CalmLater(k);
  }

  /** Four cycles from an empty pipeline to an instruction in EX. */
  lemma FourCycles(k: Context, pc: Word, n: nat)
    requires Calm(k) && k.mtime < 180 && Reached(n) == Idle(k, pc) && (n > 9 || n + 4 <= 9)
    ensures Reached(n + 4) == Executing(Aged(k, 4), pc) && Calm(Aged(k, 4))
  {
    hide Cycle, Program, Idle, Requested, Fetched, Decoded, Executing, Later, Aged, Calm, Reached;
    ReachedNext(n);
    ReachedNext(n + 1);
    ReachedNext(n + 2);
    ReachedNext(n + 3);
    AgedSteps(k);
    FetchCycle(k, pc);
    ArriveCycle(Aged(k, 1), pc);
    DecodeCycle(Aged(k, 2), pc);
    IssueCycle(Aged(k, 3), pc, false);
    assert Reached(n + 1) == Requested(Aged(k, 1), pc);
    assert Reached(n + 2) == Fetched(Aged(k, 2), pc);
    assert Reached(n + 3) == Decoded(Aged(k, 3), pc);
  }

  lemma Start()
    ensures Reached(0) == Idle(Context(ZeroRegs(), C0, 0, 0), 0)
  {
  }

  /** Enabling the timer interrupt takes the first nine cycles. */
  lemma Cycles0To5()
    ensures Reached(5) == Decoded(Context(R1(), C0, 0, 5), 4)
  {
    hide Cycle, Program, Requested, Fetched, Decoded, Executing, EffectAt, R1, Reached;
    ReachedNext(4);
    var k := Context(ZeroRegs(), C0, 0, 0);
    assert Reached(0) == Idle(k, 0) by { Start(); }
    FourCycles(k, 0, 0);
    WordsOfProgram();
    RegValues();
    var k4 := Context(ZeroRegs(), C0, 0, 4);
    SetEffect(k4, 0);
    CompleteCycle(k4, 0, IDLE.(we := true, rd := 2, value := 0x88));
    assert Next(0) == 4 && (0 as Word) + 4 == 4 && (4 as Word) + 1 == 5;
    FirstRegs();
  }

  lemma FirstRegs()
    ensures Write(ZeroRegs(), true, 2, 0x88) == R1() && Write(R1(), true, 1, 1) == R2()
        && Write(R2(), true, 1, 2) == R3()
  {
  }

  lemma Cycles5To9()
    ensures Reached(9) == Decoded(Context(R1(), C2(), 0, 9), 12)
  {
    hide Cycle, Program, Decoded, Executing, EffectAt, R1, Write, Read, CsrOf, CsrRead, Reached;
    ReachedNext(5);
    ReachedNext(6);
    ReachedNext(7);
    ReachedNext(8);
    Cycles0To5();
    WordsOfProgram();
    RegValues();
    CsrValues();
    IssueCycle(Context(R1(), C0, 0, 5), 4, false);
    var k6 := Context(R1(), C0, 0, 6);
    assert Reached(6) == Executing(k6, 4);
    WriteMieEffect(k6, 4);
    CompleteCycle(k6, 4, EffectAt(k6, WRITE_MIE, 4));
    NoWrite(R1(), Port(false, 0, CsrRead(C0, 0, 6, Mie)));
    assert Next(4) == 8 && Next(8) == 12;
    var k7 := Context(R1(), C1(), 0, 7);
    assert Reached(7) == Decoded(k7, 8);
    IssueCycle(k7, 8, false);
    var k8 := Context(R1(), C1(), 0, 8);
    assert Reached(8) == Executing(k8, 8);
    WriteStatusEffect(k8, 8);
    CompleteCycle(k8, 8, EffectAt(k8, WRITE_STATUS, 8));
    NoWrite(R1(), Port(false, 0, CsrRead(C1(), 0, 8, MStatus)));
  }

  /** The counting instruction completes in the cycle that takes the interrupt. */
  lemma Cycles9To11()
    ensures Reached(11) == Idle(Context(R2(), C3(), 0, 11), 0x100)
  {
    hide Cycle, Program, Decoded, Executing, Idle, EffectAt, R1, R2, Write, Read, CsrOf, CsrRead, EnterTrap, Reached;
    ReachedNext(9);
    ReachedNext(10);
    Cycles5To9();
    WordsOfProgram();
    RegValues();
    CsrValues();
    IssueCycle(Context(R1(), C2(), 0, 9), 12, true);
    var k10 := Context(R1(), C2(), 0x80, 10);
    assert Reached(10) == Executing(k10, 12);
    CountEffect(k10, 12);
    assert Sum(0, 1) == 1;
    InterruptedCycle(k10, 12, IDLE.(we := true, rd := 1, value := 1));
    FirstRegs();
  }

  /** The handler returns, and the counting instruction completes again. */
  lemma Cycles11To21()
    ensures Reached(21) == Decoded(Context(R3(), C4(), 0, 21), 16)
  {
    hide Cycle, Program, Decoded, Executing, Idle, EffectAt, R1, R2, R3, Write, Read, CsrOf, CsrRead, LeaveTrap;
    hide Reached;
    ReachedNext(15);
    ReachedNext(20);
    Cycles9To11();
    WordsOfProgram();
    RegValues();
    CsrValues();
    var k11 := Context(R2(), C3(), 0, 11);
    FourCycles(k11, 0x100, 11);
    var k15 := Context(R2(), C3(), 0, 15);
    assert Aged(k11, 4) == k15;
    ReturnEffect(k15, 0x100);
    ReturnCycle(k15, 0x100, EffectAt(k15, RETURN, 0x100));
    NoWrite(R2(), Port(false, 0, 0));
    var k16 := Context(R2(), C4(), 0, 16);
    assert Reached(16) == Idle(k16, 12);
    FourCycles(k16, 12, 16);
    var k20 := Context(R2(), C4(), 0, 20);
    assert Aged(k16, 4) == k20;
    CountEffect(k20, 12);
    assert Sum(1, 1) == 2 && Next(12) == 16;
    CompleteCycle(k20, 12, IDLE.(we := true, rd := 1, value := 2));
    FirstRegs();
  }

  /** The next instruction is at `pc`, the counter x1 holds `count`, and `mepc` the saved address. */
  predicate Stands(m: Arch, pc: Word, count: Word, saved: Word) {
    m.pc == pc && Read(m.regs, 1) == count && m.csrs.mepc == saved
  }

  /** Twenty-one cycles after reset the program has come to address 16, past its one counting instruction at 12, and has
      counted to two: the interrupt taken in cycle 10 let the instruction complete and saved its own address. */
  lemma CountedTwice()
    ensures Stands(Abs(Reached(11)), 0x100, 1, 12)
    ensures Stands(Abs(Reached(21)), 16, 2, 12)
  {
    hide Cycle, Program, Reached;
    Cycles9To11();
    Cycles11To21();
    RegValues();
    CsrValues();
  }
}
