/** A run from reset in which a lost cache hit makes the core skip an instruction. */
module SkippedInstruction {
  import opened Words
  import opened RegisterFile
  import opened ExecuteStage
  import opened Core
  import opened Sequential
  import opened Stream
  import opened Refinement
  import opened Runs

  const FOUR_LINES := Config(true, 2)

  const COUNT1: Word := 0x0010_8093  // ADDI x1, x1, 1
  const COUNT2: Word := 0x0011_0113  // ADDI x2, x2, 1
  const BACK: Word := 0xff9f_f06f    // JAL x0, -8
  const NOTHING: Word := 0x13        // NOP

  /** Count x1 and x2 together, for ever. */
  function Loop(): Rom {
    (i: Word) => if i == 0 then COUNT1 else if i == 1 then COUNT2 else if i == 2 then BACK else NOTHING
  }

  /** The instruction memory answers at once; nothing else happens. */
  const ANSWER := Inputs(true, false, 0, false, false)

  /** The state after `n` cycles from reset. */
  function Reached(n: nat): Board { Run(FOUR_LINES, Loop(), Board(RESET, map[]), seq(n, _ => ANSWER)) }

  lemma ReachedNext(n: nat)
    ensures Reached(n + 1) == Cycle(FOUR_LINES, Loop(), Reached(n), ANSWER)
  {
    hide Cycle, Run;
    assert seq(n + 1, _ => ANSWER) == seq(n, _ => ANSWER) + [ANSWER];
    RunSnoc(FOUR_LINES, Loop(), Board(RESET, map[]), seq(n, _ => ANSWER), ANSWER);
  }

  // ---- the three instructions ----

  lemma Count1Executes(pc: Word, a: Word, b: Word, c: Word, mepc: Word, d: Word)
    ensures Rs1(COUNT1) == 1
    ensures Execute(COUNT1, pc, a, b, c, mepc, d) == IDLE.(we := true, rd := 1, value := Sum(a, 1))
  {
    assert FormatOf(COUNT1) == OpImm && ImmI(COUNT1) == 1 && Rd(COUNT1) == 1;
    hide Sum;
  }

  lemma Count2Executes(pc: Word, a: Word, b: Word, c: Word, mepc: Word, d: Word)
    ensures Rs1(COUNT2) == 2
    ensures Execute(COUNT2, pc, a, b, c, mepc, d) == IDLE.(we := true, rd := 2, value := Sum(a, 1))
  {
    assert FormatOf(COUNT2) == OpImm && ImmI(COUNT2) == 1 && Rd(COUNT2) == 2;
    hide Sum;
  }

  lemma BackExecutes(a: Word, b: Word, c: Word, mepc: Word, d: Word)
    ensures Execute(BACK, 8, a, b, c, mepc, d) == IDLE.(we := true, rd := 0, value := 12, jump := true, target := 0)
  {
    assert FormatOf(BACK) == JalF && ImmJ(BACK) == 0xffff_fff8 && Rd(BACK) == 0 && Sum(8, 0xffff_fff8) == 0;
  }

  lemma WordsOfLoop()
    ensures FetchWord(Loop(), 0) == COUNT1 && FetchWord(Loop(), 4) == COUNT2 && FetchWord(Loop(), 8) == BACK
    ensures FetchWord(Loop(), 12) == NOTHING
  {
    assert WordIndex(0) == 0 && WordIndex(4) == 1 && WordIndex(8) == 2 && WordIndex(12) == 3;
  }

  // ---- the sequential machine keeps the two counters together ----

  predicate Together(m: Arch) {
    var x1, x2 := Read(m.regs, 1), Read(m.regs, 2);
    (m.pc == 0 && x1 == x2) || (m.pc == 4 && x1 == Sum(x2, 1)) || (m.pc == 8 && x1 == x2)
  }

  lemma TogetherStep(m: Arch, env: Env)
    requires Together(m)
    ensures Together(SeqStep(Loop(), m, env))
  {
    hide Loop, Execute, Read, Write, CsrRead, CsrOf, FetchWord, Rs1, Rs2, Sum;
    WordsOfLoop();
    var w := FetchWord(Loop(), m.pc);
    var a, b, c := Read(m.regs, Rs1(w)), Read(m.regs, Rs2(w)), CsrRead(m.csrs, env.mip, env.mtime, CsrOf(w));
    assert Next(0) == 4 && Next(4) == 8;
    if m.pc == 0 {
      Count1Executes(0, a, b, c, m.csrs.mepc, env.deviceData);
      ReadAfterWrite(m.regs, true, 1, Sum(a, 1), 1);
      ReadAfterWrite(m.regs, true, 1, Sum(a, 1), 2);
    } else if m.pc == 4 {
      Count2Executes(4, a, b, c, m.csrs.mepc, env.deviceData);
      ReadAfterWrite(m.regs, true, 2, Sum(a, 1), 1);
      ReadAfterWrite(m.regs, true, 2, Sum(a, 1), 2);
    } else {
      BackExecutes(a, b, c, m.csrs.mepc, env.deviceData);
      ReadAfterWrite(m.regs, true, 0, 12, 1);
      ReadAfterWrite(m.regs, true, 0, 12, 2);
    }
  }

  lemma {:induction false} TogetherRun(m: Arch, ls: seq<Label>)
    requires Together(m) && NoInterrupts(ls)
    ensures Together(ApplyAll(Loop(), m, ls))
    decreases ls
  {
    hide Together, SeqStep, Interrupt, Loop;
    if ls != [] {
      if ls[0].Retired? { TogetherStep(m, ls[0].env); }
      TogetherRun(Apply(Loop(), m, ls[0]), ls[1..]);
    }
  }

  // ---- the run ----

  function R1(): Regs { Write(ZeroRegs(), true, 1, 1) }
  function R2(): Regs { Write(R1(), true, 2, 1) }
  function R3(): Regs { Write(R2(), true, 1, 2) }

  lemma RegValues()
    ensures Read(ZeroRegs(), 1) == 0 && Read(R1(), 2) == 0 && Read(R2(), 1) == 1
    ensures Read(R3(), 1) == 2 && Read(R3(), 2) == 1
  {
    ReadAfterWrite(ZeroRegs(), true, 1, 1, 2);
    ReadAfterWrite(R1(), true, 2, 1, 1);
    ReadAfterWrite(R1(), true, 2, 1, 2);
    ReadAfterWrite(R2(), true, 1, 2, 1);
    ReadAfterWrite(R2(), true, 1, 2, 2);
  }

  /** The part of the state that changes in the run. */
  datatype Moment = Moment(pcFetch: Word, fetch: Fetch, ifs: Slot, id: Slot, ex: ExSlot, regs: Regs, mtime: Word,
    cache: map<Row, Line>)

  function Stage(m: Moment): Board {
    Board(State(m.pcFetch, m.fetch, m.ifs, Empty, m.id, m.ex, NoData, m.regs, RESET.csrs, 0, m.mtime, false, false,
                m.cache), map[])
  }

  /** The cache after the first `n` words have arrived. */
  function Filled(n: nat): map<Row, Line> {
    if n == 0 then map[]
    else if n == 1 then Filled(0)[Row(0) := Line(0, COUNT1)]
    else if n == 2 then Filled(1)[Row(1) := Line(0, COUNT2)]
    else if n == 3 then Filled(2)[Row(2) := Line(0, BACK)]
    else Filled(3)[Row(3) := Line(0, NOTHING)]
  }

  /** The states of the run, cycle by cycle. */
  function Trace(k: nat): Moment {
    var z := ZeroRegs();
    if k == 0 then Moment(0, NoFetch, Empty, Empty, NoEx, z, 0, Filled(0))
    else if k == 1 then Moment(4, Fetching(0, true, Row(0), 0), Empty, Empty, NoEx, z, 1, Filled(0))
    else if k == 2 then Moment(4, NoFetch, Held(COUNT1, 0), Empty, NoEx, z, 2, Filled(1))
    else if k == 3 then Moment(8, Fetching(4, true, Row(1), 0), Empty, Held(COUNT1, 0), NoEx, z, 3, Filled(1))
    else if k == 4 then Moment(8, NoFetch, Held(COUNT2, 4), Empty, Loaded(COUNT1, 0, z), z, 4, Filled(2))
    else if k == 5 then Moment(12, Fetching(8, true, Row(2), 0), Empty, Held(COUNT2, 4), NoEx, R1(), 5, Filled(2))
    else if k == 6 then Moment(12, NoFetch, Held(BACK, 8), Empty, Loaded(COUNT2, 4, R1()), R1(), 6, Filled(3))
    else if k == 7 then Moment(16, Fetching(12, true, Row(3), 0), Empty, Held(BACK, 8), NoEx, R2(), 7, Filled(3))
    else if k == 8 then Moment(16, NoFetch, Held(NOTHING, 12), Empty, Loaded(BACK, 8, R2()), R2(), 8, Filled(4))
    else if k == 9 then Moment(0, NoFetch, Empty, Empty, NoEx, R2(), 9, Filled(4))
    else if k == 10 then Moment(4, NoFetch, Held(COUNT1, 0), Empty, NoEx, R2(), 10, Filled(4))
    else if k == 11 then Moment(8, NoFetch, Empty, Held(COUNT1, 0), NoEx, R2(), 11, Filled(4))
    else if k == 12 then Moment(12, NoFetch, Held(BACK, 8), Empty, Loaded(COUNT1, 0, R2()), R2(), 12, Filled(4))
    else if k == 13 then Moment(16, NoFetch, Empty, Held(BACK, 8), NoEx, R3(), 13, Filled(4))
    else Moment(20, Fetching(16, true, Row(0), 1), Empty, Empty, Loaded(BACK, 8, R3()), R3(), 14, Filled(4))
  }

  lemma CacheAddresses()
    ensures CacheRow(FOUR_LINES, 0) == Row(0) && CacheTag(FOUR_LINES, 0) == 0
    ensures CacheRow(FOUR_LINES, 4) == Row(1) && CacheTag(FOUR_LINES, 4) == 0
    ensures CacheRow(FOUR_LINES, 8) == Row(2) && CacheTag(FOUR_LINES, 8) == 0
    ensures CacheRow(FOUR_LINES, 12) == Row(3) && CacheTag(FOUR_LINES, 12) == 0
    ensures CacheRow(FOUR_LINES, 16) == Row(0) && CacheTag(FOUR_LINES, 16) == 1
  {
  }

  lemma NoInterrupt(s: State)
    requires s.csrs == RESET.csrs
    ensures !IrqFires(s)
  {
    assert !Flag(0, 3);
  }

  /** In a cycle whose instruction, if any, writes at most a register, only the stream, that register, the cache and the
      free-running counter move. */
  lemma Moves(m: Moment, x: Effect)
    requires m.mtime < 190 && x == EffectIn(m) && x.mem.NoMem? && !x.trap && !x.csrWe && !x.mret
    ensures var y := Stage(m);
      var s, p := y.core, PinsOf(Loop(), y, ANSWER);
      && Flushes(s, x) == x.jump && !Traps(s, x) && !Stalled(s, p, x) && !LoadUse(s) && !Commits(s, p)
      && p.imemReady && (s.fetch.Fetching? ==> p.imemData == FetchWord(Loop(), s.fetch.addr))
      && (NextSlot(FOUR_LINES, s, p, x) == Empty ==>
            Cycle(FOUR_LINES, Loop(), y, ANSWER) ==
              Stage(Moment(NextPcFetch(s, x), NextFetch(FOUR_LINES, s, p, x), NextIf(FOUR_LINES, s, p, x),
                NextId(s, p, x), NextEx(s, p, x), Write(s.regs, x.we, x.rd, x.value), s.mtime + 1,
                NextCache(FOUR_LINES, s, p, x))))
  {
    hide IrqFires, FetchWord, NextPcFetch, NextFetch, NextIf, NextSlot, NextId, NextEx, NextCache, Write, Loop;
    hide EffectOf, LoadUse;
    NoLoadUse(Stage(m).core);
    NoInterrupt(Stage(m).core);
  }

  function EffectIn(m: Moment): Effect { EffectOf(Stage(m).core, PinsOf(Loop(), Stage(m), ANSWER)) }

  lemma NoLoadUse(s: State)
    requires s.data.NoData?
    ensures !LoadUse(s)
  {
  }

  /** Which of the loop's addresses hit, and what a hit delivers. */
  lemma LoopHits(s: State)
    requires s.icache == Filled(4)
    ensures (s.pcFetch == 0 ==> Hits(FOUR_LINES, s) && HitWord(FOUR_LINES, s) == COUNT1)
    ensures (s.pcFetch == 4 ==> Hits(FOUR_LINES, s) && HitWord(FOUR_LINES, s) == COUNT2)
    ensures (s.pcFetch == 8 ==> Hits(FOUR_LINES, s) && HitWord(FOUR_LINES, s) == BACK)
    ensures (s.pcFetch == 12 ==> Hits(FOUR_LINES, s)) && (s.pcFetch == 16 ==> !Hits(FOUR_LINES, s))
  {
    hide CacheRow, CacheTag;
    CacheAddresses();
  }

  lemma NewMisses(s: State, n: nat)
    requires n < 4 && s.icache == Filled(n)
    requires s.pcFetch == if n == 0 then 0 else if n == 1 then 4 else if n == 2 then 8 else 12
    ensures !Hits(FOUR_LINES, s)
  {
    hide CacheRow, CacheTag;
    CacheAddresses();
  }

  lemma IdleEffect(m: Moment)
    requires m.ex.NoEx?
    ensures EffectIn(m) == IDLE
  {
  }

  /** A request goes out. */
  lemma MissCycle(k: nat)
    requires k == 0
    ensures Cycle(FOUR_LINES, Loop(), Stage(Trace(k)), ANSWER) == Stage(Trace(k + 1))
  {
    hide Filled, EffectIn, Cycle, PinsOf, CacheRow, CacheTag, Loop, FetchWord, Read, Write, Traps, Flushes, Stalled;
    hide LoadUse, Commits, ZeroRegs, R1, R2, R3, UsesRs1, UsesRs2, Rs1, Rs2, Hits, HitWord;
    CacheAddresses();
    WordsOfLoop();
    NewMisses(Stage(Trace(k)).core, 0);
    assert EffectIn(Trace(k)) == IDLE by { IdleEffect(Trace(k)); }
    Moves(Trace(k), IDLE);
    NoWrite(Trace(k).regs, Port(false, 0, 0));
  }

  /** The word arrives. */
  lemma ArriveCycle(k: nat)
    requires k == 1
    ensures Cycle(FOUR_LINES, Loop(), Stage(Trace(k)), ANSWER) == Stage(Trace(k + 1))
  {
    hide EffectIn, Cycle, PinsOf, CacheRow, CacheTag, Loop, FetchWord, Read, Write, Traps, Flushes, Stalled, LoadUse;
    hide Commits, ZeroRegs, R1, R2, R3, UsesRs1, UsesRs2, Rs1, Rs2, Hits, HitWord;
    CacheAddresses();
    WordsOfLoop();
    assert EffectIn(Trace(k)) == IDLE by { IdleEffect(Trace(k)); }
    Moves(Trace(k), IDLE);
    NoWrite(Trace(k).regs, Port(false, 0, 0));
  }

  /** It goes to ID. */
  lemma DecodeCycle(k: nat)
    requires k == 2
    ensures Cycle(FOUR_LINES, Loop(), Stage(Trace(k)), ANSWER) == Stage(Trace(k + 1))
  {
    hide Filled, EffectIn, Cycle, PinsOf, CacheRow, CacheTag, Loop, FetchWord, Read, Write, Traps, Flushes, Stalled;
    hide LoadUse, Commits, ZeroRegs, R1, R2, R3, UsesRs1, UsesRs2, Rs1, Rs2, Hits, HitWord;
    CacheAddresses();
    WordsOfLoop();
    NewMisses(Stage(Trace(k)).core, 1);
    assert EffectIn(Trace(k)) == IDLE by { IdleEffect(Trace(k)); }
    Moves(Trace(k), IDLE);
    NoWrite(Trace(k).regs, Port(false, 0, 0));
  }

  /** It goes to EX, and the next one arrives. */
  lemma IssueCycle(k: nat)
    requires k == 3 || k == 5 || k == 7
    ensures Cycle(FOUR_LINES, Loop(), Stage(Trace(k)), ANSWER) == Stage(Trace(k + 1))
  {
    hide EffectIn, Cycle, PinsOf, CacheRow, CacheTag, Loop, FetchWord, Read, Write, Traps, Flushes, Stalled, LoadUse;
    hide Commits, ZeroRegs, R1, R2, R3, UsesRs1, UsesRs2, Rs1, Rs2, Hits, HitWord;
    CacheAddresses();
    WordsOfLoop();
    assert EffectIn(Trace(k)) == IDLE by { IdleEffect(Trace(k)); }
    Moves(Trace(k), IDLE);
    NoWrite(Trace(k).regs, Port(false, 0, 0));
  }

  /** A hit; the second one is lost. */
  lemma HitCycle(k: nat)
    requires k == 9 || k == 10
    ensures Cycle(FOUR_LINES, Loop(), Stage(Trace(k)), ANSWER) == Stage(Trace(k + 1))
  {
    hide Filled, EffectIn, Cycle, PinsOf, CacheRow, CacheTag, Loop, FetchWord, Read, Write, Traps, Flushes, Stalled;
    hide LoadUse, Commits, ZeroRegs, R1, R2, R3, UsesRs1, UsesRs2, Rs1, Rs2, Hits, HitWord;
    CacheAddresses();
    WordsOfLoop();
    LoopHits(Stage(Trace(k)).core);
    assert EffectIn(Trace(k)) == IDLE by { IdleEffect(Trace(k)); }
    Moves(Trace(k), IDLE);
    NoWrite(Trace(k).regs, Port(false, 0, 0));
  }

  /** A hit while ID issues. */
  lemma HitIssueCycle(k: nat)
    requires k == 11
    ensures Cycle(FOUR_LINES, Loop(), Stage(Trace(k)), ANSWER) == Stage(Trace(k + 1))
  {
    hide Filled, EffectIn, Cycle, PinsOf, CacheRow, CacheTag, Loop, FetchWord, Read, Write, Traps, Flushes, Stalled;
    hide LoadUse, Commits, ZeroRegs, R1, R2, R3, UsesRs1, UsesRs2, Rs1, Rs2, Hits, HitWord;
    CacheAddresses();
    WordsOfLoop();
    LoopHits(Stage(Trace(k)).core);
    assert EffectIn(Trace(k)) == IDLE by { IdleEffect(Trace(k)); }
    Moves(Trace(k), IDLE);
    NoWrite(Trace(k).regs, Port(false, 0, 0));
  }

  /** A miss while ID issues. */
  lemma MissIssueCycle(k: nat)
    requires k == 13
    ensures Cycle(FOUR_LINES, Loop(), Stage(Trace(k)), ANSWER) == Stage(Trace(k + 1))
  {
    hide Filled, EffectIn, Cycle, PinsOf, CacheRow, CacheTag, Loop, FetchWord, Read, Write, Traps, Flushes, Stalled;
    hide LoadUse, Commits, ZeroRegs, R1, R2, R3, UsesRs1, UsesRs2, Rs1, Rs2, Hits, HitWord;
    CacheAddresses();
    WordsOfLoop();
    LoopHits(Stage(Trace(k)).core);
    assert EffectIn(Trace(k)) == IDLE by { IdleEffect(Trace(k)); }
    Moves(Trace(k), IDLE);
    NoWrite(Trace(k).regs, Port(false, 0, 0));
  }

  /** What the four instructions that reach EX do. */
  lemma Effects(k: nat)
    requires k == 4 || k == 6 || k == 8 || k == 12
    ensures EffectIn(Trace(k)) ==
      if k == 4 then IDLE.(we := true, rd := 1, value := 1)
      else if k == 6 then IDLE.(we := true, rd := 2, value := 1)
      else if k == 8 then IDLE.(we := true, rd := 0, value := 12, jump := true, target := 0)
      else IDLE.(we := true, rd := 1, value := 2)
  {
    hide Execute, CsrRead, CsrOf, Read, Write, Sum, Loop, FetchWord, Filled, ZeroRegs, Rs1, Rs2;
    RegValues();
    Sums();
    var s := Stage(Trace(k)).core;
    var c := CsrRead(s.csrs, s.mip, s.mtime, CsrOf(s.ex.instr));
    if k == 4 || k == 12 {
      Count1Executes(0, s.ex.a, s.ex.b, c, 0, 0);
    } else if k == 6 {
      Count2Executes(4, s.ex.a, s.ex.b, c, 0, 0);
    } else {
      BackExecutes(s.ex.a, s.ex.b, c, 0, 0);
    }
  }

  lemma Sums()
    ensures Sum(0, 1) == 1 && Sum(1, 1) == 2
  {
  }

  /** One of them completes. */
  lemma ExCycle(k: nat)
    requires k == 4 || k == 6 || k == 12
    ensures Cycle(FOUR_LINES, Loop(), Stage(Trace(k)), ANSWER) == Stage(Trace(k + 1))
  {
    hide Filled, EffectIn, Cycle, PinsOf, CacheRow, CacheTag, Loop, FetchWord, Read, Write, Traps, Flushes, Stalled;
    hide LoadUse, Commits, ZeroRegs, UsesRs1, UsesRs2, Rs1, Rs2, EffectOf, Hits, HitWord;
    CacheAddresses();
    if k == 12 { LoopHits(Stage(Trace(k)).core); } else { NewMisses(Stage(Trace(k)).core, k / 2); }
    Effects(k);
    Moves(Trace(k), EffectIn(Trace(k)));
  }

  lemma JumpCycle()
    ensures Cycle(FOUR_LINES, Loop(), Stage(Trace(8)), ANSWER) == Stage(Trace(9))
  {
    hide Filled, EffectIn, Cycle, PinsOf, CacheRow, CacheTag, Loop, FetchWord, Read, Traps, Flushes, Stalled, LoadUse;
    hide Commits, ZeroRegs, UsesRs1, UsesRs2, Rs1, Rs2, EffectOf, R1, R2;
    Effects(8);
    Moves(Trace(8), EffectIn(Trace(8)));
  }

  lemma {:induction false} TraceIsRun(k: nat)
    requires k <= 14
    ensures Reached(k) == Stage(Trace(k))
    decreases k
  {
    hide Cycle, Trace, Stage, Reached, Run;
    if k == 0 {
      RunStart();
    } else {
      TraceIsRun(k - 1);
      ReachedNext(k - 1);
      match k
      case 1 => MissCycle(0);
      case 2 => ArriveCycle(1);
      case 3 => DecodeCycle(2);
      case 4 => IssueCycle(3);
      case 5 => ExCycle(4);
      case 6 => IssueCycle(5);
      case 7 => ExCycle(6);
      case 8 => IssueCycle(7);
      case 9 => JumpCycle();
      case 10 => HitCycle(9);
      case 11 => HitCycle(10);
      case 12 => HitIssueCycle(11);
      case 13 => ExCycle(12);
      case 14 => MissIssueCycle(13);
    }
  }

  lemma RunStart()
    ensures Reached(0) == Stage(Trace(0))
  {
  }

  /** The eleventh cycle loses a hit: the word of address 4 is in no buffer although the fetch address has passed it. */
  lemma HitLostAfterReset()
    ensures var s, p, t := Reached(10).core, PinsOf(Loop(), Reached(10), ANSWER), Reached(11).core;
      && HitLost(FOUR_LINES, s, p, EffectOf(s, p)) && Consecutive(s)
      && t.id == Held(COUNT1, 0) && t.ifs.Empty? && t.slot.Empty? && t.fetch.NoFetch? && t.pcFetch == 8
  {
    hide CacheRow, CacheTag, FormatOf, Cycle, IrqFires, Loop, Run, Reached;
    CacheAddresses();
    TraceIsRun(10);
    TraceIsRun(11);
    NoInterrupt(Stage(Trace(10)).core);
  }

  /** And three cycles later the core has departed from its program: it stands before the jump with x1 two and x2 one,
      where the sequential machine, however far it runs, never is. */
  lemma LoopSkips()
    ensures var m := Abs(Reached(14));
      && m.pc == 8 && Read(m.regs, 1) == 2 && Read(m.regs, 2) == 1
      && forall ls :: NoInterrupts(ls) ==> ApplyAll(Loop(), Abs(Board(RESET, map[])), ls) != m
  {
    hide Cycle, Loop, Run, Reached, Read, Write, ApplyAll, NoInterrupts;
    TraceIsRun(14);
    RegValues();
    var m0 := Abs(Board(RESET, map[]));
    assert Together(m0) by { StartTogether(); }
    forall ls | NoInterrupts(ls)
      ensures Together(ApplyAll(Loop(), m0, ls))
    {
      TogetherRun(m0, ls);
    }
  }

  lemma StartTogether()
    ensures Together(Abs(Board(RESET, map[])))
  {
  }
}
