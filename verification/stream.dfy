/** The instruction stream inside the pipeline: EX, ID, IF, the prefetch slot and the outstanding
    request hold consecutive instructions, and `pc_fetch` comes next. */
module Stream {
  import opened Words
  import opened ExecuteStage
  import opened Core
  import opened Sequential

  function RequestPc(s: State): Word { if s.fetch.Fetching? then s.fetch.addr else s.pcFetch }
  function SlotPc(s: State): Word { if s.slot.Held? then s.slot.pc else RequestPc(s) }
  function IfPc(s: State): Word { if s.ifs.Held? then s.ifs.pc else SlotPc(s) }
  function IdPc(s: State): Word { if s.id.Held? then s.id.pc else IfPc(s) }

  /** The program counter of the sequential machine: the oldest instruction not yet retired. */
  function ArchPc(s: State): Word { if s.ex.Ex? then s.ex.pc else IdPc(s) }

  ghost predicate Consecutive(s: State) {
    && (s.fetch.Fetching? ==> Next(s.fetch.addr) == s.pcFetch && s.slot.Empty?)
    && (s.slot.Held? ==> s.ifs.Held? && Next(s.slot.pc) == RequestPc(s))
    && (s.ifs.Held? ==> Next(s.ifs.pc) == SlotPc(s))
    && (s.id.Held? ==> Next(s.id.pc) == IfPc(s))
    && (s.ex.Ex? ==> Next(s.ex.pc) == IdPc(s))
  }

  ghost predicate SlotGenuine(rom: Rom, h: Slot) { h.Held? ==> h.instr == FetchWord(rom, h.pc) }

  /** Every buffered word is the instruction-memory word of its PC. */
  ghost predicate Genuine(rom: Rom, s: State) {
    && SlotGenuine(rom, s.slot) && SlotGenuine(rom, s.ifs) && SlotGenuine(rom, s.id)
    && (s.ex.Ex? ==> s.ex.instr == FetchWord(rom, s.ex.pc))
  }

  /** The instruction bus answers with the word of the requested address. */
  ghost predicate BusAnswers(rom: Rom, s: State, p: Pins) {
    Arrives(s, p) ==> p.imemData == FetchWord(rom, s.fetch.addr)
  }

  /** Each valid line holds the memory word of every address with its index and tag. */
  ghost predicate Coherent(cfg: Config, rom: Rom, cache: map<Row, Line>) {
    forall a: Word :: CacheRow(cfg, a) in cache && cache[CacheRow(cfg, a)].tag == CacheTag(cfg, a)
      ==> cache[CacheRow(cfg, a)].word == FetchWord(rom, a)
  }

  /** An outstanding cacheable request remembers the line of its own address. */
  ghost predicate FillsOwnLine(cfg: Config, s: State) {
    s.fetch.Fetching? && s.fetch.cacheable ==>
      s.fetch.row == CacheRow(cfg, s.fetch.addr) && s.fetch.tag == CacheTag(cfg, s.fetch.addr)
  }

  ghost predicate CacheOk(cfg: Config, rom: Rom, s: State) {
    Coherent(cfg, rom, s.icache) && FillsOwnLine(cfg, s)
  }

  /** Index and tag together determine the word address. */
  lemma LineDeterminesWord(cfg: Config, a: Word, b: Word)
    requires cfg.Valid()
    requires cfg.cached && CacheRow(cfg, a) == CacheRow(cfg, b) && CacheTag(cfg, a) == CacheTag(cfg, b)
    ensures WordIndex(a) == WordIndex(b)
  {
  }

  /** Coherence survives every clock edge, whatever the execute stage, the buses and the interrupts do. */
  lemma CacheStep(cfg: Config, rom: Rom, s: State, p: Pins, x: Effect)
    requires cfg.Valid() && CacheOk(cfg, rom, s) && BusAnswers(rom, s, p)
    ensures CacheOk(cfg, rom, StepWith(cfg, s, p, x))
  {
    hide CacheRow, CacheTag, Traps, NextMip, NextMtime, NextCsrs, NextIf, NextSlot, NextEx, NextId, NextData;
    hide NextPcFetch, WritePort;
    var s' := StepWith(cfg, s, p, x);
    forall a: Word | CacheRow(cfg, a) in s'.icache && s'.icache[CacheRow(cfg, a)].tag == CacheTag(cfg, a)
      ensures s'.icache[CacheRow(cfg, a)].word == FetchWord(rom, a)
    {
      if !Flushes(s, x) && Arrives(s, p) && s.fetch.cacheable && cfg.cached && CacheRow(cfg, a) == s.fetch.row {
        LineDeterminesWord(cfg, a, s.fetch.addr);
      }
    }
  }

  /** A hit returns what the bus would have returned. */
  lemma HitIsGenuine(cfg: Config, rom: Rom, s: State)
    requires CacheOk(cfg, rom, s) && Hits(cfg, s)
    ensures HitWord(cfg, s) == FetchWord(rom, s.pcFetch)
  {
    hide CacheRow, CacheTag;
  }

  /** The one way a word is lost: a cache hit is delivered to IF in the very cycle ID takes IF's
      old word, and the later assignment clears the valid bit that was just set. */
  predicate HitLost(cfg: Config, s: State, p: Pins, x: Effect) {
    CanFetch(s) && Hits(cfg, s) && IdAccepts(s, p, x) && !Flushes(s, x)
  }

  lemma GenuineStep(cfg: Config, rom: Rom, s: State, p: Pins, x: Effect)
    requires Genuine(rom, s) && BusAnswers(rom, s, p) && CacheOk(cfg, rom, s)
    ensures Genuine(rom, StepWith(cfg, s, p, x))
  {
    hide CacheRow, CacheTag, Flushes, NextMip, NextMtime, NextCsrs, NextData, NextFetch, NextPcFetch, NextCache;
    hide WritePort, Operand, LoadUse, Stalled, ToIf, FetchWord, CacheOk, Hits, HitWord;
    if Hits(cfg, s) { HitIsGenuine(cfg, rom, s); }
  }

  lemma ConsecutiveStep(cfg: Config, s: State, p: Pins, x: Effect)
    requires Consecutive(s) && !Flushes(s, x)
    ensures Consecutive(StepWith(cfg, s, p, x)) <==> !HitLost(cfg, s, p, x)
  {
    hide CacheRow, CacheTag, Traps, NextMip, NextMtime, NextCsrs, NextData, NextCache, WritePort, Operand, LoadUse;
    hide Stalled, Hits, HitWord, Next;
    NextDiffers(s.pcFetch);
  }

  // ---- what becomes of a lost hit ----

  /** ID and what is younger are consecutive. */
  ghost predicate Younger(s: State) {
    && (s.fetch.Fetching? ==> Next(s.fetch.addr) == s.pcFetch && s.slot.Empty?)
    && (s.slot.Held? ==> s.ifs.Held? && Next(s.slot.pc) == RequestPc(s))
    && (s.ifs.Held? ==> Next(s.ifs.pc) == SlotPc(s))
  }

  /** Exactly one instruction is missing from the stream: the one behind `pc`, which is still in ID or EX. */
  ghost predicate Gap(s: State, pc: Word) {
    && Younger(s)
    && if s.id.Held? && s.id.pc == pc then IfPc(s) == Next(Next(pc)) && (s.ex.Ex? ==> Next(s.ex.pc) == pc)
       else
         && s.ex.Ex? && s.ex.pc == pc && IdPc(s) == Next(Next(pc))
         && (s.id.Held? ==> Next(s.id.pc) == IfPc(s))
  }

  /** A lost hit loses one word: the one behind the instruction that moves to ID in that cycle. */
  lemma LostHitLeavesGap(cfg: Config, s: State, p: Pins, x: Effect)
    requires Consecutive(s) && HitLost(cfg, s, p, x)
    ensures var v := StepWith(cfg, s, p, x);
      && v.id == s.ifs && v.ifs.Empty? && v.slot.Empty? && v.fetch.NoFetch? && Gap(v, v.id.pc)
  {
    hide CacheRow, CacheTag, Traps, NextMip, NextMtime, NextCsrs, NextData, NextCache, WritePort, Operand, LoadUse;
    hide Stalled, Hits, HitWord, Next;
    NextDiffers(s.pcFetch);
  }

  predicate InId(s: State, pc: Word) { s.id.Held? && s.id.pc == pc }

  lemma GapInId(cfg: Config, s: State, p: Pins, x: Effect, pc: Word)
    requires Gap(s, pc) && InId(s, pc) && !Flushes(s, x) && !HitLost(cfg, s, p, x)
    ensures Gap(StepWith(cfg, s, p, x), pc) && !(s.ex.Ex? && s.ex.pc == pc)
  {
    hide CacheRow, CacheTag, Traps, NextMip, NextMtime, NextCsrs, NextData, NextCache, WritePort, Operand, LoadUse;
    hide Stalled, Hits, HitWord, Next;
    NextDiffers(s.pcFetch);
    NextDiffers(pc);
    if s.ex.Ex? { NextDiffers(s.ex.pc); }
  }

  lemma ExWaits(s: State, p: Pins, x: Effect)
    requires s.ex.Ex? && Stalled(s, p, x) && !Flushes(s, x)
    ensures NextEx(s, p, x) == s.ex && NextId(s, p, x) == if IdAccepts(s, p, x) then s.ifs else s.id
  {
    hide Stalled, LoadUse, Flushes, Operand;
  }

  lemma GapWaitsInEx(cfg: Config, s: State, p: Pins, x: Effect, pc: Word)
    requires Gap(s, pc) && !InId(s, pc) && !Flushes(s, x) && !HitLost(cfg, s, p, x) && Stalled(s, p, x)
    ensures Gap(StepWith(cfg, s, p, x), pc)
  {
    hide CacheRow, CacheTag, Traps, NextMip, NextMtime, NextCsrs, NextData, NextCache, WritePort, Operand, LoadUse;
    hide Stalled, Hits, HitWord, Next, NextEx, NextId, IdStalls;
    ExWaits(s, p, x);
    NextDiffers(s.pcFetch);
    NextDiffers(pc);
  }

  lemma GapCompletes(cfg: Config, s: State, p: Pins, x: Effect, pc: Word)
    requires Gap(s, pc) && !InId(s, pc) && !Flushes(s, x) && !HitLost(cfg, s, p, x) && !Stalled(s, p, x)
    ensures var v := StepWith(cfg, s, p, x);
      Consecutive(v) && ArchPc(v) == Next(Next(pc))
  {
    hide CacheRow, CacheTag, Traps, NextMip, NextMtime, NextCsrs, NextData, NextCache, WritePort, Operand, LoadUse;
    hide Stalled, Hits, HitWord, Next;
    NextDiffers(s.pcFetch);
  }

  /** Unless a flush or another lost hit comes first, the gap stays as it is until the instruction at `pc` completes;
      the stream is then in order again, and the next instruction is not the one behind `pc` but the one after it. */
  lemma GapStep(cfg: Config, s: State, p: Pins, x: Effect, pc: Word)
    requires Gap(s, pc) && !Flushes(s, x) && !HitLost(cfg, s, p, x)
    ensures var v := StepWith(cfg, s, p, x);
      if s.ex.Ex? && s.ex.pc == pc && !Stalled(s, p, x) then Consecutive(v) && ArchPc(v) == Next(Next(pc))
      else Gap(v, pc)
  {
    hide Gap, Flushes, HitLost, StepWith, Stalled;
    if InId(s, pc) {
      GapInId(cfg, s, p, x, pc);
    } else {
      GapIsInEx(s, pc);
      if Stalled(s, p, x) { GapWaitsInEx(cfg, s, p, x, pc); } else { GapCompletes(cfg, s, p, x, pc); }
    }
  }

  lemma GapIsInEx(s: State, pc: Word)
    requires Gap(s, pc) && !InId(s, pc)
    ensures s.ex.Ex? && s.ex.pc == pc
  {
  }

  /** The buffers keep holding consecutive genuine words exactly when no hit is lost. */
  lemma StreamStep(cfg: Config, rom: Rom, s: State, p: Pins, x: Effect)
    requires Consecutive(s) && Genuine(rom, s) && BusAnswers(rom, s, p) && CacheOk(cfg, rom, s)
    ensures Genuine(rom, StepWith(cfg, s, p, x))
    ensures Consecutive(StepWith(cfg, s, p, x)) <==> !HitLost(cfg, s, p, x)
  {
    hide CacheRow, CacheTag, Traps, NextMip, NextMtime, NextCsrs, NextData, NextCache, WritePort, Operand, LoadUse;
    hide Stalled, FetchWord, Hits, HitWord, Genuine, CacheOk;
    GenuineStep(cfg, rom, s, p, x);
    if !Flushes(s, x) { ConsecutiveStep(cfg, s, p, x); }
  }

  /** The PC a trap saves is the architectural one, unless the pipeline is empty behind an outstanding fetch. */
  lemma TrapPcIsArchPc(s: State)
    requires Consecutive(s)
    ensures TrapPc(s) == ArchPc(s) <==> !(s.ex.NoEx? && s.id.Empty? && s.ifs.Empty? && s.fetch.Fetching?)
  {
  }
}
