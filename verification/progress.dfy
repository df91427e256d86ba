/** The pipeline never waits on itself: how long until the next instruction retires. */
module Progress {
  import opened Words
  import opened ExecuteStage
  import opened Core
  import opened Sequential
  import opened Stream
  import opened Refinement
  import opened Runs

  /** The instruction in EX needs the data bus. */
  predicate WantsBus(s: State) {
    s.ex.Ex? && Execute(s.ex.instr, s.ex.pc, s.ex.a, s.ex.b, 0, 0, 0).mem.OnBus()
  }

  /** Cycles to the next retirement if every memory answers at once. */
  function Distance(s: State): nat {
    if s.ex.Ex? then (if WantsBus(s) && s.data.NoData? then 1 else 0)
    else if s.id.Held? then 2
    else if s.ifs.Held? then 3
    else if s.fetch.Fetching? then 4
    else 5
  }

  /** The oldest instruction is waiting for a memory: its own data, or itself to be fetched. */
  predicate Waits(s: State, p: Pins) {
    if s.ex.Ex? then BusWait(s, p)
    else s.id.Empty? && s.ifs.Empty? && s.fetch.Fetching? && !p.imemReady
  }

  /** A cycle that retires nothing either waits for a memory, and changes nothing about that wait, or brings the next
      retirement closer. */
  lemma ProgressStep(cfg: Config, rom: Rom, s: State, p: Pins, x: Effect)
    requires Inv(cfg, rom, s) && x == EffectOf(s, p) && !IrqFires(s) && !HitLost(cfg, s, p, x) && !Retires(s, p, x)
    ensures var s' := StepWith(cfg, s, p, x);
      if Waits(s, p) then
        Distance(s') == Distance(s) && (if s.ex.Ex? then s'.ex == s.ex && s'.data == s.data else s'.fetch == s.fetch)
      else Distance(s') < Distance(s)
  {
    hide Execute, CsrRead, CsrOf, NextMip, NextMtime, NextCsrs, NextCache, NextPcFetch, UsesRs1, UsesRs2, Rs1, Rs2;
    hide Genuine, CacheOk, Operand, IrqFires, Operands, WritePort, Hits, HitWord, Next, CacheRow, CacheTag;
    hide RequestMatches;
    EffectFitsInv(cfg, rom, s, p);
    if s.ex.Ex? {
      BusUseIsFixed(s.ex.instr, s.ex.pc, s.ex.a, s.ex.b, CsrRead(s.csrs, s.mip, s.mtime, CsrOf(s.ex.instr)),
          s.csrs.mepc, p.deviceData);
    }
  }

  predicate RetiresIn(rom: Rom, y: Board, i: Inputs) {
    var p := PinsOf(rom, y, i);
    Retires(y.core, p, EffectOf(y.core, p))
  }

  predicate WaitsIn(rom: Rom, y: Board, i: Inputs) { Waits(y.core, PinsOf(rom, y, i)) }

  /** How many instructions retire in a run. */
  function Retirements(cfg: Config, rom: Rom, y: Board, ins: seq<Inputs>): nat
    decreases ins
  {
    if ins == [] then 0
    else (if RetiresIn(rom, y, ins[0]) then 1 else 0) + Retirements(cfg, rom, Cycle(cfg, rom, y, ins[0]), ins[1..])
  }

  /** Never more than `k` waiting cycles in a row without a retirement, `w` of them already past. */
  predicate Prompt(cfg: Config, rom: Rom, y: Board, ins: seq<Inputs>, k: nat, w: nat)
    decreases ins
  {
    ins == [] ||
    var y' := Cycle(cfg, rom, y, ins[0]);
    if WaitsIn(rom, y, ins[0]) && !RetiresIn(rom, y, ins[0]) then w < k && Prompt(cfg, rom, y', ins[1..], k, w + 1)
    else Prompt(cfg, rom, y', ins[1..], k, 0)
  }

  /** The run takes no interrupt. */
  predicate Undisturbed(cfg: Config, rom: Rom, y: Board, ins: seq<Inputs>)
    decreases ins
  {
    ins == [] || (!IrqFires(y.core) && Undisturbed(cfg, rom, Cycle(cfg, rom, y, ins[0]), ins[1..]))
  }

  /** Cycles left in the budget of the current instruction. */
  function Budget(s: State, k: nat, w: nat): int { (Distance(s) + 1) * (k + 1) - w }

  lemma BudgetStep(d: nat, d': nat, k: nat, w: nat, w': nat, waits: bool)
    requires w <= k && d <= 5 && d' <= 5
    requires if waits then d' == d && w' == w + 1 && w' <= k else d' < d && w' == 0
    ensures 1 <= (d' + 1) * (k + 1) - w' <= (d + 1) * (k + 1) - w - 1
  {
    assert (d' + 1) * (k + 1) >= k + 1;
    if !waits { assert (d' + 1) * (k + 1) <= d * (k + 1); }
  }

  lemma BudgetBounds(s: State, k: nat, w: nat)
    requires w <= k
    ensures 1 <= Budget(s, k, w) <= 6 * (k + 1)
  {
    hide Distance;
    DistanceBound(s);
    Scale(Distance(s), k);
  }

  lemma Scale(d: nat, k: nat)
    requires d <= 5
    ensures k + 1 <= (d + 1) * (k + 1) <= 6 * (k + 1)
  {
  }

  lemma BudgetCycle(cfg: Config, rom: Rom, y: Board, i: Inputs, k: nat, w: nat, w': nat)
    requires Inv(cfg, rom, y.core) && SmoothCycle(cfg, rom, y, i) && !IrqFires(y.core) && !RetiresIn(rom, y, i)
    requires w <= k && w' <= k && w' == if WaitsIn(rom, y, i) then w + 1 else 0
    ensures Budget(Cycle(cfg, rom, y, i).core, k, w') <= Budget(y.core, k, w) - 1
  {
    hide Inv, EffectOf, PinsOf, IrqFires, StepWith, Retires, Waits, HitLost, Distance;
    var p := PinsOf(rom, y, i);
    ProgressStep(cfg, rom, y.core, p, EffectOf(y.core, p));
    DistanceBound(y.core);
    DistanceBound(Cycle(cfg, rom, y, i).core);
    BudgetStep(Distance(y.core), Distance(Cycle(cfg, rom, y, i).core), k, w, w', Waits(y.core, p));
  }

  lemma DistanceBound(s: State)
    ensures Distance(s) <= 5
  {
  }

  /** If no memory keeps an instruction waiting more than `k` cycles in a row, an instruction retires at
      least every 6(k + 1) cycles: `n` cycles retire at least n / (6(k + 1)) instructions, rounded down. */
  lemma {:induction false} Throughput(cfg: Config, rom: Rom, y: Board, ins: seq<Inputs>, k: nat, w: nat)
    requires cfg.Valid() && Inv(cfg, rom, y.core) && SmoothRun(cfg, rom, y, ins) && Undisturbed(cfg, rom, y, ins)
    requires w <= k && Prompt(cfg, rom, y, ins, k, w)
    ensures |ins| < Budget(y.core, k, w) + 6 * (k + 1) * Retirements(cfg, rom, y, ins)
    ensures |ins| >= 6 * (k + 1) ==> Retirements(cfg, rom, y, ins) >= 1
    decreases ins
  {
    hide Inv, IrqFires, Cycle, RetiresIn, WaitsIn, Budget, SmoothCycle, MieOff, Abs, CycleAccesses, CycleLabel;
    BudgetBounds(y.core, k, w);
    if ins != [] {
      var i, y' := ins[0], Cycle(cfg, rom, y, ins[0]);
      StepOfRun(cfg, rom, y, i);
      var w' := if WaitsIn(rom, y, i) && !RetiresIn(rom, y, i) then w + 1 else 0;
      Throughput(cfg, rom, y', ins[1..], k, w');
      BudgetBounds(y'.core, k, w');
      if RetiresIn(rom, y, i) {
        var r := Retirements(cfg, rom, y', ins[1..]);
        assert 6 * (k + 1) * (1 + r) == 6 * (k + 1) + 6 * (k + 1) * r;
      } else {
        BudgetCycle(cfg, rom, y, i, k, w, w');
      }
    }
  }

  /** Neither memory is silent for more than `k` cycles in a row; they have been for `a` and `b` cycles already. */
  predicate Answering(ins: seq<Inputs>, k: nat, a: nat, b: nat)
    decreases ins
  {
    ins == [] ||
    var a' := if ins[0].imemReady then 0 else a + 1;
    var b' := if ins[0].memReady then 0 else b + 1;
    a' <= k && b' <= k && Answering(ins[1..], k, a', b')
  }

  /** A wait is for a memory that is silent, and while it lasts it is for the same one. */
  lemma WaitCycle(cfg: Config, rom: Rom, y: Board, i: Inputs)
    requires Inv(cfg, rom, y.core) && SmoothCycle(cfg, rom, y, i) && !IrqFires(y.core)
    requires WaitsIn(rom, y, i) && !RetiresIn(rom, y, i)
    ensures Cycle(cfg, rom, y, i).core.ex.Ex? == y.core.ex.Ex?
    ensures if y.core.ex.Ex? then !i.memReady else !i.imemReady
  {
    hide Inv, EffectOf, IrqFires, StepWith, Retires, HitLost, WantsBus;
    var p := PinsOf(rom, y, i);
    ProgressStep(cfg, rom, y.core, p, EffectOf(y.core, p));
  }

  /** Memories that keep answering keep no instruction waiting. */
  lemma {:induction false} AnsweringIsPrompt(cfg: Config, rom: Rom, y: Board, ins: seq<Inputs>, k: nat, a: nat, b: nat,
      w: nat)
    requires cfg.Valid() && Inv(cfg, rom, y.core) && SmoothRun(cfg, rom, y, ins) && Undisturbed(cfg, rom, y, ins)
    requires Answering(ins, k, a, b) && w <= if y.core.ex.Ex? then b else a
    ensures Prompt(cfg, rom, y, ins, k, w)
    decreases ins
  {
    hide Inv, IrqFires, Cycle, RetiresIn, WaitsIn, SmoothCycle, Abs, CycleAccesses, CycleLabel;
    if ins != [] {
      var i, y' := ins[0], Cycle(cfg, rom, y, ins[0]);
      StepOfRun(cfg, rom, y, i);
      var a' := if i.imemReady then 0 else a + 1;
      var b' := if i.memReady then 0 else b + 1;
      if WaitsIn(rom, y, i) && !RetiresIn(rom, y, i) {
        WaitCycle(cfg, rom, y, i);
        AnsweringIsPrompt(cfg, rom, y', ins[1..], k, a', b', w + 1);
      } else {
        AnsweringIsPrompt(cfg, rom, y', ins[1..], k, a', b', 0);
      }
    }
  }
}
