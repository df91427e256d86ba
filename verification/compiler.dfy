/** From source lines to the running pipeline. */
module Compiler {
  import opened Words
  import opened RegisterFile
  import opened ExecuteStage
  import opened Core
  import opened Sequential
  import opened Isa
  import opened Decoding
  import opened Assembler
  import opened Arithmetic
  import opened SourceMachine
  import opened Refinement
  import opened Runs
  import Progress

  /** The image as instruction memory. */
  function RomOf(words: seq<Word>): Rom {
    (i: Word) => if Nat(i) < |words| then words[Nat(i)] else 0
  }

  // ---- the source-level machine ----

  /** The instruction at place `k`; behind the program the memory holds NOPs. */
  function SourceAt(lines: seq<SourceLine>, k: nat): Source {
    if k < |Bodies(lines)| then Bodies(lines)[k] else Nop
  }

  predicate InProgram(pc: Word, depth: nat) { Aligned(pc) && Nat(WordIndex(pc)) < depth }

  function SourceApply(lines: seq<SourceLine>, macros: Macros, labels: Labels, m: Arch, l: Label): Arch {
    match l
    case Quiet => m
    case Retired(env) => SourceStep(SourceAt(lines, Nat(WordIndex(m.pc))), m, env, macros, labels)
    case Interrupted(cause) => Interrupt(m, cause)
  }

  function SourceRun(lines: seq<SourceLine>, macros: Macros, labels: Labels, m: Arch, ls: seq<Label>): Arch
    decreases ls
  {
    if ls == [] then m else SourceRun(lines, macros, labels, SourceApply(lines, macros, labels, m, ls[0]), ls[1..])
  }

  /** The accesses of a source run, in order. */
  function SourceLog(lines: seq<SourceLine>, macros: Macros, labels: Labels, m: Arch, ls: seq<Label>): seq<Access>
    decreases ls
  {
    if ls == [] then []
    else
      var s := SourceAt(lines, Nat(WordIndex(m.pc)));
      (if ls[0].Retired? then SourceAccesses(s, m, ls[0].env, macros, labels) else [])
      + SourceLog(lines, macros, labels, SourceApply(lines, macros, labels, m, ls[0]), ls[1..])
  }

  /** Every instruction of the source run lies inside the program memory, at an aligned address. */
  predicate StaysInside(lines: seq<SourceLine>, macros: Macros, labels: Labels, depth: nat, m: Arch, ls: seq<Label>)
    decreases ls
  {
    ls == [] ||
    ((ls[0].Retired? ==> InProgram(m.pc, depth))
     && StaysInside(lines, macros, labels, depth, SourceApply(lines, macros, labels, m, ls[0]), ls[1..]))
  }

  // ---- addresses ----

  lemma NextAddress(a: Word)
    requires Aligned(a) && WordIndex(a) < 0x3fff_ffff
    ensures Aligned(Next(a)) && WordIndex(Next(a)) == Succ(WordIndex(a))
  {
  }

  lemma IndexBelowTop(k: nat)
    requires k + 1 < 0x4000_0000
    ensures Index(k) < 0x3fff_ffff
  {
    hide Nat, Index;
    IndexNat(k);
    NatOfThirtyOnes();
    BelowTop(Index(k));
  }

  lemma BelowTop(w: Word)
    requires w <= 0x3fff_ffff && w != 0x3fff_ffff
    ensures w < 0x3fff_ffff
  {
  }

  lemma AddressZero()
    ensures Aligned(0) && WordIndex(0) == 0
  {
  }

  lemma {:induction false} AddressIndex(k: nat)
    requires k < 0x4000_0000
    ensures Aligned(Address(k)) && WordIndex(Address(k)) == Index(k)
  {
    hide Next, Aligned, WordIndex, Succ;
    if k > 0 {
      AddressIndex(k - 1);
      IndexBelowTop(k - 1);
      NextAddress(Address(k - 1));
    } else {
      AddressZero();
    }
  }

  lemma SameAddress(a: Word, b: Word)
    requires Aligned(a) && Aligned(b) && WordIndex(a) == WordIndex(b)
    ensures a == b
  {
  }

  /** An aligned address is the address of the instruction it indexes. */
  lemma AddressOfIndex(pc: Word, k: nat)
    requires Aligned(pc) && Nat(WordIndex(pc)) == k && k < 0x4000_0000
    ensures pc == Address(k)
  {
    hide Nat, Address, Index, Aligned, WordIndex;
    AddressIndex(k);
    IndexNat(k);
    NatInjective(WordIndex(pc), Index(k));
    SameAddress(pc, Address(k));
  }

  // ---- one instruction ----

  function WordAccesses(w: Word, m: Arch, env: Env): seq<Access> { Accesses(m, CsrOf(w), EffectOn(w, m, env)) }

  lemma OnlyMemoryFormatsAccess(w: Word, pc: Word, a: Word, b: Word, c: Word, m: Word, d: Word)
    requires FormatOf(w) != Loads && FormatOf(w) != Stores
    ensures Execute(w, pc, a, b, c, m, d).mem.NoMem?
  {
    hide FormatOf, ExecuteOp, ExecuteSystem, ExecuteBranch, ImmI, ImmJ, ImmU, Rd, Funct3, Even, Sum, Alu, Next;
    OpHasNoAccess(w, a, b);
    BranchHasNoAccess(w, pc, a, b);
    SystemHasNoAccess(w, a, c, m);
  }

  /** Only loads, stores and SYSTEM words show anything. */
  lemma SilentFormats(w: Word, m: Arch, env: Env)
    requires FormatOf(w) != Loads && FormatOf(w) != Stores && (FormatOf(w) == SystemF ==> Funct3(w) == 0)
    ensures WordAccesses(w, m, env) == []
  {
    hide FormatOf, Funct3, Execute, Read, Rs1, Rs2, CsrOf, CsrRead, Aside, RamRead;
    var a, b, c := Read(m.regs, Rs1(w)), Read(m.regs, Rs2(w)), CsrRead(m.csrs, env.mip, env.mtime, CsrOf(w));
    OnlySystemWritesCsrs(w, m.pc, a, b, c, m.csrs.mepc, env.deviceData);
    OnlyMemoryFormatsAccess(w, m.pc, a, b, c, m.csrs.mepc, env.deviceData);
  }

  lemma LoadShows(w: Word, m: Arch, env: Env)
    requires FormatOf(w) == Loads && Funct3(w) == 2
    ensures var addr := Sum(Read(m.regs, Rs1(w)), ImmI(w));
      WordAccesses(w, m, env) ==
        [if IsDevice(addr) then DeviceRead(addr, env.deviceData) else BusRead(addr, RamRead(m.ram, addr))]
  {
    hide Read, RamRead, IsDevice, FormatOf, Funct3, Sum, Rs1, Rs2, Rd, ImmI, CsrOf, CsrRead;
  }

  lemma StoreShows(w: Word, m: Arch, env: Env)
    requires FormatOf(w) == Stores && Funct3(w) == 2
    ensures var addr, v := Sum(Read(m.regs, Rs1(w)), ImmS(w)), Read(m.regs, Rs2(w));
      WordAccesses(w, m, env) == [if IsDevice(addr) then DeviceWrite(addr, v) else BusWrite(addr, v)]
  {
    hide Read, RamRead, IsDevice, FormatOf, Funct3, Sum, Rs1, Rs2, Rd, ImmS, CsrOf, CsrRead;
  }

  lemma LwShows(rd: RegId, base: RegId, imm: Word, m: Arch, env: Env)
    requires InRange(imm, 0xffff_f800, 0x7ff)
    ensures WordAccesses(PackI(imm, base, 2, rd, 0x03), m, env) == IsaAccesses(Lw(rd, base, imm), m, env)
  {
    hide WordAccesses, Read, RamRead, IsDevice, PackI, InRange, Sum, Rs1, ImmI, FormatOf, Opcode, Funct3;
    var w := PackI(imm, base, 2, rd, 0x03);
    FieldsI(imm, base, 2, rd, 0x03);
    ImmediateI(imm, base, 2, rd, 0x03);
    FormatIs(w);
    LoadShows(w, m, env);
  }

  lemma SwShows(src: RegId, base: RegId, imm: Word, m: Arch, env: Env)
    requires InRange(imm, 0xffff_f800, 0x7ff)
    ensures WordAccesses(PackS(imm, src, base, 2), m, env) == IsaAccesses(Sw(src, base, imm), m, env)
  {
    hide WordAccesses, Read, RamRead, IsDevice, PackS, InRange, Sum, Rs1, Rs2, ImmS, FormatOf, Opcode, Funct3;
    var w := PackS(imm, src, base, 2);
    FieldsS(imm, src, base, 2);
    ImmediateS(imm, src, base, 2);
    FormatIs(w);
    StoreShows(w, m, env);
  }

  lemma CsrShows(kind: CsrKind, rd: RegId, csr: Word, rs1: RegId, m: Arch, env: Env)
    requires csr <= 0xfff
    ensures WordAccesses(PackI(csr, rs1, CsrFunct3(kind), rd, 0x73), m, env) ==
      IsaAccesses(Csr(kind, rd, csr, rs1), m, env)
  {
    hide PackI, CsrAt, CsrRead, Read, Rd, Rs1, Rs2, Upper12, ExecuteOp, ExecuteBranch, InRange, Aside;
    FieldsI(csr, rs1, CsrFunct3(kind), rd, 0x73);
    TwelveBits(csr);
    FormatIs(PackI(csr, rs1, CsrFunct3(kind), rd, 0x73));
  }

  predicate Shows(i: Instr) { i.Lw? || i.Sw? || i.Csr? }

  lemma OthersAreSilent(i: Instr)
    requires Encode(i).Ok? && !Shows(i)
    ensures var f := FormatOf(Encode(i).value);
      f != Loads && f != Stores && (f == SystemF ==> Funct3(Encode(i).value) == 0)
  {
    hide PackI, PackR, PackS, PackB, PackJ, PackU, InRange, FormatOf, Opcode, Funct3;
    FormatIs(Encode(i).value);
    match i
    case Addi(rd, rs1, imm) => FieldsI(imm, rs1, 0, rd, 0x13);
    case Arith(op, rd, rs1, rs2) => FieldsR(ArithFunct7(op), rs2, rs1, ArithFunct3(op), rd, 0x33);
    case Lui(rd, imm) => SmallIsInRange(imm, 0xf_ffff); FieldsU(imm, rd, 0x37);
    case Auipc(rd, imm) => SmallIsInRange(imm, 0xf_ffff); FieldsU(imm, rd, 0x17);
    case Branch(cond, rs1, rs2, offset) => FieldsB(offset, rs2, rs1, CondFunct3(cond));
    case Jal(rd, offset) => FieldsJ(offset, rd);
    case Jalr(rd, rs1, imm) => FieldsI(imm, rs1, 0, rd, 0x67);
    case Ecall => SystemWords();
    case Mret => SystemWords();
    case _ =>
  }

  /** For every operand combination an encoder accepts, the word shows the outside what the instruction does. */
  lemma EncodedShows(i: Instr, m: Arch, env: Env)
    requires Encode(i).Ok?
    ensures WordAccesses(Encode(i).value, m, env) == IsaAccesses(i, m, env)
  {
    hide WordAccesses, PackI, PackR, PackS, PackB, PackJ, PackU, InRange, FormatOf, Funct3, EncodeB, EncodeJ, EncodeU;
    match i
    case Lw(rd, base, imm) => LwShows(rd, base, imm, m, env);
    case Sw(src, base, imm) => SwShows(src, base, imm, m, env);
    case Csr(kind, rd, csr, rs1) => SmallIsInRange(csr, 0xfff); CsrShows(kind, rd, csr, rs1, m, env);
    case _ => OthersAreSilent(i); SilentFormats(Encode(i).value, m, env);
  }

  /** The word at place `k` of the image encodes the instruction written there. */
  lemma WordAt(lines: seq<SourceLine>, macros: Macros, labels: Labels, depth: nat, words: seq<Word>, k: nat)
    requires ImageIsRight(lines, macros, labels, depth, words) && k < depth
    ensures EncodeSource(SourceAt(lines, k), Address(k), macros, labels) == Ok(words[k])
  {
    hide EncodeSource, Address;
    if k >= |Bodies(lines)| { NopWord(Address(k), macros, labels); }
  }

  lemma NopWord(pc: Word, macros: Macros, labels: Labels)
    ensures EncodeSource(Nop, pc, macros, labels) == Ok(NOP_WORD)
  {
    assert PackI(0, 0, 0, 0, 0x13) == 0x13;
    assert InRange(0, 0xffff_f800, 0x7ff);
  }

  /** One sequential step on the image is one step of the written program. */
  lemma StepCompiled(lines: seq<SourceLine>, macros: Macros, labels: Labels, depth: nat, words: seq<Word>, m: Arch,
      env: Env)
    requires ImageIsRight(lines, macros, labels, depth, words) && depth <= 0x4000_0000
    requires InProgram(m.pc, depth)
    ensures SeqStep(RomOf(words), m, env) == SourceStep(SourceAt(lines, Nat(WordIndex(m.pc))), m, env, macros, labels)
  {
    hide StepWord, SourceStep, SourceAt, Encode, Lower, IsaStep, Nat, Address, ImageIsRight, Aligned, WordIndex;
    var k := Nat(WordIndex(m.pc));
    assert |words| == depth by { ImageDepth(lines, macros, labels, depth, words); }
    AddressOfIndex(m.pc, k);
    WordAt(lines, macros, labels, depth, words, k);
    var s := SourceAt(lines, k);
    LowerMeans(s, m, env, macros, labels);
    EncodedMeans(Lower(s, m.pc, macros, labels).value, m, env);
  }

  /** It shows the outside what the written instruction does. */
  lemma StepShows(lines: seq<SourceLine>, macros: Macros, labels: Labels, depth: nat, words: seq<Word>, m: Arch,
      env: Env)
    requires ImageIsRight(lines, macros, labels, depth, words) && depth <= 0x4000_0000
    requires InProgram(m.pc, depth)
    ensures LabelAccesses(RomOf(words), m, Retired(env)) ==
      SourceAccesses(SourceAt(lines, Nat(WordIndex(m.pc))), m, env, macros, labels)
  {
    hide SourceAccesses, SourceStep, IsaStep;
    hide EffectOn, Accesses, SourceAt, Encode, Lower, IsaAccesses, Nat, Address, ImageIsRight, Aligned, WordIndex;
    hide CsrOf;
    var k := Nat(WordIndex(m.pc));
    assert |words| == depth by { ImageDepth(lines, macros, labels, depth, words); }
    AddressOfIndex(m.pc, k);
    WordAt(lines, macros, labels, depth, words, k);
    LowerMeans(SourceAt(lines, k), m, env, macros, labels);
    EncodedShows(Lower(SourceAt(lines, k), m.pc, macros, labels).value, m, env);
  }

  lemma ImageDepth(lines: seq<SourceLine>, macros: Macros, labels: Labels, depth: nat, words: seq<Word>)
    requires ImageIsRight(lines, macros, labels, depth, words)
    ensures |words| == depth
  {
  }

  // ---- whole runs ----

  lemma ApplyCompiled(lines: seq<SourceLine>, macros: Macros, labels: Labels, depth: nat, words: seq<Word>, m: Arch,
      l: Label)
    requires ImageIsRight(lines, macros, labels, depth, words) && depth <= 0x4000_0000
    requires l.Retired? ==> InProgram(m.pc, depth)
    ensures Apply(RomOf(words), m, l) == SourceApply(lines, macros, labels, m, l)
    ensures l.Retired? ==>
      LabelAccesses(RomOf(words), m, l) ==
        SourceAccesses(SourceAt(lines, Nat(WordIndex(m.pc))), m, l.env, macros, labels)
  {
    hide ImageIsRight, SeqStep, SourceStep, SourceAt, InProgram, RomOf, Interrupt, Nat, WordIndex, SourceAccesses;
    hide LabelAccesses;
    if l.Retired? {
      StepCompiled(lines, macros, labels, depth, words, m, l.env);
      StepShows(lines, macros, labels, depth, words, m, l.env);
    }
  }

  /** The sequential machine on the image follows the written program, in state and in what it shows the outside, as
      long as that stays inside the program memory. */
  lemma {:induction false} RunCompiled(lines: seq<SourceLine>, macros: Macros, labels: Labels, depth: nat,
      words: seq<Word>, m: Arch, ls: seq<Label>)
    requires ImageIsRight(lines, macros, labels, depth, words) && depth <= 0x4000_0000
    requires StaysInside(lines, macros, labels, depth, m, ls)
    ensures ApplyAll(RomOf(words), m, ls) == SourceRun(lines, macros, labels, m, ls)
    ensures AllAccesses(RomOf(words), m, ls) == SourceLog(lines, macros, labels, m, ls)
    decreases ls
  {
    hide ImageIsRight, Apply, SourceApply, InProgram, RomOf, SourceAccesses, SourceAt, Nat, WordIndex, SeqEffect;
    hide Accesses, FetchWord, CsrOf;
    if ls != [] {
      ApplyCompiled(lines, macros, labels, depth, words, m, ls[0]);
      RunCompiled(lines, macros, labels, depth, words, SourceApply(lines, macros, labels, m, ls[0]), ls[1..]);
    }
  }

  // ---- conditions on the source alone ----

  /** A CSR instruction that names `mie`, by name, number or macro. */
  predicate NamesMie(s: Source, macros: Macros) { s.SCsr? && CsrMeant(s.csr, macros) == Mie }

  lemma MieNumber(csr: Word)
    ensures CsrAt(csr) == Mie <==> csr == 0x304
  {
  }

  /** Only a CSR instruction naming 0x304 is encoded as an access to `mie`. */
  lemma EncodedMie(i: Instr)
    requires Encode(i).Ok? && WritesMie(Encode(i).value)
    ensures i.Csr? && i.csr == 0x304
  {
    hide Encode, FormatOf, Funct3, Upper12, Rd, Rs1, CsrAt, DecodeArith, DecodeBranch;
    DecodeEncode(i);
    SystemWords();
    MieNumber(Upper12(Encode(i).value));
  }

  lemma FillerIsNoCsr()
    ensures !WritesMie(0) && !WritesMie(NOP_WORD)
  {
    assert FormatOf(0) == Zero && FormatOf(NOP_WORD) == OpImm;
  }

  lemma LoweredMie(s: Source, pc: Word, macros: Macros, labels: Labels)
    requires Lower(s, pc, macros, labels).Ok? && !NamesMie(s, macros)
    ensures var i := Lower(s, pc, macros, labels).value; !(i.Csr? && i.csr == 0x304)
  {
    hide Immediate, Offset, CsrOperand, CsrMeant, CsrAt, NamesCsr;
    if s.SCsr? {
      CsrOperandMeans(s.csr, macros);
      MieNumber(CsrOperand(s.csr, macros).value);
    }
  }

  lemma SourceWordIsNotMie(s: Source, pc: Word, macros: Macros, labels: Labels)
    requires EncodeSource(s, pc, macros, labels).Ok? && !NamesMie(s, macros)
    ensures !WritesMie(EncodeSource(s, pc, macros, labels).value)
  {
    hide Lower, Encode, NamesMie, WritesMie;
    LoweredMie(s, pc, macros, labels);
    var i := Lower(s, pc, macros, labels).value;
    if WritesMie(Encode(i).value) { EncodedMie(i); }
  }

  /** An image whose source never names `mie` holds no word that accesses it. */
  lemma SourceWithoutMie(lines: seq<SourceLine>, macros: Macros, labels: Labels, depth: nat, words: seq<Word>)
    requires ImageIsRight(lines, macros, labels, depth, words)
    requires forall k :: 0 <= k < |Bodies(lines)| ==> !NamesMie(Bodies(lines)[k], macros)
    ensures NoMieWords(RomOf(words))
  {
    hide WritesMie, EncodeSource, NamesMie, Bodies, Address, Nat;
    FillerIsNoCsr();
    forall i: Word
      ensures !WritesMie(RomOf(words)(i))
    {
      var k := Nat(i);
      if k < |Bodies(lines)| { SourceWordIsNotMie(Bodies(lines)[k], Address(k), macros, labels); }
    }
  }

  /** Run without interrupts from `m`, whatever the free-running CSRs and the peripherals show, the source program stays
      at aligned addresses inside its memory. */
  ghost predicate AlwaysInside(lines: seq<SourceLine>, macros: Macros, labels: Labels, depth: nat, m: Arch) {
    forall ls: seq<Label> :: NoInterrupts(ls) ==> StaysInside(lines, macros, labels, depth, m, ls)
  }

  /** The image of a program that assembles. */
  ghost function ImageOf(lines: seq<SourceLine>, macros: Macros, labels: Labels, depth: nat): seq<Word>
    requires Assembles(lines, macros, labels, depth)
  {
    seq(depth, i requires 0 <= i < depth =>
      if i < |Bodies(lines)| then EncodeSource(Bodies(lines)[i], Address(i), macros, labels).value else NOP_WORD)
  }

  /** It is what the two passes return, and nothing else is. */
  lemma ImageIsUnique(lines: seq<SourceLine>, macros: Macros, labels: Labels, depth: nat, words: seq<Word>)
    requires Assembles(lines, macros, labels, depth)
    ensures ImageIsRight(lines, macros, labels, depth, words) <==> words == ImageOf(lines, macros, labels, depth)
  {
    hide EncodeSource;
    if ImageIsRight(lines, macros, labels, depth, words) {
      assert words == ImageOf(lines, macros, labels, depth);
    }
  }

  /** Compiler correctness down to the registers and the buses, with conditions on the source program alone: if it
      assembles, never names `mie` in a CSR instruction and stays inside its memory, its image runs on the pipelined
      core, under any pattern of wait states, as it is written: no interrupt is taken, the architectural state is that
      of the source run, and memory, peripherals and the free-running CSRs see exactly its accesses, in its order. */
  lemma ProgramRunsAsWritten(cfg: Config, lines: seq<SourceLine>, macros: Macros, labels: Labels, depth: nat,
                             ram: Ram, ins: seq<Inputs>)
    requires cfg.Valid() && !cfg.cached && depth <= 0x4000_0000
    requires Assembles(lines, macros, labels, depth)
    requires forall k :: 0 <= k < |Bodies(lines)| ==> !NamesMie(Bodies(lines)[k], macros)
    requires AlwaysInside(lines, macros, labels, depth, Abs(Board(RESET, ram)))
    ensures var y, rom := Board(RESET, ram), RomOf(ImageOf(lines, macros, labels, depth));
      var ls := LabelsOf(cfg, rom, y, ins);
      && NoInterrupts(ls)
      && Abs(Run(cfg, rom, y, ins)) == SourceRun(lines, macros, labels, Abs(y), ls)
      && AccessLog(cfg, rom, y, ins) == SourceLog(lines, macros, labels, Abs(y), ls)
  {
    hide Abs, NeverEnables, ImageIsRight, StaysInside, RomOf, LabelsOf, NoMieWords, NamesMie, Assembles, SourceRun, Run;
    hide AccessLog, ImageOf, SourceLog, NoInterrupts, ApplyAll, AllAccesses;
    var words := ImageOf(lines, macros, labels, depth);
    ImageIsUnique(lines, macros, labels, depth, words);
    SourceWithoutMie(lines, macros, labels, depth, words);
    QuietProgramRefines(cfg, RomOf(words), ram, ins);
    var m := Abs(Board(RESET, ram));
    RunCompiled(lines, macros, labels, depth, words, m, LabelsOf(cfg, RomOf(words), Board(RESET, ram), ins));
  }

  /** How many instructions the steps of a run complete. */
  function Completed(ls: seq<Label>): nat
    decreases ls
  {
    if ls == [] then 0 else (if ls[0].Retired? then 1 else 0) + Completed(ls[1..])
  }

  /** In a run of a program that never enables interrupts no interrupt is ever due, and what retires is what the labels
      say. */
  lemma {:induction false} QuietRunCounts(cfg: Config, rom: Rom, y: Board, ins: seq<Inputs>)
    requires cfg.Valid() && !cfg.cached && Inv(cfg, rom, y.core) && NeverEnables(rom, Abs(y))
    ensures Progress.Undisturbed(cfg, rom, y, ins)
    ensures Progress.Retirements(cfg, rom, y, ins) == Completed(LabelsOf(cfg, rom, y, ins))
    decreases ins
  {
    hide Abs, Inv, Cycle, Apply, EffectOf, PinsOf, NeverEnables, IrqFires, IdAccepts, Flushes, CanFetch, Retires;
    hide IrqCause;
    if ins != [] {
      NeverEnablesNext(rom, Abs(y), Quiet);
      MieOffMeansNoIrq(y);
      assert SmoothCycle(cfg, rom, y, ins[0]);
      var l, y' := CycleLabel(rom, y, ins[0]), Cycle(cfg, rom, y, ins[0]);
      StepOfRun(cfg, rom, y, ins[0]);
      NeverEnablesNext(rom, Abs(y), l);
      QuietRunCounts(cfg, rom, y', ins[1..]);
      var ls := LabelsOf(cfg, rom, y, ins);
      assert ls[0] == l && ls[1..] == LabelsOf(cfg, rom, y', ins[1..]);
    }
  }

  lemma Quotient(n: nat, c: nat, r: nat)
    requires c > 0 && n < c + c * r
    ensures n / c <= r
  {
    assert n < c * (r + 1);
    assert c * (n / c) < c * (r + 1);
  }

  /** And it gets on: if neither memory is silent for more than `k` cycles in a row, `n` cycles complete at least
      n / (6(k + 1)) of its instructions. */
  lemma ProgramGetsOn(cfg: Config, lines: seq<SourceLine>, macros: Macros, labels: Labels, depth: nat, ram: Ram,
                      ins: seq<Inputs>, k: nat)
    requires cfg.Valid() && !cfg.cached
    requires Assembles(lines, macros, labels, depth)
    requires forall k :: 0 <= k < |Bodies(lines)| ==> !NamesMie(Bodies(lines)[k], macros)
    requires Progress.Answering(ins, k, 0, 0)
    ensures Completed(LabelsOf(cfg, RomOf(ImageOf(lines, macros, labels, depth)), Board(RESET, ram), ins))
            >= |ins| / (6 * (k + 1))
  {
    hide Abs, NeverEnables, Inv, RomOf, LabelsOf, NoMieWords, NamesMie, Assembles, Run, ImageOf, ImageIsRight;
    hide SmoothRun, Progress.Answering, Progress.Prompt, Progress.Undisturbed, Progress.Retirements, Progress.Budget;
    hide Completed, AccessLog, ApplyAll, AllAccesses, NoInterrupts;
    var words := ImageOf(lines, macros, labels, depth);
    var y, rom := Board(RESET, ram), RomOf(words);
    ImageIsUnique(lines, macros, labels, depth, words);
    SourceWithoutMie(lines, macros, labels, depth, words);
    QuietProgramRefines(cfg, rom, ram, ins);
    InvInit(cfg, rom);
    PlainRunIsSmooth(cfg, rom, y, ins);
    QuietRunCounts(cfg, rom, y, ins);
    Progress.AnsweringIsPrompt(cfg, rom, y, ins, k, 0, 0, 0);
    Progress.Throughput(cfg, rom, y, ins, k, 0);
    Progress.BudgetBounds(RESET, k, 0);
    Quotient(|ins|, 6 * (k + 1), Progress.Retirements(cfg, rom, y, ins));
  }

  // ---- CSR names ----

  /** Every CSR the assembler has a name for exists in the core, except MSCRATCH: it reads as zero and ignores
      writes. */
  lemma NamedCsrExistsIff(name: string)
    requires CsrNumber(name).Some?
    ensures CsrAt(CsrNumber(name).value) == NoCsr <==> name == "MSCRATCH"
  {
  }

  lemma MissingCsr(csrs: Csrs, mip: Word, mtime: Word, v: Word)
    ensures CsrRead(csrs, mip, mtime, NoCsr) == 0 && CsrWrite(csrs, NoCsr, v) == csrs
  {
  }

  // ---- %hi and %lo ----

  lemma HiInRange(addr: Word)
    ensures InRange(HiPart(addr), 0, 0xf_ffff)
  {
  }

  lemma LoInRange(addr: Word)
    ensures InRange(LoPart(addr), 0xffff_f800, 0x7ff)
  {
  }

  lemma HiPlusLow(addr: Word)
    requires addr & 0xfff < 0x800
    ensures (((addr + 0x800) >> 12) << 12) + (addr & 0xfff) == addr
  {
  }

  lemma HiPlusHigh(addr: Word)
    requires addr & 0xfff >= 0x800
    ensures (((addr + 0x800) >> 12) << 12) + ((addr & 0xfff) - 0x1000) == addr
  {
  }

  lemma HiPlusLo(addr: Word)
    ensures Sum(HiPart(addr) << 12, LoPart(addr)) == addr
  {
    if addr & 0xfff >= 0x800 { HiPlusHigh(addr); } else { HiPlusLow(addr); }
  }

  /** LUI with `%hi` and ADDI with `%lo` of the same label pass their range checks and leave exactly the label's
      address in the register, for every 32-bit address. */
  lemma HiLoLoadsAddress(addr: Word, rd: RegId, m: Arch, env: Env, env': Env)
    requires rd != 0
    ensures Encode(Lui(rd, HiPart(addr))).Ok? && Encode(Addi(rd, rd, LoPart(addr))).Ok?
    ensures var w1, w2 := Encode(Lui(rd, HiPart(addr))).value, Encode(Addi(rd, rd, LoPart(addr))).value;
      Read(StepWord(w2, StepWord(w1, m, env), env').regs, rd) == addr
  {
    hide HiPart, LoPart, InRange, PackI, PackU, StepWord, Read, Write, Next, Sum;
    HiInRange(addr);
    LoInRange(addr);
    var i1, i2 := Lui(rd, HiPart(addr)), Addi(rd, rd, LoPart(addr));
    EncodedMeans(i1, m, env);
    var m1 := IsaStep(i1, m, env);
    EncodedMeans(i2, m1, env');
    ReadAfterWrite(m.regs, true, rd, HiPart(addr) << 12, rd);
    ReadAfterWrite(m1.regs, true, rd, Sum(HiPart(addr) << 12, LoPart(addr)), rd);
    HiPlusLo(addr);
  }
}
