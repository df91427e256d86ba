/** The assembler: labels, operands, and the program image. */
module Assembler {
  import opened Words
  import opened ExecuteStage
  import opened Isa
  import opened Decoding

  /** An operand as written: a number, a bare name, or the upper or lower part of a label. */
  datatype Operand = Number(value: int) | Name(text: string) | Hi(text: string) | Lo(text: string)

  /** One instruction as written. */
  datatype Source =
    | Nop
    | SAddi(rd: RegId, rs1: RegId, imm: Operand)
    | SArith(op: AluOp, rd: RegId, rs1: RegId, rs2: RegId)
    | SLui(rd: RegId, imm: Operand)
    | SAuipc(rd: RegId, imm: Operand)
    | SLw(rd: RegId, base: RegId, imm: Operand)
    | SSw(src: RegId, base: RegId, imm: Operand)
    | SBranch(cond: Cond, rs1: RegId, rs2: RegId, target: Operand)
    | SJal(rd: RegId, target: Operand)
    | SJalr(rd: RegId, rs1: RegId, imm: Operand)
    | SCsr(kind: CsrKind, rd: RegId, csr: Operand, rs1: RegId)
    | SEcall
    | SMret

  /** A source line: any number of labels, then at most one instruction. */
  datatype SourceLine = SourceLine(labels: seq<string>, body: Option<Source>)

  /** An instruction with the address the first pass gave it. */
  datatype Placed = Placed(src: Source, pc: Word)

  type Macros = map<string, Word>
  type Labels = map<string, Word>

  datatype Parsed = Parsed(insts: seq<Placed>, labels: Labels)

  // ---- where things are ----

  /** The instructions of a program, in order. */
  function Bodies(lines: seq<SourceLine>): seq<Source> {
    if lines == [] then []
    else Bodies(lines[..|lines| - 1]) + (match lines[|lines| - 1].body case None => [] case Some(b) => [b])
  }

  /** The address of the k-th instruction. */
  function Address(k: nat): Word {
    if k == 0 then 0 else Next(Address(k - 1))
  }

  /** Line `k` of the program defines the label as its `j`-th. */
  predicate Defines(lines: seq<SourceLine>, name: string, k: nat, j: nat) {
    k < |lines| && j < |lines[k].labels| && lines[k].labels[j] == name
  }

  /** No label is empty or defined twice. */
  ghost predicate GoodLabels(lines: seq<SourceLine>) {
    && (forall k: nat, j: nat :: !Defines(lines, "", k, j))
    && (forall n: string, k: nat, j: nat, k': nat, j': nat ::
          Defines(lines, n, k, j) && Defines(lines, n, k', j') ==> k == k' && j == j')
  }

  /** The label table holds exactly the defined labels, each at the address of the next instruction. */
  ghost predicate LabelsAreRight(lines: seq<SourceLine>, labels: Labels) {
    && (forall n: string, k: nat, j: nat ::
          Defines(lines, n, k, j) ==> n in labels && labels[n] == Address(|Bodies(lines[..k])|))
    && (forall n :: n in labels ==> exists k: nat, j: nat :: Defines(lines, n, k, j))
  }

  ghost predicate InstsAreRight(lines: seq<SourceLine>, insts: seq<Placed>) {
    && |insts| == |Bodies(lines)|
    && forall i :: 0 <= i < |insts| ==> insts[i] == Placed(Bodies(lines)[i], Address(i))
  }

  /** The names are nonempty, distinct and new. */
  ghost predicate FreshNames(names: seq<string>, table: Labels) {
    && (forall i :: 0 <= i < |names| ==> names[i] != "" && names[i] !in table)
    && (forall i, j :: 0 <= i < j < |names| ==> names[i] != names[j])
  }

  /** `after` is `before` with every name at `pc`. */
  ghost predicate Extends(before: Labels, names: seq<string>, pc: Word, after: Labels) {
    && (forall n :: n in after ==> n in before || n in names)
    && (forall n :: n in before ==> n in after && after[n] == before[n])
    && (forall n :: n in names ==> n in after && after[n] == pc)
  }

  /** The labels of one line. */
  method AddLabels(names: seq<string>, before: Labels, pc: Word) returns (r: Result<Labels>)
    ensures r.Ok? <==> FreshNames(names, before)
    ensures r.Ok? ==> Extends(before, names, pc, r.value)
  {
    var table := before;
    for j := 0 to |names|
      invariant FreshNames(names[..j], before) && Extends(before, names[..j], pc, table)
    {
      assert names[..j + 1] == names[..j] + [names[j]];
      if names[j] == "" { return Err(UnknownLabel("")); }
      if names[j] in table {
        if names[j] in names[..j] { assert exists i :: 0 <= i < j && names[i] == names[j]; }
        return Err(DuplicateLabel(names[j]));
      }
      table := table[names[j] := pc];
    }
    assert names[..|names|] == names;
    return Ok(table);
  }

  /** First pass: place every instruction and record every label, or fail on an empty or repeated label. */
  method ParseLines(lines: seq<SourceLine>) returns (r: Result<Parsed>)
    ensures r.Ok? <==> GoodLabels(lines)
    ensures r.Ok? ==> InstsAreRight(lines, r.value.insts) && LabelsAreRight(lines, r.value.labels)
  {
    hide GoodLabels, LabelsAreRight, FreshNames, Extends, Defines, Bodies, InstsAreRight;
    var insts: seq<Placed> := [];
    var labels: Labels := map[];
    var pc: Word := 0;
    NothingYet(lines);
    for k := 0 to |lines|
      invariant GoodLabels(lines[..k])
      invariant InstsAreRight(lines[..k], insts) && pc == Address(|insts|)
      invariant LabelsAreRight(lines[..k], labels)
    {
      var line := lines[k];
      var added := AddLabels(line.labels, labels, pc);
      if added.Err? {
        Redefined(lines, k, labels);
        return Err(added.error);
      }
      LineAdded(lines, k, insts, labels, added.value, pc);
      BodyAdded(lines, k, insts);
      labels := added.value;
      if line.body.Some? {
        insts := insts + [Placed(line.body.value, pc)];
        pc := Next(pc);
      }
    }
    assert lines[..|lines|] == lines;
    return Ok(Parsed(insts, labels));
  }

  lemma NothingYet(lines: seq<SourceLine>)
    ensures GoodLabels(lines[..0]) && InstsAreRight(lines[..0], []) && LabelsAreRight(lines[..0], map[])
  {
  }

  lemma BodyAdded(lines: seq<SourceLine>, k: nat, insts: seq<Placed>)
    requires k < |lines| && InstsAreRight(lines[..k], insts)
    ensures lines[k].body.None? ==> InstsAreRight(lines[..k + 1], insts)
    ensures lines[k].body.Some? ==> InstsAreRight(lines[..k + 1],
        insts + [Placed(lines[k].body.value, Address(|insts|))])
  {
    hide Address;
    assert lines[..k + 1][..k] == lines[..k];
  }

  lemma Redefined(lines: seq<SourceLine>, k: nat, before: Labels)
    requires k < |lines| && LabelsAreRight(lines[..k], before) && !FreshNames(lines[k].labels, before)
    ensures !GoodLabels(lines)
  {
    hide Address, Bodies;
    var names := lines[k].labels;
    if j: nat :| j < |names| && names[j] == "" {
      assert Defines(lines, "", k, j);
    } else if j: nat :| j < |names| && names[j] in before {
      assert Defines(lines, names[j], k, j);
      var k', j' :| Defines(lines[..k], names[j], k', j');
      assert Defines(lines, names[j], k', j');
    } else {
      var i, j :| 0 <= i < j < |names| && names[i] == names[j];
      assert Defines(lines, names[i], k, i) && Defines(lines, names[i], k, j);
    }
  }

  lemma DefinesNewOrOld(lines: seq<SourceLine>, k: nat, n: string, a: nat, b: nat)
    requires k < |lines| && Defines(lines[..k + 1], n, a, b)
    ensures a < k ==> Defines(lines[..k], n, a, b) && lines[..k + 1][..a] == lines[..k][..a]
    ensures a >= k ==> a == k && n in lines[k].labels && lines[k].labels[b] == n && lines[..k + 1][..a] == lines[..k]
  {
  }

  lemma LineAdded(lines: seq<SourceLine>, k: nat, insts: seq<Placed>, before: Labels, after: Labels, pc: Word)
    requires k < |lines| && GoodLabels(lines[..k]) && LabelsAreRight(lines[..k], before)
    requires InstsAreRight(lines[..k], insts) && pc == Address(|insts|)
    requires FreshNames(lines[k].labels, before) && Extends(before, lines[k].labels, pc, after)
    ensures GoodLabels(lines[..k + 1])
    ensures LabelsAreRight(lines[..k + 1], after)
  {
    GoodAdded(lines, k, before);
    TableAdded(lines, k, insts, before, after, pc);
  }

  lemma GoodAdded(lines: seq<SourceLine>, k: nat, before: Labels)
    requires k < |lines| && GoodLabels(lines[..k]) && LabelsAreRight(lines[..k], before)
    requires FreshNames(lines[k].labels, before)
    ensures GoodLabels(lines[..k + 1])
  {
    hide Address, Bodies;
    var now := lines[..k + 1];
    forall n: string, a: nat, b: nat | Defines(now, n, a, b)
      ensures n != "" && (if a < k then Defines(lines[..k], n, a, b) && n in before
                          else a == k && n !in before && b < |lines[k].labels| && lines[k].labels[b] == n)
    {
      DefinesNewOrOld(lines, k, n, a, b);
    }
    forall n: string, a: nat, b: nat, a': nat, b': nat | Defines(now, n, a, b) && Defines(now, n, a', b')
      ensures a == a' && b == b'
    {
      DefinesNewOrOld(lines, k, n, a, b);
      DefinesNewOrOld(lines, k, n, a', b');
    }
  }

  lemma TableAdded(lines: seq<SourceLine>, k: nat, insts: seq<Placed>, before: Labels, after: Labels, pc: Word)
    requires k < |lines| && LabelsAreRight(lines[..k], before)
    requires InstsAreRight(lines[..k], insts) && pc == Address(|insts|)
    requires Extends(before, lines[k].labels, pc, after)
    ensures LabelsAreRight(lines[..k + 1], after)
  {
    hide Address, Bodies;
    var now := lines[..k + 1];
    forall n: string, a: nat, b: nat | Defines(now, n, a, b)
      ensures n in after && after[n] == Address(|Bodies(now[..a])|)
    {
      DefinesNewOrOld(lines, k, n, a, b);
    }
    forall n | n in after
      ensures exists a: nat, b: nat :: Defines(now, n, a, b)
    {
      if n in before {
        var a, b :| Defines(lines[..k], n, a, b);
        assert Defines(now, n, a, b);
      } else {
        var i :| 0 <= i < |lines[k].labels| && lines[k].labels[i] == n;
        assert Defines(now, n, k, i);
      }
    }
  }

  // ---- operands ----

  /** A signed number as a two's complement word. */
  function WordOf(v: int): Word
    requires -0x8000_0000 <= v < 0x8000_0000
  {
    if v >= 0 then Index(v) else Index(v + 0x1_0000_0000)
  }

  function UpperChar(c: char): char { if 'a' <= c <= 'z' then c - 'a' + 'A' else c }

  function UpperCase(s: string): string { seq(|s|, i requires 0 <= i < |s| => UpperChar(s[i])) }

  predicate IsMacro(macros: Macros, text: string) { UpperCase(text) in macros }

  function HiPart(addr: Word): Word { (addr + 0x800) >> 12 }

  function LoPart(addr: Word): Word {
    var lo := addr & 0xfff;
    if lo >= 0x800 then lo - 0x1000 else lo
  }

  function NumberWord(v: int): Result<Word> {
    var w := if v > 0x7fff_ffff then v - 0x1_0000_0000 else v;
    if -0x8000_0000 <= w < 0x8000_0000 then Ok(WordOf(w)) else Err(OutOfRange)
  }

  function Immediate(o: Operand, macros: Macros, labels: Labels): Result<Word> {
    match o
    case Number(v) => NumberWord(v)
    case Name(n) => if IsMacro(macros, n) then Ok(macros[UpperCase(n)]) else Err(UnknownLabel(n))
    case Hi(l) => if l in labels then Ok(HiPart(labels[l])) else Err(UnknownLabel(l))
    case Lo(l) => if l in labels then Ok(LoPart(labels[l])) else Err(UnknownLabel(l))
  }

  function Difference(a: Word, b: Word): Word { a - b }

  /** A jump operand: a number is an offset, a label becomes its distance from the instruction. */
  function Offset(o: Operand, pc: Word, macros: Macros, labels: Labels): Result<Word> {
    if Immediate(o, macros, labels).Ok? then Immediate(o, macros, labels)
    else if o.Name? && o.text in labels then Ok(Difference(labels[o.text], pc))
    else Immediate(o, macros, labels)
  }

  function CsrNumber(upper: string): Option<Word> {
    if upper == "MSTATUS" then Some(0x300)
    else if upper == "MIE" then Some(0x304)
    else if upper == "MTVEC" then Some(0x305)
    else if upper == "MSCRATCH" then Some(0x340)
    else if upper == "MEPC" then Some(0x341)
    else if upper == "MCAUSE" then Some(0x342)
    else if upper == "MIP" then Some(0x344)
    else if upper == "MTIME" then Some(0x701)
    else if upper == "MTIMECMP" then Some(0x720)
    else if upper == "IRQPRIO" then Some(0xBC0)
    else if upper == "IRQACK" then Some(0xBC1)
    else None
  }

  function CsrOperand(o: Operand, macros: Macros): Result<Word> {
    match o
    case Number(v) => if 0 <= v <= 0xfff then Ok(WordOf(v)) else Err(OutOfRange)
    case Name(n) =>
      if IsMacro(macros, n) then Ok(macros[UpperCase(n)])
      else if CsrNumber(UpperCase(n)).Some? then Ok(CsrNumber(UpperCase(n)).value)
      else Err(UnknownLabel(n))
    case Hi(l) => Err(UnknownLabel(l))
    case Lo(l) => Err(UnknownLabel(l))
  }

  function MapOk(r: Result<Word>, f: Word -> Instr): Result<Instr> {
    match r
    case Ok(v) => Ok(f(v))
    case Err(e) => Err(e)
  }

  /** The machine instruction a written instruction stands for at address `pc`. */
  function Lower(s: Source, pc: Word, macros: Macros, labels: Labels): Result<Instr> {
    match s
    case Nop => Ok(Addi(0, 0, 0))
    case SAddi(rd, rs1, imm) => MapOk(Immediate(imm, macros, labels), v => Addi(rd, rs1, v))
    case SArith(op, rd, rs1, rs2) => Ok(Arith(op, rd, rs1, rs2))
    case SLui(rd, imm) => MapOk(Immediate(imm, macros, labels), v => Lui(rd, v))
    case SAuipc(rd, imm) => MapOk(Immediate(imm, macros, labels), v => Auipc(rd, v))
    case SLw(rd, base, imm) => MapOk(Immediate(imm, macros, labels), v => Lw(rd, base, v))
    case SSw(src, base, imm) => MapOk(Immediate(imm, macros, labels), v => Sw(src, base, v))
    case SBranch(cond, rs1, rs2, target) => MapOk(Offset(target, pc, macros, labels), v => Branch(cond, rs1, rs2, v))
    case SJal(rd, target) => MapOk(Offset(target, pc, macros, labels), v => Jal(rd, v))
    case SJalr(rd, rs1, imm) => MapOk(Immediate(imm, macros, labels), v => Jalr(rd, rs1, v))
    case SCsr(kind, rd, csr, rs1) => MapOk(CsrOperand(csr, macros), v => Csr(kind, rd, v, rs1))
    case SEcall => Ok(Ecall)
    case SMret => Ok(Mret)
  }

  function EncodeSource(s: Source, pc: Word, macros: Macros, labels: Labels): Result<Word> {
    match Lower(s, pc, macros, labels)
    case Ok(i) => Encode(i)
    case Err(e) => Err(e)
  }

  const NOP_WORD: Word := 0x13

  /** The image is right: each instruction's word at its place, NOPs behind. */
  ghost predicate ImageIsRight(lines: seq<SourceLine>, macros: Macros, labels: Labels, depth: nat, words: seq<Word>) {
    && |Bodies(lines)| <= depth == |words|
    && (forall i :: 0 <= i < |Bodies(lines)| ==>
          EncodeSource(Bodies(lines)[i], Address(i), macros, labels) == Ok(words[i]))
    && (forall i :: |Bodies(lines)| <= i < depth ==> words[i] == NOP_WORD)
  }

  ghost predicate Assembles(lines: seq<SourceLine>, macros: Macros, labels: Labels, depth: int) {
    && GoodLabels(lines) && LabelsAreRight(lines, labels)
    && 0 < depth && |Bodies(lines)| <= depth
    && forall i :: 0 <= i < |Bodies(lines)| ==> EncodeSource(Bodies(lines)[i], Address(i), macros, labels).Ok?
  }

  /** Both passes: succeeds exactly when the program assembles, and then yields its image. */
  method Build(lines: seq<SourceLine>, macros: Macros, depth: int) returns (r: Result<seq<Word>>, labels: Labels)
    ensures r.Ok? <==> Assembles(lines, macros, labels, depth)
    ensures r.Ok? ==> ImageIsRight(lines, macros, labels, depth, r.value)
  {
    labels := map[];
    if depth <= 0 { return Err(OutOfRange), labels; }
    var parsed := ParseLines(lines);
    if parsed.Err? { return Err(parsed.error), labels; }
    var insts, table := parsed.value.insts, parsed.value.labels;
    labels := table;
    if |insts| > depth { return Err(TooLong), labels; }
    var words := seq(depth, _ => NOP_WORD);
    for i := 0 to |insts|
      invariant |words| == depth
      invariant forall k :: 0 <= k < i ==> EncodeSource(insts[k].src, insts[k].pc, macros, table) == Ok(words[k])
      invariant forall k :: i <= k < depth ==> words[k] == NOP_WORD
    {
      var encoded := EncodeSource(insts[i].src, insts[i].pc, macros, table);
      if encoded.Err? {
        assert insts[i] == Placed(Bodies(lines)[i], Address(i));
        return Err(encoded.error), labels;
      }
      words := words[i := encoded.value];
    }
    assert forall k :: 0 <= k < |insts| ==> insts[k] == Placed(Bodies(lines)[k], Address(k));
    return Ok(words), labels;
  }
}
