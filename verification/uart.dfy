/** The UART with its LIN extensions: registers, and one clock edge.

    A byte is its eight bits, least significant first. The stages of an edge follow the order of the
    clocked block; each reads the registers before the edge (`u`) and assigns the new ones (`n`), so a
    later assignment wins. Status and interrupt flags, the idle-gap detector and the RS-485 pins steer
    nothing here and are left out. */
module Uart {
  import opened Rings

  const DEPTH := 8
  const MAX_FRAME := 12

  type Byte = b: seq<bool> | |b| == 8 witness seq(8, _ => false)

  datatype Control = Control(enable: bool, parity: bool, odd: bool, twoStop: bool, lin: bool, baudDiv: nat)

  datatype SlaveConfig = SlaveConfig(enable: bool, matchId: Byte, length: nat)

  datatype Tx = Tx(fifo: Ring<Byte>, line: bool, shift: seq<bool>, bits: nat, counter: nat)

  datatype Rx = Rx(fifo: Ring<Byte>, sync1: bool, sync2: bool, busy: bool, counter: nat, index: nat, frame: Latch)

  /** The frame being received: the settings it started with, and what has been sampled of it. */
  datatype Latch = Latch(total: nat, parity: bool, odd: bool, data: Byte, parityBit: bool, stopError: bool,
      startError: bool)

  /** The slave response gate. */
  datatype Gate = Gate(armed: bool, pending: bool, remaining: nat, underflow: bool)

  /** Sending a break, and the header that may follow it. */
  datatype Break = Break(pending: bool, active: bool, counter: nat, tick: nat, autoPending: bool, autoState: nat)

  /** Recognising a header on the receive line. */
  datatype Header = Header(state: nat, waitDelimiter: bool, lowCounter: nat, lowTick: nat)

  datatype Lin = Lin(breakLength: nat, headerId: Byte, slave: SlaveConfig, gate: Gate, brk: Break, header: Header)

  datatype State = State(control: Control, tx: Tx, rx: Rx, lin: Lin)

  /** What the bus writes or reads in a cycle. */
  datatype Bus =
    | NoAccess
    | WriteData(data: Byte)
    | ReadData
    | WriteControl(enable: bool, parity: bool, odd: bool, twoStop: bool, lin: bool)
    | WriteBaud(divider: nat)
    | ClearUnderflow
    | WriteBreakLength(length: nat)
    | LinCommand(sendBreak: bool, armHeader: bool, autoHeader: bool, armSlave: bool, cancelSlave: bool)
    | WriteHeaderId(id: Byte)
    | WriteSlave(slave: SlaveConfig)

  const ZERO: Byte := [false, false, false, false, false, false, false, false]

  function Ones(n: nat): seq<bool> { seq(n, _ => true) }

  const SYNC: Byte := [true, false, true, false, true, false, true, false]

  function NoBytes(): seq<Byte> { seq(DEPTH, _ => ZERO) }

  const RESET := State(
    Control(true, false, false, false, false, 434),
    Tx(Ring(NoBytes(), 0, 0), true, Ones(MAX_FRAME), 0, 0),
    Rx(Ring(NoBytes(), 0, 0), true, true, false, 0, 0, Latch(0, false, false, ZERO, false, false, false)),
    Lin(13, ZERO, SlaveConfig(false, ZERO, 0), Gate(false, false, 0, false), Break(false, false, 0, 0, false, 0),
        Header(0, false, 0, 0)))

  // ---- frames ----

  function Parity(b: seq<bool>): bool {
    if b == [] then false else b[0] != Parity(b[1..])
  }

  /** Start bit, data, optional parity bit, and ones. */
  function BuildFrame(b: Byte, parity: bool, odd: bool): (f: seq<bool>)
    ensures |f| == MAX_FRAME
  {
    [false] + b + (if parity then [Parity(b) != odd, true, true] else [true, true, true])
  }

  function FrameBits(parity: bool, twoStop: bool): nat {
    9 + (if parity then 1 else 0) + (if twoStop then 2 else 1)
  }

  predicate ParityMatches(b: Byte, parity: bool, odd: bool, sampled: bool) {
    parity ==> sampled == (Parity(b) != odd)
  }

  // ---- what the parity bit is for ----

  /** How many of the bits are ones. */
  function OnesIn(b: seq<bool>): nat { if b == [] then 0 else (if b[0] then 1 else 0) + OnesIn(b[1..]) }

  lemma {:induction false} ParityCounts(b: seq<bool>)
    ensures Parity(b) <==> OnesIn(b) % 2 == 1
    decreases b
  {
    if b != [] { ParityCounts(b[1..]); }
  }

  lemma {:induction false} OnesAppend(b: seq<bool>, bit: bool)
    ensures OnesIn(b + [bit]) == OnesIn(b) + (if bit then 1 else 0)
    decreases b
  {
    if b == [] {
      assert b + [bit] == [bit];
    } else {
      assert (b + [bit])[1..] == b[1..] + [bit];
      OnesAppend(b[1..], bit);
    }
  }

  /** A frame with parity has an even number of ones among its data bits and the bit behind them, or an odd one if so
      configured. */
  lemma FrameParity(b: Byte, odd: bool)
    ensures OnesIn(BuildFrame(b, true, odd)[1..10]) % 2 == if odd then 1 else 0
  {
    var bit := Parity(b) != odd;
    assert BuildFrame(b, true, odd)[1..10] == b + [bit];
    ParityCounts(b);
    OnesAppend(b, bit);
  }

  /** And exactly such a frame passes the receiver's parity check. */
  lemma ParityAcceptsIff(b: Byte, odd: bool, sampled: bool)
    ensures ParityMatches(b, true, odd, sampled) <==> OnesIn(b + [sampled]) % 2 == if odd then 1 else 0
    ensures ParityMatches(b, false, odd, sampled)
  {
    ParityCounts(b);
    OnesAppend(b, sampled);
  }

  /** The full flag as written: the pointer difference is taken at 32 bits, so it never sees a wrapped full ring. */
  predicate FlagFull(r: Ring<Byte>) { r.tail <= r.head && r.head - r.tail == DEPTH }

  predicate GateBlocks(u: State) { u.lin.slave.enable && u.lin.gate.armed && !u.lin.gate.pending }

  // ---- the stages ----

  function WithGate(n: State, g: Gate): State { n.(lin := n.lin.(gate := g)) }
  function WithBreak(n: State, b: Break): State { n.(lin := n.lin.(brk := b)) }
  function WithHeader(n: State, h: Header): State { n.(lin := n.lin.(header := h)) }

  function BusStage(u: State, n: State, bus: Bus): State
    requires u.tx.fifo.Cap() == DEPTH && u.tx.fifo.head < 2 * DEPTH
  {
    match bus
    case NoAccess => n
    case WriteData(b) => if FlagFull(u.tx.fifo) then n else n.(tx := n.tx.(fifo := u.tx.fifo.Push(b)))
    case ReadData => if u.rx.fifo.IsEmpty() then n else n.(rx := n.rx.(fifo := u.rx.fifo.Pop()))
    case WriteControl(enable, parity, odd, twoStop, lin) =>
      n.(control := Control(enable, parity, odd, twoStop, lin, u.control.baudDiv))
    case WriteBaud(d) => n.(control := n.control.(baudDiv := d))
    case ClearUnderflow => WithGate(n, n.lin.gate.(underflow := false))
    case WriteBreakLength(k) => n.(lin := n.lin.(breakLength := if k == 0 then 13 else k))
    case LinCommand(_, _, _, _, _) => CommandStage(u, n, bus)
    case WriteHeaderId(id) => n.(lin := n.lin.(headerId := id))
    case WriteSlave(cfg) =>
      var g := n.lin.gate;
      WithGate(n.(lin := n.lin.(slave := cfg)),
          if cfg.enable then g else g.(armed := false, pending := false, underflow := false))
  }

  function CommandStage(u: State, n: State, c: Bus): State
    requires c.LinCommand?
  {
    n.(rx := if c.armHeader then n.rx.(fifo := u.rx.fifo.(head := u.rx.fifo.tail)) else n.rx,
       lin := n.lin.(gate := GateCommand(u, n.lin.gate, c), brk := BreakCommand(n.lin.brk, c),
                     header := if c.armHeader then n.lin.header.(state := 1, waitDelimiter := true) else n.lin.header))
  }

  function BreakCommand(b: Break, c: Bus): Break
    requires c.LinCommand?
  {
    var b1 := if c.sendBreak then b.(pending := true) else b;
    if c.autoHeader then b1.(autoPending := true, pending := true) else b1
  }

  function GateCommand(u: State, g: Gate, c: Bus): Gate
    requires c.LinCommand?
  {
    var g1 :=
      if c.armSlave then
        g.(underflow := false, armed := u.lin.slave.enable && u.lin.slave.length != 0, pending := false)
      else g;
    if c.cancelSlave then g1.(armed := false, pending := false, underflow := false) else g1
  }

  function BreakStage(u: State, n: State): State {
    if u.control.lin && !u.lin.brk.active && u.lin.brk.pending && u.control.enable && u.tx.bits == 0
       && (u.tx.fifo.IsEmpty() || GateBlocks(u))
    then WithBreak(n, n.lin.brk.(active := true, pending := false, counter := 0))
    else n
  }

  function SendingBreak(u: State, n: State): State {
    var t := n.tx.(line := false, bits := 0);
    var b := n.lin.brk;
    if u.lin.brk.tick >= u.control.baudDiv then
      if u.lin.brk.counter >= u.lin.breakLength then
        var b' := if u.lin.brk.autoPending then b.(autoState := 1, autoPending := false) else b;
        WithBreak(n.(tx := t.(line := true)), b'.(tick := 0, active := false, counter := 0, pending := false))
      else WithBreak(n.(tx := t), b.(tick := 0, counter := u.lin.brk.counter + 1))
    else WithBreak(n.(tx := t), b.(tick := u.lin.brk.tick + 1))
  }

  /** The transmitter loads the frame of byte `b`. */
  function Loaded(u: State, t: Tx, b: Byte): Tx {
    t.(shift := BuildFrame(b, u.control.parity, u.control.odd),
        bits := FrameBits(u.control.parity, u.control.twoStop), counter := 0)
  }

  /** A byte leaves the transmit FIFO in this cycle. */
  predicate TakesByte(u: State) {
    && u.control.enable && !u.lin.brk.active && u.tx.bits == 0 && u.lin.brk.autoState == 0
    && !u.tx.fifo.IsEmpty() && !GateBlocks(u)
  }

  function TxStage(u: State, n: State): State
    requires u.tx.fifo.Cap() == DEPTH && u.tx.fifo.tail < 2 * DEPTH
  {
    if !u.control.enable then n.(tx := n.tx.(bits := 0, line := true))
    else if u.lin.brk.active then SendingBreak(u, n)
    else if u.tx.bits == 0 then
      if u.lin.brk.autoState != 0 then
        WithBreak(n.(tx := Loaded(u, n.tx, if u.lin.brk.autoState == 1 then SYNC else u.lin.headerId)),
                  n.lin.brk.(autoState := if u.lin.brk.autoState == 1 then 2 else 0))
      else if u.lin.gate.pending && u.tx.fifo.IsEmpty() then
        WithGate(n, n.lin.gate.(pending := false, underflow := true))
      else if TakesByte(u) then
        var g :=
          if !u.lin.gate.pending then n.lin.gate
          else if u.lin.gate.remaining <= 1 then n.lin.gate.(pending := false)
          else n.lin.gate.(remaining := u.lin.gate.remaining - 1);
        WithGate(n.(tx := Loaded(u, n.tx.(fifo := n.tx.fifo.(tail := u.tx.fifo.Forward(u.tx.fifo.tail, 1))),
            u.tx.fifo.Front())), g)
      else n
    else if u.tx.counter >= u.control.baudDiv then
      n.(tx := n.tx.(counter := 0,
        line := if u.tx.shift == [] then true else u.tx.shift[0],
        shift := if u.tx.shift == [] then [] else u.tx.shift[1..] + [true],
        bits := u.tx.bits - 1))
    else n.(tx := n.tx.(counter := u.tx.counter + 1))
  }

  /** The record of a frame as it starts. */
  function NewFrame(c: Control): Latch {
    Latch(FrameBits(c.parity, c.twoStop), c.parity, c.odd, ZERO, false, false, false)
  }

  /** Sampling bit `index` of a frame. */
  function Sample(r: Rx): Latch { SampleBit(r.frame, r.index, r.sync2) }

  function SampleBit(f: Latch, i: nat, bit: bool): Latch {
    if i == 0 then (if bit then f.(startError := true) else f)
    else if i <= 8 then f.(data := f.data[i - 1 := bit])
    else if f.parity && i == 9 then f.(parityBit := bit)
    else if !bit then f.(stopError := true)
    else f
  }

  /** No error has been noted in the frame, and its parity is right. */
  predicate Clean(f: Latch) { !f.startError && !f.stopError && ParityMatches(f.data, f.parity, f.odd, f.parityBit) }

  /** The received byte is delivered to the receive FIFO (rather than dropped, or taken as part of a LIN header). */
  predicate Accepts(u: State) { Clean(u.rx.frame) && !(u.control.lin && u.lin.header.state != 0) }

  /** The last bit of a frame has been sampled. */
  function FinishFrame(u: State, n: State): State
    requires u.rx.fifo.Cap() == DEPTH && u.rx.fifo.head < 2 * DEPTH
  {
    if Accepts(u) then
      if FlagFull(u.rx.fifo) then n
      else n.(rx := n.rx.(fifo := n.rx.fifo.(buf := u.rx.fifo.Push(u.rx.frame.data).buf,
          head := u.rx.fifo.Push(u.rx.frame.data).head)))
    else if !Clean(u.rx.frame) then n
    else if u.lin.header.state == 1 then WithHeader(n, n.lin.header.(state := 2))
    else
      var n1 := WithHeader(n, n.lin.header.(state := 0));
      if HeaderMatches(u) then WithGate(n1, Gate(false, true, u.lin.slave.length, false)) else n1
  }

  predicate HeaderMatches(u: State) {
    u.lin.slave.enable && u.lin.gate.armed && u.lin.slave.length != 0 && u.rx.frame.data == u.lin.slave.matchId
  }

  function RxStage(u: State, n: State): State
    requires u.rx.fifo.Cap() == DEPTH && u.rx.fifo.head < 2 * DEPTH
  {
    if !u.control.enable then n.(rx := n.rx.(busy := false, index := 0))
    else if !u.rx.busy then
      if u.control.lin && u.lin.header.waitDelimiter then
        (if u.rx.sync2 then WithHeader(n, n.lin.header.(waitDelimiter := false)) else n)
      else if !u.rx.sync2 then
        n.(rx := n.rx.(busy := true, counter := u.control.baudDiv / 2, index := 0, frame := NewFrame(u.control)))
      else n
    else if u.rx.counter >= u.control.baudDiv then
      var n1 := n.(rx := n.rx.(counter := 0, index := (u.rx.index + 1) % 32, frame := Sample(u.rx)));
      if u.rx.index + 1 == u.rx.frame.total then FinishFrame(u, n1.(rx := n1.rx.(busy := false))) else n1
    else n.(rx := n.rx.(counter := u.rx.counter + 1))
  }

  /** Break detection on the receive line. */
  function DetectStage(u: State, n: State): State {
    var h := n.lin.header;
    if u.control.lin && u.control.enable && !u.rx.sync2 then
      if u.lin.header.lowTick >= u.control.baudDiv then
        var h' := h.(lowTick := 0,
            lowCounter := if u.lin.header.lowCounter < 0xFFFF then u.lin.header.lowCounter + 1 else h.lowCounter);
        if u.lin.header.lowCounter + 1 >= u.lin.breakLength then
          WithHeader(n.(rx := n.rx.(busy := false, index := 0, counter := 0,
              fifo := n.rx.fifo.(head := u.rx.fifo.tail))),
                     h'.(state := 1, waitDelimiter := true))
        else WithHeader(n, h')
      else WithHeader(n, h.(lowTick := u.lin.header.lowTick + 1))
    else WithHeader(n, h.(lowCounter := 0, lowTick := 0))
  }

  /** Both rings are eight places with pointers in range. */
  predicate Sized(u: State) {
    && u.tx.fifo.Cap() == DEPTH && u.tx.fifo.head < 2 * DEPTH && u.tx.fifo.tail < 2 * DEPTH
    && u.rx.fifo.Cap() == DEPTH && u.rx.fifo.head < 2 * DEPTH && u.rx.fifo.tail < 2 * DEPTH
  }

  /** One clock edge with the receive pin at `rxPin`. */
  function Step(u: State, bus: Bus, rxPin: bool): State
    requires Sized(u)
  {
    var n0 := u.(rx := u.rx.(sync1 := rxPin, sync2 := u.rx.sync1));
    DetectStage(u, RxStage(u, TxStage(u, BreakStage(u, BusStage(u, n0, bus)))))
  }

  // ---- the rings stay in shape ----

  lemma BusSized(u: State, n: State, bus: Bus)
    requires Sized(u) && Sized(n)
    ensures Sized(BusStage(u, n, bus))
  {
  }

  lemma TxSized(u: State, n: State)
    requires Sized(u) && Sized(n)
    ensures Sized(TxStage(u, n))
  {
    hide BuildFrame, FrameBits, GateBlocks;
  }

  lemma FinishSized(u: State, n: State)
    requires Sized(u) && Sized(n)
    ensures Sized(FinishFrame(u, n))
  {
    hide ParityMatches;
  }

  lemma RxSized(u: State, n: State)
    requires Sized(u) && Sized(n)
    ensures Sized(RxStage(u, n))
  {
    hide FinishFrame, FrameBits;
    if u.rx.counter >= u.control.baudDiv {
      var n1 := n.(rx := n.rx.(counter := 0, index := (u.rx.index + 1) % 32, frame := Sample(u.rx)));
      FinishSized(u, n1.(rx := n1.rx.(busy := false)));
    }
  }

  lemma DetectSized(u: State, n: State)
    requires Sized(u) && Sized(n)
    ensures Sized(DetectStage(u, n)) && Sized(BreakStage(u, n))
  {
    hide GateBlocks;
  }

  lemma StepSized(u: State, bus: Bus, rxPin: bool)
    requires Sized(u)
    ensures Sized(Step(u, bus, rxPin))
  {
    hide BusStage, BreakStage, TxStage, RxStage, DetectStage;
    var n0 := u.(rx := u.rx.(sync1 := rxPin, sync2 := u.rx.sync1));
    var n1 := BusStage(u, n0, bus);
    BusSized(u, n0, bus);
    DetectSized(u, n1);
    var n2 := BreakStage(u, n1);
    TxSized(u, n2);
    var n3 := TxStage(u, n2);
    RxSized(u, n3);
    DetectSized(u, RxStage(u, n3));
  }
}
