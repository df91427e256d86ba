/** How a LIN node is set up, and what its commands do. */
module LinSetup {
  import opened Uart
  import opened LinSlave
  import opened LinHeader
  import opened LinMaster

  /** Nothing is being sent, received or due, and the line is high. */
  predicate Resting(u: State) {
    && u == State(u.control, RESET.tx, RESET.rx, u.lin) && u.control.enable
    && u.lin.brk == RESET.lin.brk && u.lin.header == RESET.lin.header && !u.lin.gate.pending
  }

  /** A resting node only takes what the bus writes. */
  lemma RestingStep(u: State, bus: Bus)
    requires Resting(u) && !bus.WriteData?
    ensures Sized(u) && Step(u, bus, true) == BusStage(u, u, bus)
  {
    hide Ones, NewFrame, Clean, FlagFull, GateBlocks, GateCommand, BreakCommand;
  }

  /** The register writes that set a slave up and arm it. */
  function SlaveSetup(c: Control, length: nat, id: Byte, s: SlaveConfig): seq<Bus> {
    [WriteControl(c.enable, c.parity, c.odd, c.twoStop, c.lin), WriteBaud(c.baudDiv), WriteBreakLength(length),
     WriteHeaderId(id), WriteSlave(s), LinCommand(false, false, false, true, false)]
  }

  function SlaveLin(length: nat, id: Byte, s: SlaveConfig, armed: bool): Lin {
    Lin(if length == 0 then 13 else length, id, s, Gate(armed, false, 0, false), RESET.lin.brk, RESET.lin.header)
  }

  function Inputs(writes: seq<Bus>): (ins: seq<Input>)
    ensures |ins| == |writes| && forall k :: 0 <= k < |ins| ==> ins[k] == Input(writes[k], true)
  {
    seq(|writes|, k requires 0 <= k < |writes| => Input(writes[k], true))
  }

  lemma OneWrite(u: State, writes: seq<Bus>, v: State)
    requires Resting(u) && writes != [] && !writes[0].WriteData? && v == BusStage(u, u, writes[0])
    ensures Sized(u) && Sized(v) && Run(u, Inputs(writes)) == Run(v, Inputs(writes[1..]))
  {
    hide Step, Sized;
    RestingStep(u, writes[0]);
    StepSized(u, writes[0], true);
    assert Inputs(writes)[1..] == Inputs(writes[1..]);
  }

  /** A node at rest. */
  function Node(c: Control, l: Lin): State { State(c, RESET.tx, RESET.rx, l) }

  lemma NodeRests(c: Control, l: Lin)
    requires c.enable && l.brk == RESET.lin.brk && l.header == RESET.lin.header && !l.gate.pending
    ensures Resting(Node(c, l)) && Sized(Node(c, l))
  {
    hide Ones;
  }

  lemma SettingWrites(c: Control, l: Lin, x: Control, length: nat, id: Byte)
    requires Sized(Node(c, l)) && x.baudDiv == c.baudDiv
    ensures var u := Node(c, l);
      && BusStage(u, u, WriteControl(x.enable, x.parity, x.odd, x.twoStop, x.lin)) == Node(x, l)
      && BusStage(u, u, WriteBaud(length)) == Node(c.(baudDiv := length), l)
      && BusStage(u, u, WriteBreakLength(length)) == Node(c, l.(breakLength := if length == 0 then 13 else length))
      && BusStage(u, u, WriteHeaderId(id)) == Node(c, l.(headerId := id))
  {
    hide Ones;
  }

  lemma SlaveWrites(c: Control, l: Lin, s: SlaveConfig)
    requires Sized(Node(c, l)) && l.gate == Gate(false, false, 0, false)
    ensures var u := Node(c, l);
      && BusStage(u, u, WriteSlave(s)) == Node(c, l.(slave := s))
      && BusStage(u, u, LinCommand(false, false, false, true, false)) ==
         Node(c, l.(gate := Gate(l.slave.enable && l.slave.length != 0, false, 0, false)))
  {
    hide Ones;
  }

  lemma ResetIsNode()
    ensures RESET == Node(RESET.control, RESET.lin)
  {
    hide Ones;
  }

  lemma SettingsAreReached(c: Control, length: nat, id: Byte, s: SlaveConfig)
    requires c.enable
    ensures Sized(RESET) && Sized(Node(c, SlaveLin(length, id, RESET.lin.slave, false)))
    ensures Run(RESET, Inputs(SlaveSetup(c, length, id, s))) ==
      Run(Node(c, SlaveLin(length, id, RESET.lin.slave, false)), Inputs(SlaveSetup(c, length, id, s)[4..]))
  {
    hide Step, Run, Ones, Node, BusStage, Sized, Resting, Inputs;
    var w, c0, l0 := SlaveSetup(c, length, id, s), RESET.control, RESET.lin;
    var c1 := c.(baudDiv := c0.baudDiv);
    var l1 := l0.(breakLength := if length == 0 then 13 else length);
    var l2 := l1.(headerId := id);
    ResetIsNode();
    NodeRests(c0, l0); NodeRests(c1, l0); NodeRests(c, l0); NodeRests(c, l1); NodeRests(c, l2);
    SettingWrites(c0, l0, c1, 0, id);
    SettingWrites(c1, l0, c1, c.baudDiv, id);
    SettingWrites(c, l0, c, length, id);
    SettingWrites(c, l1, c, length, id);
    OneWrite(RESET, w, Node(c1, l0));
    OneWrite(Node(c1, l0), w[1..], Node(c, l0));
    OneWrite(Node(c, l0), w[2..], Node(c, l1));
    OneWrite(Node(c, l1), w[3..], Node(c, l2));
    assert w[1..][1..] == w[2..] && w[2..][1..] == w[3..] && w[3..][1..] == w[4..];
  }

  lemma ArmedNodeListens(c: Control, l: Lin)
    requires c.enable && l.brk == RESET.lin.brk && l.header == RESET.lin.header && !l.gate.pending
    requires l.gate.armed ==> l.slave.enable
    ensures var u := Node(c, l);
      && Ready(u, 0) && u.rx.sync1 && u.rx.sync2 && GateOk(u.lin)
      && (c.lin && 1 <= l.breakLength <= 0xFFFF ==> Tuned(u))
  {
    hide Ones;
  }

  /** From reset they lead to a node with these settings, armed exactly if the slave is enabled and has a response
      to give, listening for a header. */
  lemma SlaveIsReached(c: Control, length: nat, id: Byte, s: SlaveConfig)
    requires c.enable
    ensures Sized(RESET)
    ensures var u := Run(RESET, Inputs(SlaveSetup(c, length, id, s)));
      && u == Node(c, SlaveLin(length, id, s, s.enable && s.length != 0))
      && Ready(u, 0) && u.rx.sync1 && u.rx.sync2 && GateOk(u.lin) && (c.lin && length <= 0xFFFF ==> Tuned(u))
  {
    hide Step, Run, Ones, Node, BusStage, Sized, Resting, Inputs, Ready, Tuned, GateOk;
    var w := SlaveSetup(c, length, id, s);
    SettingsAreReached(c, length, id, s);
    var l4 := SlaveLin(length, id, RESET.lin.slave, false);
    var l5 := l4.(slave := s);
    var l6 := SlaveLin(length, id, s, s.enable && s.length != 0);
    NodeRests(c, l4); NodeRests(c, l5); NodeRests(c, l6);
    SlaveWrites(c, l4, s);
    SlaveWrites(c, l5, s);
    OneWrite(Node(c, l4), w[4..], Node(c, l5));
    OneWrite(Node(c, l5), w[5..], Node(c, l6));
    assert w[4..][1..] == w[5..] && w[5..][1..] == [];
    NothingWritten(Node(c, l6));
    ArmedNodeListens(c, l6);
  }

  lemma NothingWritten(u: State)
    requires Sized(u)
    ensures Run(u, Inputs([])) == u
  {
  }

  // ---- commands ----

  lemma OthersKeepArmed(u: State, n: State)
    requires Sized(u) && !HeaderArrives(u)
    ensures TxStage(u, BreakStage(u, n)).lin.gate.armed == n.lin.gate.armed
    ensures RxStage(u, n).lin.gate.armed == DetectStage(u, n).lin.gate.armed == n.lin.gate.armed
  {
    hide BreakStage, TxStage, RxStage, DetectStage, HeaderArrives, TakesByte, RunsDry;
    OtherGate(u, n);
    TxGate(u, BreakStage(u, n));
    RxGate(u, n);
  }

  /** The gate is armed by the arm command, if the slave is enabled and has a response to give, stays armed until
      cancelled, disabled or armed anew without one, and is disarmed by the header it waits for. */
  lemma ArmedIff(u: State, bus: Bus, pin: bool)
    requires Sized(u)
    ensures Step(u, bus, pin).lin.gate.armed <==>
      && !HeaderArrives(u)
      && !(bus.LinCommand? && bus.cancelSlave) && !(bus.WriteSlave? && !bus.slave.enable)
      && (if bus.LinCommand? && bus.armSlave then u.lin.slave.enable && u.lin.slave.length != 0 else u.lin.gate.armed)
  {
    hide BreakStage, TxStage, RxStage, DetectStage, HeaderArrives;
    StepSized(u, bus, pin);
    var n0 := u.(rx := u.rx.(sync1 := pin, sync2 := u.rx.sync1));
    BusArmed(u, n0, bus);
    var n1 := BusStage(u, n0, bus);
    var n3 := TxStage(u, BreakStage(u, n1));
    if HeaderArrives(u) {
      HeaderStartsResponse(u, bus, pin);
    } else {
      OthersKeepArmed(u, n1);
      OthersKeepArmed(u, n3);
      OthersKeepArmed(u, RxStage(u, n3));
    }
  }

  lemma BusArmed(u: State, n: State, bus: Bus)
    requires Sized(u) && n.lin.gate == u.lin.gate
    ensures BusStage(u, n, bus).lin.gate.armed <==>
      && !(bus.LinCommand? && bus.cancelSlave) && !(bus.WriteSlave? && !bus.slave.enable)
      && (if bus.LinCommand? && bus.armSlave then u.lin.slave.enable && u.lin.slave.length != 0 else u.lin.gate.armed)
  {
    hide FlagFull;
  }

  /** A response begins only in the cycle that samples the last bit of an error-free frame, as the second byte of a
      header, that carries the identifier an armed, enabled slave waits for. */
  lemma OnlyItsIdentifierIsAnswered(u: State, bus: Bus, pin: bool)
    requires Sized(u) && GateOk(u.lin) && !u.lin.gate.pending && Step(u, bus, pin).lin.gate.pending
    ensures u.control.enable && u.control.lin && u.lin.gate.armed && u.lin.slave.enable && u.lin.slave.length > 0
    ensures u.lin.header.state != 0 && u.lin.header.state != 1 && u.rx.busy && u.rx.index + 1 == u.rx.frame.total
    ensures u.rx.frame.data == u.lin.slave.matchId && !u.rx.frame.startError && !u.rx.frame.stopError
    ensures Step(u, bus, pin).lin.gate.remaining == u.lin.slave.length
  {
    hide BusStage, BreakStage, TxStage, RxStage, DetectStage, TakesByte, RunsDry, ParityMatches;
    var n0 := u.(rx := u.rx.(sync1 := pin, sync2 := u.rx.sync1));
    BusNeverAnswers(u, n0, bus);
    var n1 := BusStage(u, n0, bus);
    OtherGate(u, n1);
    TxGate(u, BreakStage(u, n1));
    TakesNeedsByte(u);
    var n3 := TxStage(u, BreakStage(u, n1));
    RxGate(u, n3);
    OtherGate(u, RxStage(u, n3));
  }

  lemma BusNeverAnswers(u: State, n: State, bus: Bus)
    requires Sized(u) && n.lin.gate == u.lin.gate && !u.lin.gate.pending
    ensures !BusStage(u, n, bus).lin.gate.pending
  {
    hide FlagFull;
  }

  /** Clearing the underflow flag clears it, and arming for a header by command makes the receiver wait for one. */
  lemma OtherCommands(u: State)
    requires Resting(u)
    ensures Sized(u)
    ensures Step(u, ClearUnderflow, true) == u.(lin := u.lin.(gate := u.lin.gate.(underflow := false)))
    ensures Step(u, LinCommand(false, true, false, false, false), true) ==
      u.(lin := u.lin.(header := Header(1, true, 0, 0)))
  {
    hide Step, Ones;
    RestingStep(u, ClearUnderflow);
    RestingStep(u, LinCommand(false, true, false, false, false));
  }

  /** Whatever its state, a UART told to wait for a header empties its receive FIFO, unless a received byte arrives
      in the same cycle. */
  lemma ArmingEmpties(u: State, bus: Bus, pin: bool)
    requires Sized(u) && bus.LinCommand? && bus.armHeader && (!u.rx.busy || u.rx.counter < u.control.baudDiv)
    ensures Step(u, bus, pin).rx.fifo.IsEmpty()
  {
    hide BreakStage, TxStage, GateCommand, BreakCommand, Sample, NewFrame;
    var n0 := u.(rx := u.rx.(sync1 := pin, sync2 := u.rx.sync1));
    var n1 := BusStage(u, n0, bus);
    SparesBreak(u, n1, NoAccess);
    FrontSpares(u, n1, NoAccess);
    FrontSpares(u, BreakStage(u, n1), NoAccess);
  }

  /** A disabled UART drives its line high, sends nothing and receives nothing. */
  lemma DisabledRests(u: State, bus: Bus, pin: bool)
    requires Sized(u) && !u.control.enable
    ensures var v := Step(u, bus, pin);
      v.tx.line && v.tx.bits == 0 && !v.rx.busy && v.rx.index == 0 && v.lin.header.lowTick == 0
  {
    hide GateCommand, BreakCommand, FlagFull;
  }

  // ---- the master's header ----

  /** A resting master told to send a break, or a whole header, starts the break two cycles later. */
  lemma BreakIsStarted(u: State, whole: bool)
    requires Resting(u) && u.control.lin
    ensures Sized(u)
    ensures var v := Step(u, LinCommand(!whole, false, whole, false, false), true);
      && v == u.(lin := u.lin.(brk := Break(true, false, 0, 0, whole, 0))) && Sized(v) && Starts(v)
      && Step(v, NoAccess, true) == u.(lin := u.lin.(brk := Break(false, true, 0, 0, whole, 0)))
  {
    var bus := LinCommand(!whole, false, whole, false, false);
    RestingStep(u, bus);
    hide Ones, NewFrame, Clean, FlagFull;
  }

  lemma SyncByte()
    ensures forall i :: 0 <= i < 8 ==> SYNC[i] == (i % 2 == 0)
  {
  }

  lemma BreakHandsOver(u: State, n: State)
    requires Sized(u) && u.control.enable && u.lin.brk.active && Last(u) && n.lin.brk == u.lin.brk
    ensures var b := TxStage(u, n).lin.brk;
      b.autoState == (if u.lin.brk.autoPending then 1 else u.lin.brk.autoState) && !b.autoPending && !b.pending
  {
  }

  lemma SparesBreak(u: State, n: State, bus: Bus)
    requires Sized(u) && Spares(bus)
    ensures BusStage(u, n, bus).lin == n.lin && BusStage(u, n, bus).tx == n.tx.(fifo := BusStage(u, n, bus).tx.fifo)
    ensures RxStage(u, n).lin.brk == DetectStage(u, n).lin.brk == n.lin.brk
    ensures RxStage(u, n).tx == DetectStage(u, n).tx == n.tx
  {
    hide FlagFull, Clean, HeaderMatches, Sample, NewFrame;
  }

  /** The cycle that ends the break of a whole header makes the sync byte due. */
  lemma HeaderFollowsBreak(u: State, bus: Bus, pin: bool)
    requires Sized(u) && Spares(bus) && u.control.enable && u.lin.brk.active && Last(u)
    ensures var b := Step(u, bus, pin).lin.brk;
      b.autoState == (if u.lin.brk.autoPending then 1 else u.lin.brk.autoState) && !b.autoPending && !b.pending
  {
    hide BusStage, BreakStage, TxStage, RxStage, DetectStage, Last;
    var n0 := u.(rx := u.rx.(sync1 := pin, sync2 := u.rx.sync1));
    SparesBreak(u, n0, bus);
    var n1 := BusStage(u, n0, bus);
    StartBreak(u, n1);
    BreakHandsOver(u, n1);
    SparesBreak(u, TxStage(u, n1), bus);
    SparesBreak(u, RxStage(u, TxStage(u, n1)), bus);
  }

  lemma HeaderLoads(u: State, n: State)
    requires Sized(u) && u.control.enable && !u.lin.brk.active && u.tx.bits == 0
    requires u.lin.brk.autoState == 1 || u.lin.brk.autoState == 2
    ensures var v, b := TxStage(u, n), if u.lin.brk.autoState == 1 then SYNC else u.lin.headerId;
      && v.tx.shift == BuildFrame(b, u.control.parity, u.control.odd) && v.tx.counter == 0
      && v.tx.bits == FrameBits(u.control.parity, u.control.twoStop)
      && v.lin.brk.autoState == if u.lin.brk.autoState == 1 then 2 else 0
  {
    hide BuildFrame, FrameBits;
  }

  /** With the transmitter free the sync byte, 1-0-1-0-1-0-1-0 from the lowest bit, is loaded, and then the
      identifier. */
  lemma HeaderIsLoaded(u: State, bus: Bus, pin: bool)
    requires Sized(u) && Spares(bus) && u.control.enable && !u.lin.brk.active && !u.lin.brk.pending && u.tx.bits == 0
    requires u.lin.brk.autoState == 1 || u.lin.brk.autoState == 2
    ensures var v, b := Step(u, bus, pin), if u.lin.brk.autoState == 1 then SYNC else u.lin.headerId;
      && v.tx.shift == BuildFrame(b, u.control.parity, u.control.odd) && v.tx.counter == 0
      && v.tx.bits == FrameBits(u.control.parity, u.control.twoStop)
      && v.lin.brk.autoState == if u.lin.brk.autoState == 1 then 2 else 0
    ensures forall i :: 0 <= i < 8 ==> SYNC[i] == (i % 2 == 0)
  {
    hide BusStage, BreakStage, TxStage, RxStage, DetectStage, BuildFrame, FrameBits;
    SyncByte();
    var n0 := u.(rx := u.rx.(sync1 := pin, sync2 := u.rx.sync1));
    SparesBreak(u, n0, bus);
    var n1 := BusStage(u, n0, bus);
    assert !Starts(u);
    StartBreak(u, n1);
    HeaderLoads(u, n1);
    SparesBreak(u, TxStage(u, n1), bus);
    SparesBreak(u, RxStage(u, TxStage(u, n1)), bus);
  }

  /** How long a frame is: start bit, eight data bits, the parity bit if there is one, and one or two stop bits. */
  lemma FrameLength(c: Control)
    ensures FrameBits(c.parity, c.twoStop) == 1 + 8 + (if c.parity then 1 else 0) + (if c.twoStop then 2 else 1)
  {
  }
}
