/** The LIN slave gate: bytes wait for a matching header, then exactly the configured number leave. */
module LinSlave {
  import opened Uart

  /** The gate is never armed and responding at once, an armed gate is enabled, and a response still owes a byte. */
  predicate GateOk(l: Lin) {
    && (l.gate.armed ==> l.slave.enable && !l.gate.pending)
    && (l.gate.pending ==> l.gate.remaining >= 1)
  }

  /** The gate is in order out of reset. */
  lemma GateOkAtReset()
    ensures Sized(RESET) && GateOk(RESET.lin)
  {
  }

  /** The gate's registers are the same in both. */
  predicate SameGate(a: Lin, b: Lin) {
    a.gate == b.gate && a.slave == b.slave
  }

  // ---- what each stage does to the gate ----

  lemma CommandGate(u: State, n: State, c: Bus)
    requires c.LinCommand? && GateOk(u.lin) && SameGate(n.lin, u.lin)
    ensures var l := CommandStage(u, n, c).lin; GateOk(l) && l.gate.remaining == u.lin.gate.remaining
  {
  }

  lemma BusGate(u: State, n: State, bus: Bus)
    requires Sized(u) && GateOk(u.lin) && SameGate(n.lin, u.lin)
    ensures var l := BusStage(u, n, bus).lin; GateOk(l) && l.gate.remaining == u.lin.gate.remaining
  {
    hide FlagFull, CommandStage, Sized;
    if bus.LinCommand? { CommandGate(u, n, bus); }
  }

  lemma OtherGate(u: State, n: State)
    ensures SameGate(BreakStage(u, n).lin, n.lin)
    ensures SameGate(DetectStage(u, n).lin, n.lin)
  {
    hide GateBlocks;
    BreakGate(u, n);
  }

  lemma BreakGate(u: State, n: State)
    ensures SameGate(BreakStage(u, n).lin, n.lin)
  {
    hide GateBlocks;
  }

  lemma SendingBreakGate(u: State, n: State)
    ensures SameGate(SendingBreak(u, n).lin, n.lin)
  {
  }

  lemma TxGate(u: State, n: State)
    requires Sized(u)
    ensures var l := TxStage(u, n).lin;
      && l.slave == n.lin.slave
      && l.gate ==
          if TakesByte(u) && u.lin.gate.pending then
            (if u.lin.gate.remaining <= 1 then n.lin.gate.(pending := false)
             else n.lin.gate.(remaining := u.lin.gate.remaining - 1))
          else if RunsDry(u) then n.lin.gate.(pending := false, underflow := true)
          else n.lin.gate
  {
    hide BuildFrame, FrameBits, GateBlocks, Loaded, SendingBreak, Sized;
    SendingBreakGate(u, n);
  }

  /** A response finds the FIFO empty when the transmitter is ready for its next byte. */
  predicate RunsDry(u: State) {
    && u.control.enable && !u.lin.brk.active && u.tx.bits == 0 && u.lin.brk.autoState == 0
    && u.lin.gate.pending && u.tx.fifo.IsEmpty()
  }

  /** The identifier byte of a header completes, error-free, and is the one the armed gate waits for. */
  predicate HeaderArrives(u: State) {
    && u.control.enable && u.control.lin && u.rx.busy && u.rx.counter >= u.control.baudDiv
        && u.rx.index + 1 == u.rx.frame.total
    && Clean(u.rx.frame)
    && u.lin.header.state != 0 && u.lin.header.state != 1 && HeaderMatches(u)
  }

  lemma FinishGate(u: State, n: State)
    requires Sized(u)
    requires u.control.enable && u.rx.busy && u.rx.counter >= u.control.baudDiv && u.rx.index + 1 == u.rx.frame.total
    ensures var l := FinishFrame(u, n).lin;
      if HeaderArrives(u) then l.gate == Gate(false, true, u.lin.slave.length, false) && l.slave == n.lin.slave
      else SameGate(l, n.lin)
  {
    hide ParityMatches;
  }

  lemma RxGate(u: State, n: State)
    requires Sized(u)
    ensures var l := RxStage(u, n).lin;
      if HeaderArrives(u) then l.gate == Gate(false, true, u.lin.slave.length, false) && l.slave == n.lin.slave
      else SameGate(l, n.lin)
  {
    hide FinishFrame, FrameBits, ParityMatches, HeaderMatches, Sample;
    if u.control.enable && u.rx.busy && u.rx.counter >= u.control.baudDiv && u.rx.index + 1 == u.rx.frame.total {
      var n1 := n.(rx := n.rx.(counter := 0, index := (u.rx.index + 1) % 32, frame := Sample(u.rx)));
      FinishGate(u, n1.(rx := n1.rx.(busy := false)));
    }
  }

  // ---- one cycle ----

  /** In every cycle, whatever the bus does, the gate keeps its discipline, and an armed gate lets no byte out. */
  lemma GateStep(u: State, bus: Bus, pin: bool)
    requires Sized(u) && GateOk(u.lin)
    ensures GateOk(Step(u, bus, pin).lin)
    ensures u.lin.gate.armed ==> !TakesByte(u)
  {
    hide BusStage, BreakStage, TxStage, RxStage, DetectStage, TakesByte, RunsDry;
    var n0 := u.(rx := u.rx.(sync1 := pin, sync2 := u.rx.sync1));
    var n1 := BusStage(u, n0, bus);
    BusGate(u, n0, bus);
    OtherGate(u, n1);
    var n2 := BreakStage(u, n1);
    TxGate(u, n2);
    var n3 := TxStage(u, n2);
    RxGate(u, n3);
    OtherGate(u, RxStage(u, n3));
    if u.lin.gate.armed { ArmedBlocks(u); }
    TakesNeedsByte(u);
  }

  lemma ArmedBlocks(u: State)
    requires GateOk(u.lin) && u.lin.gate.armed
    ensures !TakesByte(u)
  {
  }

  lemma TakesNeedsByte(u: State)
    ensures TakesByte(u) ==> !RunsDry(u)
    ensures RunsDry(u) ==> u.lin.gate.pending
  {
  }

  /** A matching header starts a response of the configured length. */
  lemma HeaderStartsResponse(u: State, bus: Bus, pin: bool)
    requires Sized(u) && HeaderArrives(u)
    ensures Step(u, bus, pin).lin.gate == Gate(false, true, u.lin.slave.length, false)
  {
    hide BusStage, BreakStage, TxStage, RxStage, DetectStage, HeaderArrives;
    var n0 := u.(rx := u.rx.(sync1 := pin, sync2 := u.rx.sync1));
    var n3 := TxStage(u, BreakStage(u, BusStage(u, n0, bus)));
    RxGate(u, n3);
    OtherGate(u, RxStage(u, n3));
  }

  /** Bus traffic that leaves the LIN command and slave registers alone and keeps the UART enabled. */
  predicate LeavesGate(bus: Bus) {
    !bus.LinCommand? && !bus.WriteSlave? && (bus.WriteControl? ==> bus.enable)
  }

  lemma QuietBusGate(u: State, n: State, bus: Bus)
    requires Sized(u) && LeavesGate(bus)
    ensures var v := BusStage(u, n, bus);
      v.lin.slave == n.lin.slave && v.lin.gate.(underflow := n.lin.gate.underflow) == n.lin.gate
          && (v.lin.gate.underflow ==> n.lin.gate.underflow) && (n.control.enable ==> v.control.enable)
  {
    hide FlagFull, CommandStage, Sized;
  }

  lemma EnableKept(u: State, n: State)
    requires Sized(u)
    ensures BreakStage(u, n).control == n.control && TxStage(u, n).control == n.control
    ensures DetectStage(u, n).control == n.control
  {
    hide BuildFrame, FrameBits, GateBlocks, TakesByte;
  }

  lemma EnableKeptRx(u: State, n: State)
    requires Sized(u)
    ensures RxStage(u, n).control == n.control
  {
    hide ParityMatches, HeaderMatches, Sample, FrameBits;
  }

  /** One cycle of a response. */
  lemma ResponseStep(u: State, bus: Bus, pin: bool)
    requires Sized(u) && GateOk(u.lin) && u.lin.gate.pending && u.control.enable && LeavesGate(bus)
    ensures var v := Step(u, bus, pin);
      && v.control.enable
      && (if TakesByte(u) then
            (if u.lin.gate.remaining == 1 then !v.lin.gate.pending
             else v.lin.gate.pending && v.lin.gate.remaining == u.lin.gate.remaining - 1)
            && (v.lin.gate.underflow ==> u.lin.gate.underflow)
          else if RunsDry(u) then !v.lin.gate.pending && v.lin.gate.underflow
          else (
            && v.lin.gate.pending && v.lin.gate.remaining == u.lin.gate.remaining
            && (v.lin.gate.underflow ==> u.lin.gate.underflow)))
  {
    hide BusStage, BreakStage, TxStage, RxStage, DetectStage, TakesByte, RunsDry;
    var n0 := u.(rx := u.rx.(sync1 := pin, sync2 := u.rx.sync1));
    var n1 := BusStage(u, n0, bus);
    QuietBusGate(u, n0, bus);
    OtherGate(u, n1);
    EnableKept(u, n1);
    var n2 := BreakStage(u, n1);
    TxGate(u, n2);
    EnableKept(u, n2);
    var n3 := TxStage(u, n2);
    RxGate(u, n3);
    EnableKeptRx(u, n3);
    OtherGate(u, RxStage(u, n3));
    EnableKept(u, RxStage(u, n3));
    TakesNeedsByte(u);
  }

  // ---- a whole response ----

  datatype Input = Input(bus: Bus, pin: bool)

  function Run(u: State, ins: seq<Input>): State
    requires Sized(u)
    decreases ins
  {
    if ins == [] then u else StepSized(u, ins[0].bus, ins[0].pin); Run(Step(u, ins[0].bus, ins[0].pin), ins[1..])
  }

  /** How many bytes leave the transmit FIFO. */
  function BytesOut(u: State, ins: seq<Input>): nat
    requires Sized(u)
    decreases ins
  {
    if ins == [] then 0
    else
      StepSized(u, ins[0].bus, ins[0].pin);
      (if TakesByte(u) then 1 else 0) + BytesOut(Step(u, ins[0].bus, ins[0].pin), ins[1..])
  }

  /** The response is running before every cycle of the run, and the bus leaves the gate alone. */
  predicate Responding(u: State, ins: seq<Input>)
    requires Sized(u)
    decreases ins
  {
    ins == [] ||
    (StepSized(u, ins[0].bus, ins[0].pin);
     u.lin.gate.pending && LeavesGate(ins[0].bus) && Responding(Step(u, ins[0].bus, ins[0].pin), ins[1..]))
  }

  /** From the header on: while the response runs, bytes sent and bytes owed add up to the configured length; when
      it ends, exactly the configured number of bytes has left, or fewer and the underflow flag says so. */
  lemma {:induction false} ResponseCount(u: State, ins: seq<Input>)
    requires Sized(u) && GateOk(u.lin) && u.lin.gate.pending && u.control.enable && !u.lin.gate.underflow
        && Responding(u, ins)
    ensures var v, k := Run(u, ins), BytesOut(u, ins);
      if v.lin.gate.pending then
        k + v.lin.gate.remaining == u.lin.gate.remaining && v.lin.gate.remaining >= 1 && !v.lin.gate.underflow
      else k <= u.lin.gate.remaining && (v.lin.gate.underflow <==> k < u.lin.gate.remaining)
    decreases ins
  {
    hide Step, TakesByte, LeavesGate, RunsDry, Sized;
    if ins != [] {
      var i := ins[0];
      StepSized(u, i.bus, i.pin);
      var v := Step(u, i.bus, i.pin);
      GateStep(u, i.bus, i.pin);
      ResponseStep(u, i.bus, i.pin);
      if v.lin.gate.pending {
        ResponseCount(v, ins[1..]);
      } else {
        assert ins[1..] == [];
      }
    }
  }

  lemma StaysEnabled(u: State, bus: Bus, pin: bool)
    requires Sized(u) && u.control.enable && (bus.WriteControl? ==> bus.enable)
    ensures Sized(Step(u, bus, pin)) && Step(u, bus, pin).control.enable
  {
    hide BusStage, BreakStage, TxStage, RxStage, DetectStage;
    StepSized(u, bus, pin);
    var n0 := u.(rx := u.rx.(sync1 := pin, sync2 := u.rx.sync1));
    BusEnable(u, n0, bus);
    var n1 := BusStage(u, n0, bus);
    EnableKept(u, n1);
    var n2 := BreakStage(u, n1);
    EnableKept(u, n2);
    EnableKeptRx(u, TxStage(u, n2));
    EnableKept(u, RxStage(u, TxStage(u, n2)));
  }

  lemma BusEnable(u: State, n: State, bus: Bus)
    requires Sized(u) && n.control.enable && (bus.WriteControl? ==> bus.enable)
    ensures BusStage(u, n, bus).control.enable
  {
    hide FlagFull, GateCommand, BreakCommand, Sized;
  }

  /** From the cycle in which a matching header completes: no byte leaves in that cycle, and when the response has ended
      exactly the configured number of bytes has left, or fewer and the underflow flag is set. */
  lemma HeaderIsAnswered(u: State, bus: Bus, pin: bool, ins: seq<Input>)
    requires Sized(u) && GateOk(u.lin) && HeaderArrives(u) && (bus.WriteControl? ==> bus.enable)
    requires Sized(Step(u, bus, pin)) && Responding(Step(u, bus, pin), ins)
    ensures !TakesByte(u)
    ensures var v := Step(u, bus, pin); var w, sent, owed := Run(v, ins), BytesOut(v, ins), u.lin.slave.length;
      if w.lin.gate.pending then sent + w.lin.gate.remaining == owed && sent < owed && !w.lin.gate.underflow
      else sent <= owed && (w.lin.gate.underflow <==> sent < owed)
  {
    assert u.lin.gate.armed;
    hide Step, HeaderArrives, Responding, TakesByte, Run, BytesOut, Sized;
    HeaderStartsResponse(u, bus, pin);
    GateStep(u, bus, pin);
    assert u.control.enable by { ArrivesEnabled(u); }
    StaysEnabled(u, bus, pin);
    ResponseCount(Step(u, bus, pin), ins);
  }

  lemma ArrivesEnabled(u: State)
    requires HeaderArrives(u)
    ensures u.control.enable
  {
  }

  // ---- how soon a response ends ----

  /** No break is being sent or due, and no automatic header byte. */
  predicate NoBreak(u: State) { !u.lin.brk.active && !u.lin.brk.pending && u.lin.brk.autoState == 0 }

  /** Bus traffic that leaves the gate, the control bits and the divider alone. */
  predicate Steady(bus: Bus) { LeavesGate(bus) && !bus.WriteControl? && !bus.WriteBaud? }

  lemma SteadyBus(u: State, n: State, bus: Bus)
    requires Sized(u) && Steady(bus)
    ensures var v := BusStage(u, n, bus);
      && v.control == n.control && v.lin.brk == n.lin.brk
      && v.tx.bits == n.tx.bits && v.tx.counter == n.tx.counter
  {
    hide FlagFull, CommandStage, Sized;
  }

  /** The bits the transmitter has left, and its counter, after a cycle without a break. */
  lemma SteadyTx(u: State, n: State)
    requires Sized(u) && u.control.enable && NoBreak(u) && u.lin.gate.pending
    requires n.tx.bits == u.tx.bits && n.tx.counter == u.tx.counter && n.lin.brk == u.lin.brk
    ensures BreakStage(u, n) == n
    ensures var v, t := TxStage(u, n), u.tx;
      && v.lin.brk == u.lin.brk
      && (t.bits == 0 ==>
            if TakesByte(u) then v.tx.bits == FrameBits(u.control.parity, u.control.twoStop) && v.tx.counter == 0
            else RunsDry(u))
      && (t.bits > 0 ==>
            if t.counter >= u.control.baudDiv then v.tx.bits == t.bits - 1 && v.tx.counter == 0
            else v.tx.bits == t.bits && v.tx.counter == t.counter + 1)
  {
    hide BuildFrame, FrameBits;
  }

  lemma ReceiverSparesTx(u: State, n: State)
    requires Sized(u)
    ensures RxStage(u, n).tx == n.tx && RxStage(u, n).lin.brk == n.lin.brk
    ensures DetectStage(u, n).tx == n.tx && DetectStage(u, n).lin.brk == n.lin.brk
  {
    hide Clean, HeaderMatches, Sample, NewFrame, FlagFull;
  }

  /** One steady cycle of a response. */
  lemma SteadyStep(u: State, bus: Bus, pin: bool)
    requires Sized(u) && u.control.enable && NoBreak(u) && u.lin.gate.pending && Steady(bus)
    ensures var v, t := Step(u, bus, pin), u.tx;
      && v.control == u.control && NoBreak(v)
      && (t.bits == 0 ==>
            if TakesByte(u) then v.tx.bits == FrameBits(u.control.parity, u.control.twoStop) && v.tx.counter == 0
            else RunsDry(u))
      && (t.bits > 0 ==>
            if t.counter >= u.control.baudDiv then v.tx.bits == t.bits - 1 && v.tx.counter == 0
            else v.tx.bits == t.bits && v.tx.counter == t.counter + 1)
  {
    hide BusStage, BreakStage, TxStage, RxStage, DetectStage, TakesByte, RunsDry, FrameBits, Steady;
    var n0 := u.(rx := u.rx.(sync1 := pin, sync2 := u.rx.sync1));
    SteadyBus(u, n0, bus);
    var n1 := BusStage(u, n0, bus);
    SteadyTx(u, n1);
    EnableKept(u, n1);
    var n3 := TxStage(u, n1);
    ReceiverSparesTx(u, n3);
    EnableKeptRx(u, n3);
    ReceiverSparesTx(u, RxStage(u, n3));
    EnableKept(u, RxStage(u, n3));
  }

  /** Cycles until the frame now being sent is through. */
  function FrameLeft(bits: nat, counter: nat, d: nat): int {
    if bits == 0 then 0 else (bits - 1) * (d + 1) + (if counter < d then d - counter else 0) + 1
  }

  function FrameCycles(c: Control): nat { FrameBits(c.parity, c.twoStop) * (c.baudDiv + 1) }

  /** Cycles a response can still take: the frame being sent, then a cycle to load and a frame for each byte owed. */
  function AnswerLeft(u: State): int {
    u.lin.gate.remaining * (FrameCycles(u.control) + 1) + FrameLeft(u.tx.bits, u.tx.counter, u.control.baudDiv)
  }

  lemma OneByteLess(k: int, cycles: int)
    ensures (k - 1) * cycles == k * cycles - cycles
  {
  }

  lemma FrameLeftMoves(bits: nat, counter: nat, d: nat)
    requires bits > 0
    ensures counter >= d ==> FrameLeft(bits - 1, 0, d) <= FrameLeft(bits, counter, d) - 1
    ensures counter < d ==> FrameLeft(bits, counter + 1, d) == FrameLeft(bits, counter, d) - 1
    ensures 0 <= FrameLeft(bits, counter, d) <= bits * (d + 1)
  {
    OneByteLess(bits - 1, d + 1);
    OneByteLess(bits, d + 1);
    assert (bits - 1) * (d + 1) >= 0;
  }

  lemma AnswerStep(u: State, bus: Bus, pin: bool)
    requires Sized(u) && GateOk(u.lin) && u.control.enable && NoBreak(u) && u.lin.gate.pending && Steady(bus)
    ensures AnswerLeft(u) >= 1
    ensures var v := Step(u, bus, pin); v.lin.gate.pending ==> AnswerLeft(v) <= AnswerLeft(u) - 1
  {
    hide Step, TakesByte, RunsDry, FrameBits, Sized, FrameLeft, NoBreak;
    SteadyStep(u, bus, pin);
    ResponseStep(u, bus, pin);
    assert Steady(bus) ==> LeavesGate(bus);
    var v, d, c := Step(u, bus, pin), u.control.baudDiv, u.control;
    var r, each := u.lin.gate.remaining, FrameCycles(c) + 1;
    OneByteLess(r, each);
    assert (r - 1) * each >= 0;
    if u.tx.bits > 0 { FrameLeftMoves(u.tx.bits, u.tx.counter, d); } else { NoFrameLeft(u.tx.counter, d); }
    if v.tx.bits > 0 { FrameLeftMoves(v.tx.bits, v.tx.counter, d); } else { NoFrameLeft(v.tx.counter, d); }
  }

  lemma NoFrameLeft(counter: nat, d: nat)
    ensures FrameLeft(0, counter, d) == 0
  {
  }

  /** A response runs no longer than its bound. */
  lemma {:induction false} AnswerEnds(u: State, ins: seq<Input>)
    requires Sized(u) && GateOk(u.lin) && u.control.enable && NoBreak(u) && Responding(u, ins)
    requires forall k :: 0 <= k < |ins| ==> Steady(ins[k].bus)
    ensures |ins| <= AnswerLeft(u)
    decreases ins
  {
    hide Step, NoBreak, Sized, Steady, AnswerLeft, LeavesGate;
    LeftIsNatural(u);
    if ins != [] {
      var v := Step(u, ins[0].bus, ins[0].pin);
      StepSized(u, ins[0].bus, ins[0].pin);
      AnswerStep(u, ins[0].bus, ins[0].pin);
      SteadyStep(u, ins[0].bus, ins[0].pin);
      GateStep(u, ins[0].bus, ins[0].pin);
      if v.lin.gate.pending { AnswerEnds(v, ins[1..]); } else { assert ins[1..] == []; }
    }
  }

  /** In closed form: (bits + 1)(divider + 1) cycles for each byte owed, after what is left of the frame being sent. */
  lemma AnswerBound(u: State)
    ensures var c := u.control;
      AnswerLeft(u) <=
        (u.lin.gate.remaining * (FrameBits(c.parity, c.twoStop) + 1) + u.tx.bits) * (c.baudDiv + 1)
  {
    hide FrameBits, FrameLeft;
    var n, d := FrameBits(u.control.parity, u.control.twoStop), u.control.baudDiv;
    if u.tx.bits > 0 { FrameLeftMoves(u.tx.bits, u.tx.counter, d); } else { NoFrameLeft(u.tx.counter, d); }
    Products(u.lin.gate.remaining, n, d, u.tx.bits);
  }

  lemma Products(r: nat, n: nat, d: nat, bits: nat)
    ensures r * (n * (d + 1) + 1) + bits * (d + 1) <= (r * (n + 1) + bits) * (d + 1)
  {
    var x, y := n * (d + 1) + 1, (n + 1) * (d + 1);
    assert y == n * (d + 1) + (d + 1);
    assert r * x <= r * y;
    assert r * y == (r * (n + 1)) * (d + 1);
    assert (r * (n + 1) + bits) * (d + 1) == (r * (n + 1)) * (d + 1) + bits * (d + 1);
  }

  /** From a matching header, with no break due and the settings left alone, the response is over within
      (bits + 1)(divider + 1) cycles for each configured byte, after what is left of a frame being sent. */
  lemma HeaderIsAnsweredInTime(u: State, bus: Bus, pin: bool, ins: seq<Input>)
    requires Sized(u) && GateOk(u.lin) && HeaderArrives(u) && (bus.WriteControl? ==> bus.enable)
    requires Sized(Step(u, bus, pin)) && NoBreak(Step(u, bus, pin)) && Responding(Step(u, bus, pin), ins)
    requires forall k :: 0 <= k < |ins| ==> Steady(ins[k].bus)
    ensures var v := Step(u, bus, pin); var n := FrameBits(v.control.parity, v.control.twoStop);
      |ins| <= (u.lin.slave.length * (n + 1) + v.tx.bits) * (v.control.baudDiv + 1)
  {
    hide Step, HeaderArrives, Responding, NoBreak, Sized, AnswerLeft, FrameBits, Steady;
    var v := Step(u, bus, pin);
    HeaderStartsResponse(u, bus, pin);
    GateStep(u, bus, pin);
    assert u.control.enable by { ArrivesEnabled(u); }
    StaysEnabled(u, bus, pin);
    AnswerEnds(v, ins);
    AnswerBound(v);
  }

  lemma LeftIsNatural(u: State)
    ensures AnswerLeft(u) >= 0
  {
    hide FrameBits, FrameLeft;
    if u.tx.bits > 0 {
      FrameLeftMoves(u.tx.bits, u.tx.counter, u.control.baudDiv);
    } else {
      NoFrameLeft(u.tx.counter, u.control.baudDiv);
    }
    assert u.lin.gate.remaining * (FrameCycles(u.control) + 1) >= 0;
  }
}
