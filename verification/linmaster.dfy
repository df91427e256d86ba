/** The LIN master's break: how long the line is held low, and what a break may cut off. */
module LinMaster {
  import opened Uart
  import opened LinSlave

  /** Bus traffic that leaves the control, divider and break length registers alone. */
  predicate LeavesBreak(bus: Bus) { !bus.WriteControl? && !bus.WriteBaud? && !bus.WriteBreakLength? }

  /** A break starts in this cycle. */
  predicate Starts(u: State) {
    && u.control.lin && !u.lin.brk.active && u.lin.brk.pending && u.control.enable && u.tx.bits == 0
    && (u.tx.fifo.IsEmpty() || GateBlocks(u))
  }

  // ---- what each stage does to the break ----

  lemma BusBreak(u: State, n: State, bus: Bus)
    requires Sized(u) && LeavesBreak(bus)
    ensures var v := BusStage(u, n, bus);
      && v.control == n.control && v.lin.breakLength == n.lin.breakLength
      && v.lin.brk == n.lin.brk.(pending := v.lin.brk.pending, autoPending := v.lin.brk.autoPending)
      && v.tx == n.tx.(fifo := v.tx.fifo)
  {
    hide FlagFull, GateCommand, Sized;
  }

  lemma StartBreak(u: State, n: State)
    ensures var v := BreakStage(u, n);
      && v == n.(lin := n.lin.(brk := v.lin.brk)) && (u.lin.brk.active ==> v == n) && (!Starts(u) ==> v == n)
      && (Starts(u) ==> v.lin.brk.active)
  {
    hide GateBlocks;
  }

  lemma ReceiverSparesBreak(u: State, n: State)
    requires Sized(u)
    ensures RxStage(u, n).control == n.control && RxStage(u, n).tx == n.tx
    ensures RxStage(u, n).lin.brk == n.lin.brk && RxStage(u, n).lin.breakLength == n.lin.breakLength
  {
    hide Clean, HeaderMatches, Sample, NewFrame, FlagFull;
  }

  lemma DetectorSparesBreak(u: State, n: State)
    ensures DetectStage(u, n).control == n.control && DetectStage(u, n).tx == n.tx
    ensures DetectStage(u, n).lin.brk == n.lin.brk && DetectStage(u, n).lin.breakLength == n.lin.breakLength
  {
  }

  /** The last cycle of a break. */
  predicate Last(u: State) { u.lin.brk.tick >= u.control.baudDiv && u.lin.brk.counter >= u.lin.breakLength }

  lemma SendBreak(u: State, n: State)
    requires Sized(u) && u.control.enable && u.lin.brk.active
    ensures var v, b := TxStage(u, n), u.lin.brk;
      && v.control == n.control && v.lin.breakLength == n.lin.breakLength && v.tx.bits == 0
      && v.tx.line == Last(u)
      && (if Last(u) then !v.lin.brk.active
          else (
            && v.lin.brk.active == n.lin.brk.active
            && v.lin.brk.tick == (if b.tick >= u.control.baudDiv then 0 else b.tick + 1)
            && (b.tick >= u.control.baudDiv ==> v.lin.brk.counter == b.counter + 1)
            && (b.tick < u.control.baudDiv ==> v.lin.brk.counter == n.lin.brk.counter)))
  {
  }

  /** One cycle of a break. */
  lemma BreakStep(u: State, bus: Bus, pin: bool)
    requires Sized(u) && u.control.enable && u.lin.brk.active && LeavesBreak(bus)
    ensures Sized(Step(u, bus, pin))
    ensures var v, b := Step(u, bus, pin), u.lin.brk;
      && v.control == u.control && v.lin.breakLength == u.lin.breakLength && v.tx.bits == 0 && v.tx.line == Last(u)
      && v.lin.brk.active == !Last(u)
      && (!Last(u) ==>
            && v.lin.brk.tick == (if b.tick >= u.control.baudDiv then 0 else b.tick + 1)
            && v.lin.brk.counter == (if b.tick >= u.control.baudDiv then b.counter + 1 else b.counter))
  {
    hide BusStage, BreakStage, TxStage, RxStage, DetectStage, Last;
    StepSized(u, bus, pin);
    var n0 := u.(rx := u.rx.(sync1 := pin, sync2 := u.rx.sync1));
    BusBreak(u, n0, bus);
    var n1 := BusStage(u, n0, bus);
    StartBreak(u, n1);
    SendBreak(u, n1);
    var n3 := TxStage(u, n1);
    ReceiverSparesBreak(u, n3);
    DetectorSparesBreak(u, RxStage(u, n3));
  }

  // ---- how long a break lasts ----

  /** The cycles a break still has to run: bit periods of divider + 1 cycles, one more than the programmed length. */
  function Remaining(u: State): int { Left(u.lin.breakLength - u.lin.brk.counter, u.control.baudDiv, u.lin.brk.tick) }

  function Left(periods: int, d: int, tick: int): int { periods * (d + 1) + d + 1 - tick }

  predicate Breaking(u: State) {
    && Sized(u) && u.control.enable && u.lin.brk.active
    && u.lin.brk.counter <= u.lin.breakLength && u.lin.brk.tick <= u.control.baudDiv
  }

  lemma OnePeriodLess(k: int, period: int)
    ensures (k - 1) * period == k * period - period
    ensures k >= 1 && period >= 0 ==> k * period >= period
  {
    if k >= 1 && period >= 0 { assert (k - 1) * period >= 0; }
  }

  lemma LeftMoves(periods: int, d: nat, tick: nat)
    requires periods >= 0 && tick <= d
    ensures Left(periods, d, tick) >= 1 && (Left(periods, d, tick) == 1 <==> periods == 0 && tick == d)
    ensures Left(periods, d, tick + 1) == Left(periods, d, tick) - 1
    ensures tick == d ==> Left(periods - 1, d, 0) == Left(periods, d, tick) - 1
  {
    OnePeriodLess(periods, d + 1);
  }

  lemma BreakCountsDown(u: State, bus: Bus, pin: bool)
    requires Breaking(u) && LeavesBreak(bus)
    ensures Sized(Step(u, bus, pin))
    ensures var v := Step(u, bus, pin);
      && Remaining(u) >= 1 && (Last(u) <==> Remaining(u) == 1)
      && v.tx.line == Last(u) && v.lin.brk.active == !Last(u)
      && (!Last(u) ==> Breaking(v) && Remaining(v) == Remaining(u) - 1)
  {
    hide Step, Sized, Left;
    BreakStep(u, bus, pin);
    LeftMoves(u.lin.breakLength - u.lin.brk.counter, u.control.baudDiv, u.lin.brk.tick);
  }

  /** Whatever else the bus and the receive pin do, a break runs for exactly its remaining cycles: the line is low after
      each of them but the last, which ends the break and raises the line. From a start with the tick counter at zero
      that is (length + 1)(divider + 1) cycles, and the line is low for one cycle less. */
  lemma {:induction false} BreakLasts(u: State, ins: seq<Input>)
    requires Breaking(u) && |ins| <= Remaining(u)
    requires forall k :: 0 <= k < |ins| ==> LeavesBreak(ins[k].bus)
    ensures var v := Run(u, ins);
      if |ins| == Remaining(u) then !v.lin.brk.active && v.tx.line
      else v.lin.brk.active && (ins != [] ==> !v.tx.line)
    ensures u.lin.brk.counter == 0 && u.lin.brk.tick == 0 ==>
      Remaining(u) == (u.lin.breakLength + 1) * (u.control.baudDiv + 1)
    decreases ins
  {
    hide Step, LeavesBreak, Last;
    OnePeriodLess(u.lin.breakLength + 1, u.control.baudDiv + 1);
    assert Remaining(u) >= 1 by {
      LeftMoves(u.lin.breakLength - u.lin.brk.counter, u.control.baudDiv, u.lin.brk.tick);
    }
    if ins != [] {
      BreakCountsDown(u, ins[0].bus, ins[0].pin);
      var v := Step(u, ins[0].bus, ins[0].pin);
      if v.lin.brk.active { BreakLasts(v, ins[1..]); } else { assert ins[1..] == []; }
    }
  }

  // ---- what a break cuts off ----

  lemma TxLoadsHeader(u: State, n: State)
    requires Sized(u) && u.control.enable && !u.lin.brk.active && u.tx.bits == 0 && n.tx.bits == 0
    ensures var v := TxStage(u, n);
      && v.lin.brk.active == n.lin.brk.active
      && (v.tx.bits > 0 <==> u.lin.brk.autoState != 0 || TakesByte(u))
  {
    hide BuildFrame, GateBlocks;
  }

  /** A break starts over a frame loaded in the same cycle exactly when an automatic header byte is due. */
  lemma BreakMeetsHeaderIff(u: State, bus: Bus, pin: bool)
    requires Sized(u) && Starts(u) && LeavesBreak(bus)
    ensures var v := Step(u, bus, pin);
      v.lin.brk.active && (v.tx.bits > 0 <==> u.lin.brk.autoState != 0)
  {
    assert !TakesByte(u);
    hide BusStage, BreakStage, TxStage, RxStage, DetectStage, GateBlocks, TakesByte;
    var n0 := u.(rx := u.rx.(sync1 := pin, sync2 := u.rx.sync1));
    BusBreak(u, n0, bus);
    var n1 := BusStage(u, n0, bus);
    StartBreak(u, n1);
    var n2 := BreakStage(u, n1);
    TxLoadsHeader(u, n2);
    ReceiverSparesBreak(u, TxStage(u, n2));
    DetectorSparesBreak(u, RxStage(u, TxStage(u, n2)));
  }
}
