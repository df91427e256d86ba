/** The UART as its clocked block writes it: registers in fields, right-hand sides over the registers before the
    edge, later assignments overriding earlier ones. */
module UartClocked {
  import opened Uart

  class UartUnit {
    var control: Control
    var tx: Tx
    var rx: Rx
    var lin: Lin

    function Snapshot(): State
      reads this
    {
      State(control, tx, rx, lin)
    }

    constructor ()
      ensures Snapshot() == RESET && Sized(Snapshot())
      ensures control == Control(true, false, false, false, false, 434) && tx.line && tx.bits == 0 && !rx.busy
    {
      control, tx, rx, lin := RESET.control, RESET.tx, RESET.rx, RESET.lin;
    }

    /** One clock edge. */
    method Tick(bus: Bus, pin: bool)
      requires Sized(Snapshot())
      modifies this
      ensures Snapshot() == Step(old(Snapshot()), bus, pin)
      ensures Sized(Snapshot())
    {
      hide BusStage, BreakStage, TxStage, RxStage, DetectStage, Sized;
      ghost var u := Snapshot();
      StepSized(u, bus, pin);
      var c, t, r, l := control, tx, rx.(sync1 := pin, sync2 := rx.sync1), lin;
      c, t, r, l := BusBlock(Snapshot(), c, t, r, l, bus);
      l := BreakBlock(Snapshot(), c, t, r, l);
      t, l := TxBlock(Snapshot(), c, t, r, l);
      r, l := RxBlock(Snapshot(), c, t, r, l);
      r, l := DetectBlock(Snapshot(), c, t, r, l);
      control, tx, rx, lin := c, t, r, l;
    }

    /** Register writes and reads. */
    static method BusBlock(u: State, control: Control, tx: Tx, rx: Rx, lin: Lin, bus: Bus)
      returns (c: Control, t: Tx, r: Rx, l: Lin)
      requires Sized(u)
      ensures State(c, t, r, l) == BusStage(u, State(control, tx, rx, lin), bus)
    {
      hide CommandStage;
      c, t, r, l := control, tx, rx, lin;
      match bus {
        case NoAccess =>
        case WriteData(b) =>
          if !FlagFull(u.tx.fifo) { t := t.(fifo := u.tx.fifo.Push(b)); }
        case ReadData =>
          if !u.rx.fifo.IsEmpty() { r := r.(fifo := u.rx.fifo.Pop()); }
        case WriteControl(enable, parity, odd, twoStop, lin) =>
          c := Control(enable, parity, odd, twoStop, lin, u.control.baudDiv);
        case WriteBaud(d) => c := c.(baudDiv := d);
        case ClearUnderflow => l := l.(gate := l.gate.(underflow := false));
        case WriteBreakLength(k) => l := l.(breakLength := if k == 0 then 13 else k);
        case LinCommand(_, _, _, _, _) => r, l := CommandBlock(u, c, t, r, l, bus);
        case WriteHeaderId(id) => l := l.(headerId := id);
        case WriteSlave(cfg) =>
          l := l.(slave := cfg);
          if !cfg.enable { l := l.(gate := l.gate.(armed := false, pending := false, underflow := false)); }
      }
    }

    static method CommandBlock(u: State, ghost control: Control, ghost tx: Tx, rx: Rx, lin: Lin, bus: Bus)
      returns (r: Rx, l: Lin)
      requires Sized(u) && bus.LinCommand?
      ensures State(control, tx, r, l) == CommandStage(u, State(control, tx, rx, lin), bus)
    {
      hide GateCommand, BreakCommand, Sized;
      var b := BreakCommandBlock(lin.brk, bus);
      var g := GateCommandBlock(u, lin.gate, bus);
      r, l := rx, lin.(brk := b, gate := g);
      if bus.armHeader {
        l := l.(header := l.header.(state := 1, waitDelimiter := true));
        r := r.(fifo := u.rx.fifo.(head := u.rx.fifo.tail));
      }
    }

    static method BreakCommandBlock(brk: Break, bus: Bus) returns (b: Break)
      requires bus.LinCommand?
      ensures b == BreakCommand(brk, bus)
    {
      b := brk;
      if bus.sendBreak { b := b.(pending := true); }
      if bus.autoHeader { b := b.(autoPending := true, pending := true); }
    }

    static method GateCommandBlock(u: State, gate: Gate, bus: Bus) returns (g: Gate)
      requires bus.LinCommand?
      ensures g == GateCommand(u, gate, bus)
    {
      g := gate;
      if bus.armSlave {
        g := g.(underflow := false);
        if u.lin.slave.enable && u.lin.slave.length != 0 {
          g := g.(armed := true, pending := false);
        } else {
          g := g.(armed := false, pending := false);
        }
      }
      if bus.cancelSlave { g := g.(armed := false, pending := false, underflow := false); }
    }

    static method BreakBlock(u: State, ghost control: Control, ghost tx: Tx, ghost rx: Rx, lin: Lin) returns (l: Lin)
      ensures State(control, tx, rx, l) == BreakStage(u, State(control, tx, rx, lin))
    {
      l := lin;
      if u.control.lin && !u.lin.brk.active && u.lin.brk.pending && u.control.enable && u.tx.bits == 0
         && (u.tx.fifo.IsEmpty() || GateBlocks(u)) {
        l := l.(brk := l.brk.(active := true, pending := false, counter := 0));
      }
    }

    static method TxBlock(u: State, ghost control: Control, tx: Tx, ghost rx: Rx, lin: Lin) returns (t: Tx, l: Lin)
      requires Sized(u)
      ensures State(control, t, rx, l) == TxStage(u, State(control, tx, rx, lin))
    {
      hide BuildFrame, FrameBits, GateBlocks;
      t, l := tx, lin;
      if !u.control.enable {
        t := t.(bits := 0, line := true);
      } else if u.lin.brk.active {
        t, l := SendBreakBlock(u, control, tx, rx, lin);
      } else if u.tx.bits == 0 {
        if u.lin.brk.autoState != 0 {
          t := Loaded(u, t, if u.lin.brk.autoState == 1 then SYNC else u.lin.headerId);
          l := l.(brk := l.brk.(autoState := if u.lin.brk.autoState == 1 then 2 else 0));
        } else if u.lin.gate.pending && u.tx.fifo.IsEmpty() {
          l := l.(gate := l.gate.(pending := false, underflow := true));
        } else if !u.tx.fifo.IsEmpty() && !GateBlocks(u) {
          t := Loaded(u, t.(fifo := t.fifo.(tail := u.tx.fifo.Forward(u.tx.fifo.tail, 1))), u.tx.fifo.Front());
          if u.lin.gate.pending {
            if u.lin.gate.remaining <= 1 {
              l := l.(gate := l.gate.(pending := false));
            } else {
              l := l.(gate := l.gate.(remaining := u.lin.gate.remaining - 1));
            }
          }
        }
      } else if u.tx.counter >= u.control.baudDiv {
        t := t.(counter := 0,
          line := if u.tx.shift == [] then true else u.tx.shift[0],
          shift := if u.tx.shift == [] then [] else u.tx.shift[1..] + [true],
          bits := u.tx.bits - 1);
      } else {
        t := t.(counter := u.tx.counter + 1);
      }
    }

    static method SendBreakBlock(u: State, ghost control: Control, tx: Tx, ghost rx: Rx, lin: Lin)
      returns (t: Tx, l: Lin)
      ensures State(control, t, rx, l) == SendingBreak(u, State(control, tx, rx, lin))
    {
      t, l := tx.(line := false, bits := 0), lin;
      if u.lin.brk.tick >= u.control.baudDiv {
        l := l.(brk := l.brk.(tick := 0));
        if u.lin.brk.counter >= u.lin.breakLength {
          l := l.(brk := l.brk.(active := false, counter := 0));
          t := t.(line := true);
          if u.lin.brk.autoPending { l := l.(brk := l.brk.(autoState := 1, autoPending := false)); }
          l := l.(brk := l.brk.(pending := false));
        } else {
          l := l.(brk := l.brk.(counter := u.lin.brk.counter + 1));
        }
      } else {
        l := l.(brk := l.brk.(tick := u.lin.brk.tick + 1));
      }
    }

    static method RxBlock(u: State, ghost control: Control, ghost tx: Tx, rx: Rx, lin: Lin) returns (r: Rx, l: Lin)
      requires Sized(u)
      ensures State(control, tx, r, l) == RxStage(u, State(control, tx, rx, lin))
    {
      hide FrameBits, FinishFrame, Sample;
      r, l := rx, lin;
      if !u.control.enable {
        r := r.(busy := false, index := 0);
      } else if !u.rx.busy {
        if u.control.lin && u.lin.header.waitDelimiter {
          if u.rx.sync2 { l := l.(header := l.header.(waitDelimiter := false)); }
        } else if !u.rx.sync2 {
          r := r.(busy := true, counter := u.control.baudDiv / 2, index := 0, frame := NewFrame(u.control));
        }
      } else if u.rx.counter >= u.control.baudDiv {
        var f := SampleBlock(u);
        r := r.(counter := 0, frame := f, index := (u.rx.index + 1) % 32);
        if u.rx.index + 1 == u.rx.frame.total {
          r, l := FinishBlock(u, control, tx, r.(busy := false), l);
        }
      } else {
        r := r.(counter := u.rx.counter + 1);
      }
    }

    static method SampleBlock(u: State) returns (f: Latch)
      ensures f == Sample(u.rx)
    {
      f := u.rx.frame;
      if u.rx.index == 0 {
        if u.rx.sync2 { f := f.(startError := true); }
      } else if u.rx.index <= 8 {
        f := f.(data := f.data[u.rx.index - 1 := u.rx.sync2]);
      } else if f.parity && u.rx.index == 9 {
        f := f.(parityBit := u.rx.sync2);
      } else if !u.rx.sync2 {
        f := f.(stopError := true);
      }
    }

    static method FinishBlock(u: State, ghost control: Control, ghost tx: Tx, rx: Rx, lin: Lin) returns (r: Rx, l: Lin)
      requires Sized(u)
      ensures State(control, tx, r, l) == FinishFrame(u, State(control, tx, rx, lin))
    {
      hide Parity;
      r, l := rx, lin;
      if u.rx.frame.startError || u.rx.frame.stopError {
      } else if !ParityMatches(u.rx.frame.data, u.rx.frame.parity, u.rx.frame.odd, u.rx.frame.parityBit) {
      } else if u.control.lin && u.lin.header.state != 0 {
        if u.lin.header.state == 1 {
          l := l.(header := l.header.(state := 2));
        } else {
          l := l.(header := l.header.(state := 0));
          if HeaderMatches(u) { l := l.(gate := Gate(false, true, u.lin.slave.length, false)); }
        }
      } else if !FlagFull(u.rx.fifo) {
        r := r.(fifo := r.fifo.(buf := u.rx.fifo.Push(u.rx.frame.data).buf,
            head := u.rx.fifo.Push(u.rx.frame.data).head));
      }
    }

    static method DetectBlock(u: State, ghost control: Control, ghost tx: Tx, rx: Rx, lin: Lin) returns (r: Rx, l: Lin)
      ensures State(control, tx, r, l) == DetectStage(u, State(control, tx, rx, lin))
    {
      r, l := rx, lin;
      if u.control.lin && u.control.enable {
        if !u.rx.sync2 {
          if u.lin.header.lowTick >= u.control.baudDiv {
            l := l.(header := l.header.(lowTick := 0));
            if u.lin.header.lowCounter + 1 >= u.lin.breakLength {
              l := l.(header := l.header.(state := 1, waitDelimiter := true));
              r := r.(busy := false, index := 0, counter := 0, fifo := r.fifo.(head := u.rx.fifo.tail));
            }
            if u.lin.header.lowCounter < 0xFFFF {
              l := l.(header := l.header.(lowCounter := u.lin.header.lowCounter + 1));
            }
          } else {
            l := l.(header := l.header.(lowTick := u.lin.header.lowTick + 1));
          }
        } else {
          l := l.(header := l.header.(lowCounter := 0, lowTick := 0));
        }
      } else {
        l := l.(header := l.header.(lowCounter := 0, lowTick := 0));
      }
    }
  }
}
