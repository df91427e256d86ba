/** A LIN header on the receive pin: break, sync byte, identifier, and the slave's answer. */
module LinHeader {
  import Rings
  import opened Uart
  import opened WireTiming
  import opened LinSlave

  /** Bus traffic that leaves the receiver and the settings alone. */
  predicate Spares(bus: Bus) { bus.NoAccess? || bus.WriteData? }

  /** LIN is on, with a break length as wide as its register. */
  predicate Tuned(u: State) {
    Sized(u) && u.control.enable && u.control.lin && 1 <= u.lin.breakLength <= 0xFFFF
  }

  // ---- the receiver by itself ----

  /** Receiver and header recognition; what the receive FIFO holds plays no part. */
  datatype Ear = Ear(rx: Rx, header: Header)

  function EarOf(u: State): Ear { Ear(u.rx, u.lin.header) }

  /** A frame ends without error: outside a header nothing follows, in one the next byte is awaited, or none. */
  function NextByte(state: nat, f: Latch): nat {
    if Clean(f) && state != 0 then (if state == 1 then 2 else 0) else state
  }

  /** The receiver at level `e.rx.sync2`. */
  function Listen(c: Control, e: Ear): Ear {
    var r, h := e.rx, e.header;
    if !r.busy then
      if h.waitDelimiter then e.(header := h.(waitDelimiter := !r.sync2))
      else if r.sync2 then e
      else e.(rx := r.(busy := true, counter := c.baudDiv / 2, index := 0, frame := NewFrame(c)))
    else if r.counter < c.baudDiv then e.(rx := r.(counter := r.counter + 1))
    else
      var ends := r.index + 1 == r.frame.total;
      Ear(r.(counter := 0, index := (r.index + 1) % 32, frame := Sample(r), busy := !ends),
          if ends then h.(state := NextByte(h.state, r.frame)) else h)
  }

  /** A break has been on the line for its full length. */
  predicate BreakEnds(c: Control, length: nat, e: Ear) {
    !e.rx.sync2 && e.header.lowTick >= c.baudDiv && e.header.lowCounter + 1 >= length
  }

  /** The low time of the line is counted in bit periods; a break resets the receiver for a header. */
  function Hear(c: Control, length: nat, e: Ear, pin: bool): Ear {
    var n := Listen(c, e);
    var r, h := n.rx.(sync1 := pin, sync2 := e.rx.sync1), n.header;
    if e.rx.sync2 then Ear(r, h.(lowCounter := 0, lowTick := 0))
    else if e.header.lowTick < c.baudDiv then Ear(r, h.(lowTick := e.header.lowTick + 1))
    else
      var low := if e.header.lowCounter < 0xFFFF then e.header.lowCounter + 1 else e.header.lowCounter;
      if BreakEnds(c, length, e) then Ear(r.(busy := false, index := 0, counter := 0), Header(1, true, low, 0))
      else Ear(r, h.(lowCounter := low, lowTick := 0))
  }

  /** What a cycle leaves as it is. */
  predicate SameSetting(u: State, v: State) {
    && v.control == u.control && v.lin.breakLength == u.lin.breakLength && v.lin.slave == u.lin.slave
    && (GateOk(u.lin) && u.lin.gate.armed && !HeaderArrives(u) ==> GateOk(v.lin) && v.lin.gate == u.lin.gate)
  }

  /** The receiver, header recognition and settings are the same in both. */
  predicate SameEar(u: State, v: State) {
    v.rx == u.rx && v.lin.header == u.lin.header && v.control == u.control && v.lin.breakLength == u.lin.breakLength
  }

  lemma FrontSpares(u: State, n: State, bus: Bus)
    requires Sized(u) && Spares(bus)
    ensures SameEar(n, BusStage(u, n, bus)) && SameEar(n, BreakStage(u, n)) && SameEar(n, TxStage(u, n))
    ensures BusStage(u, n, bus).lin == n.lin
  {
    hide FlagFull, GateBlocks, BuildFrame, FrameBits, TakesByte, CommandStage;
  }

  lemma RxListens(u: State, n: State)
    requires Tuned(u) && n.rx == u.rx.(sync1 := n.rx.sync1, sync2 := n.rx.sync2) && n.lin.header == u.lin.header
    ensures var v, e := RxStage(u, n), Listen(u.control, EarOf(u));
      && v.rx.(sync1 := u.rx.sync1, sync2 := u.rx.sync2, fifo := u.rx.fifo) == e.rx
      && v.rx.sync1 == n.rx.sync1 && v.rx.sync2 == n.rx.sync2 && v.lin.header == e.header
      && v.control == n.control && v.lin.breakLength == n.lin.breakLength && v.rx.fifo.tail == n.rx.fifo.tail
  {
    hide Clean, HeaderMatches, Sample, NewFrame, FlagFull;
  }

  lemma DetectHears(u: State, n: State)
    requires Tuned(u)
    requires var e := Listen(u.control, EarOf(u));
      && n.rx.(sync1 := u.rx.sync1, sync2 := u.rx.sync2, fifo := u.rx.fifo) == e.rx && n.lin.header == e.header
    requires n.rx.sync2 == u.rx.sync1 && n.rx.fifo.tail == u.rx.fifo.tail
    ensures var v, c, l := DetectStage(u, n), u.control, u.lin.breakLength;
      && v.rx.(fifo := u.rx.fifo) == Hear(c, l, EarOf(u), n.rx.sync1).rx
      && v.lin.header == Hear(c, l, EarOf(u), n.rx.sync1).header
      && v.control == n.control && v.lin.breakLength == n.lin.breakLength
      && (BreakEnds(c, l, EarOf(u)) ==> v.rx.fifo.IsEmpty())
  {
    hide Sample, NextByte, NewFrame;
  }

  /** One cycle with LIN on, as the receiver sees it. */
  lemma HearStep(u: State, bus: Bus, pin: bool)
    requires Tuned(u) && Spares(bus)
    ensures var v, c, l := Step(u, bus, pin), u.control, u.lin.breakLength;
      && Tuned(v) && SameSetting(u, v)
      && EarOf(v).(rx := v.rx.(fifo := u.rx.fifo)) == Hear(c, l, EarOf(u), pin)
      && (BreakEnds(c, l, EarOf(u)) ==> v.rx.fifo.IsEmpty())
  {
    hide BusStage, BreakStage, TxStage, RxStage, DetectStage, Hear, Listen, BreakEnds, GateOk, HeaderArrives;
    StepSized(u, bus, pin);
    var n0 := u.(rx := u.rx.(sync1 := pin, sync2 := u.rx.sync1));
    FrontSpares(u, n0, bus);
    var n1 := BusStage(u, n0, bus);
    FrontSpares(u, n1, bus);
    var n2 := BreakStage(u, n1);
    FrontSpares(u, n2, bus);
    var n3 := TxStage(u, n2);
    RxListens(u, n3);
    DetectHears(u, RxStage(u, n3));
    GateSpared(u, bus, pin);
  }

  lemma GateSpared(u: State, bus: Bus, pin: bool)
    requires Sized(u) && Spares(bus)
    ensures var v := Step(u, bus, pin);
      && v.lin.slave == u.lin.slave
      && (GateOk(u.lin) && u.lin.gate.armed && !HeaderArrives(u) ==> GateOk(v.lin) && v.lin.gate == u.lin.gate)
  {
    hide BusStage, BreakStage, TxStage, RxStage, DetectStage, HeaderArrives, TakesByte, RunsDry;
    var n0 := u.(rx := u.rx.(sync1 := pin, sync2 := u.rx.sync1));
    FrontSpares(u, n0, bus);
    var n1 := BusStage(u, n0, bus);
    OtherGate(u, n1);
    var n2 := BreakStage(u, n1);
    TxGate(u, n2);
    var n3 := TxStage(u, n2);
    RxGate(u, n3);
    OtherGate(u, RxStage(u, n3));
    TakesNeedsByte(u);
  }

  // ---- the line ----

  /** What the receiver sees at the `k`-th edge: the pin as it was two edges before. */
  function Seen(u: State, ins: seq<Input>, k: nat): bool
    requires k < |ins| + 2
  {
    if k == 0 then u.rx.sync2 else if k == 1 then u.rx.sync1 else ins[k - 2].pin
  }

  predicate Quiet(ins: seq<Input>) { forall k :: 0 <= k < |ins| ==> Spares(ins[k].bus) }

  /** Settings and an armed gate are the same in both. */
  predicate Through(u: State, v: State) {
    && Tuned(v) && v.control == u.control && v.lin.breakLength == u.lin.breakLength && v.lin.slave == u.lin.slave
    && (GateOk(u.lin) && u.lin.gate.armed ==> GateOk(v.lin) && v.lin.gate == u.lin.gate)
  }

  lemma SeenNext(u: State, ins: seq<Input>, k: nat)
    requires Tuned(u) && Quiet(ins) && ins != [] && k <= |ins|
    ensures Sized(Step(u, ins[0].bus, ins[0].pin)) && Quiet(ins[1..])
    ensures Seen(Step(u, ins[0].bus, ins[0].pin), ins[1..], k) == Seen(u, ins, k + 1)
  {
    hide Step, EarOf, Listen, BreakEnds, HeaderArrives, Sized, GateOk;
    HearStep(u, ins[0].bus, ins[0].pin);
    HearSync(u.control, u.lin.breakLength, EarOf(u), ins[0].pin);
    EarSync(u);
    EarSync(Step(u, ins[0].bus, ins[0].pin));
  }

  lemma HearSync(c: Control, length: nat, e: Ear, pin: bool)
    ensures var r := Hear(c, length, e, pin).rx; r.sync1 == pin && r.sync2 == e.rx.sync1
  {
    hide Sample, NextByte, NewFrame;
  }

  lemma EarSync(u: State)
    ensures EarOf(u).rx == u.rx
  {
  }

  // ---- a break ----

  /** For how many edges the line has been low. */
  function LowTime(h: Header, d: nat): nat { Ticks(h.lowCounter, d) + h.lowTick }

  predicate LowFor(h: Header, d: nat, n: nat) { h.lowTick <= d && LowTime(h, d) == n }

  /** A break has just been heard: the receiver waits for the line to rise, and then for the sync byte. */
  predicate Heard(u: State) { !u.rx.busy && u.lin.header.state == 1 && u.lin.header.waitDelimiter }

  /** A break of full length has been on the line at this edge. */
  lemma EndsIff(c: Control, length: nat, e: Ear, n: nat)
    requires !e.rx.sync2 && LowFor(e.header, c.baudDiv, n) && n < Ticks(length, c.baudDiv)
    ensures e.header.lowCounter < length
    ensures BreakEnds(c, length, e) <==> n + 1 == Ticks(length, c.baudDiv)
    ensures !BreakEnds(c, length, e) ==> n + 1 < Ticks(length, c.baudDiv)
  {
    var d, low := c.baudDiv, e.header.lowCounter;
    if low >= length { TicksGrow(length, low, d); }
    if low + 1 < length { TicksGrow(low + 2, length, d); }
  }

  lemma LowHear(c: Control, length: nat, e: Ear, pin: bool, n: nat)
    requires 1 <= length <= 0xFFFF
    requires !e.rx.sync2 && LowFor(e.header, c.baudDiv, n) && n < Ticks(length, c.baudDiv)
    ensures var v := Hear(c, length, e, pin);
      if n + 1 == Ticks(length, c.baudDiv) then !v.rx.busy && v.header.state == 1 && v.header.waitDelimiter
      else
        && LowFor(v.header, c.baudDiv, n + 1) && (e.header.state == 0 ==> v.header.state == 0)
        && n + 1 < Ticks(length, c.baudDiv)
  {
    hide Sample, Clean, NewFrame, Ticks;
    EndsIff(c, length, e, n);
    assert Ticks(e.header.lowCounter + 1, c.baudDiv) == Ticks(e.header.lowCounter, c.baudDiv) + c.baudDiv + 1 by {
      TicksNext(e.header.lowCounter, c.baudDiv);
    }
  }

  lemma TicksNext(i: nat, d: nat)
    ensures Ticks(i + 1, d) == Ticks(i, d) + d + 1
  {
  }

  /** The line low for the length of a break, from an idle receiver: the header's state stays 0 until the very edge that
      completes the break, and then is 1, with the receive FIFO empty. */
  lemma {:induction false} BreakRun(u: State, ins: seq<Input>, n: nat)
    requires Tuned(u) && Quiet(ins) && ins != [] && u.lin.header.state == 0
    requires LowFor(u.lin.header, u.control.baudDiv, n) && n + |ins| <= Ticks(u.lin.breakLength, u.control.baudDiv)
    requires forall k :: 0 <= k < |ins| ==> !Seen(u, ins, k)
    ensures var v := Run(u, ins);
      && Through(u, v)
      && (if n + |ins| == Ticks(u.lin.breakLength, u.control.baudDiv) then Heard(v) && v.rx.fifo.IsEmpty()
          else v.lin.header.state == 0 && LowFor(v.lin.header, u.control.baudDiv, n + |ins|))
    decreases ins
  {
    hide Step, Sized, GateOk, BreakEnds, Hear, Ticks, LowFor;
    var i := ins[0];
    var v := Step(u, i.bus, i.pin);
    assert !Seen(u, ins, 0);
    HearStep(u, i.bus, i.pin);
    LowHear(u.control, u.lin.breakLength, EarOf(u), i.pin, n);
    EndsIff(u.control, u.lin.breakLength, EarOf(u), n);
    if ins[1..] == [] {
      assert Run(u, ins) == v;
    } else {
      forall k | 0 <= k < |ins[1..]|
        ensures !Seen(v, ins[1..], k)
      {
        SeenNext(u, ins, k);
      }
      SeenNext(u, ins, 0);
      BreakRun(v, ins[1..], n + 1);
    }
  }

  // ---- between the bytes ----

  /** The receiver waits for a start bit, the header in state `state`. */
  predicate Ready(u: State, state: nat) {
    && !u.rx.busy && u.lin.header == Header(state, false, 0, 0)
  }

  lemma HeardHears(c: Control, length: nat, e: Ear, pin: bool)
    requires !e.rx.busy && e.header.state == 1 && e.header.waitDelimiter
    ensures var v := Hear(c, length, e, pin);
      if e.rx.sync2 then !v.rx.busy && v.header == Header(1, false, 0, 0)
      else !v.rx.busy && v.header.state == 1 && v.header.waitDelimiter
  {
    hide Sample, NewFrame;
  }

  /** While the line stays low nothing changes, and when it rises the receiver is ready for the sync byte. */
  lemma {:induction false} DelimiterRun(u: State, ins: seq<Input>)
    requires Tuned(u) && Quiet(ins) && Heard(u) && ins != []
    requires forall k :: 0 <= k < |ins| - 1 ==> !Seen(u, ins, k)
    requires Seen(u, ins, |ins| - 1)
    ensures Through(u, Run(u, ins)) && Ready(Run(u, ins), 1)
    decreases ins
  {
    hide Step, Sized, GateOk, BreakEnds, Hear;
    var i := ins[0];
    var v := Step(u, i.bus, i.pin);
    HearStep(u, i.bus, i.pin);
    HeardHears(u.control, u.lin.breakLength, EarOf(u), i.pin);
    if ins[1..] == [] {
      assert Seen(u, ins, 0);
      assert Run(u, ins) == v;
    } else {
      assert !Seen(u, ins, 0);
      forall k | 0 <= k < |ins[1..]|
        ensures Seen(v, ins[1..], k) == Seen(u, ins, k + 1)
      {
        SeenNext(u, ins, k);
      }
      SeenNext(u, ins, 0);
      DelimiterRun(v, ins[1..]);
    }
  }

  lemma ReadyHears(c: Control, length: nat, e: Ear, pin: bool, state: nat)
    requires e.rx.sync2 && !e.rx.busy && e.header == Header(state, false, 0, 0)
    ensures var v := Hear(c, length, e, pin); !v.rx.busy && v.header == e.header
  {
    hide Sample, NewFrame;
  }

  /** A high line leaves it ready. */
  lemma {:induction false} HighRun(u: State, ins: seq<Input>, state: nat)
    requires Tuned(u) && Quiet(ins) && Ready(u, state)
    requires forall k :: 0 <= k < |ins| ==> Seen(u, ins, k)
    ensures Through(u, Run(u, ins)) && Ready(Run(u, ins), state)
    decreases ins
  {
    hide Step, Sized, GateOk, BreakEnds, Hear;
    if ins != [] {
      var i := ins[0];
      var v := Step(u, i.bus, i.pin);
      assert Seen(u, ins, 0);
      HearStep(u, i.bus, i.pin);
      ReadyHears(u.control, u.lin.breakLength, EarOf(u), i.pin, state);
      forall k | 0 <= k < |ins[1..]|
        ensures Seen(v, ins[1..], k)
      {
        SeenNext(u, ins, k);
      }
      SeenNext(u, ins, 0);
      HighRun(v, ins[1..], state);
    }
  }

  // ---- a byte ----

  /** The level `x` edges into the frame of byte `b`. */
  function FrameLevel(c: Control, b: Byte, x: nat): bool { Hold(Frame(c, b), c.baudDiv, x) }

  /** The bits of a frame that can be low: start bit, data and parity. */
  function LowBits(c: Control): nat { if c.parity then 10 else 9 }

  /** `age` edges into the frame of byte `b` the receiver has sampled just the bits that have gone by, and has not been
      misled by the low ones. */
  predicate Hearing(c: Control, e: Ear, state: nat, age: nat, b: Byte) {
    && e.rx.busy && e.rx.index < Bits(c) && e.rx.counter <= c.baudDiv
    && (e.rx.index == 0 ==> e.rx.counter >= c.baudDiv / 2)
    && age + c.baudDiv / 2 == 1 + Ticks(e.rx.index, c.baudDiv) + e.rx.counter
    && Sampled(c, e.rx.frame, e.rx.index, b)
    && e.header.state == state && !e.header.waitDelimiter
    && e.header.lowTick <= c.baudDiv && LowTime(e.header, c.baudDiv) <= age
    && LowTime(e.header, c.baudDiv) <= Ticks(LowBits(c), c.baudDiv)
  }

  /** The edge at which the last bit of a frame is sampled. */
  function LastSample(c: Control): nat { Ticks(Bits(c) - 1, c.baudDiv) + c.baudDiv + 1 - c.baudDiv / 2 }

  /** Past its low bits the level of a frame is high. */
  lemma FrameRises(c: Control, b: Byte, x: nat)
    requires x >= Ticks(LowBits(c), c.baudDiv)
    ensures FrameLevel(c, b, x)
  {
    FrameShape(c, b);
    hide BuildFrame, FrameBits;
    HoldRests(Frame(c, b), c.baudDiv, LowBits(c), x);
  }

  lemma StartLevel(c: Control, b: Byte)
    ensures !FrameLevel(c, b, 0)
  {
    FrameShape(c, b);
    HoldAt(Frame(c, b), c.baudDiv, 0, 0);
  }

  /** When bit `i` is sampled, the level is bit `i`. */
  lemma HeardBit(c: Control, b: Byte, i: nat)
    requires c.baudDiv >= 2
    ensures FrameLevel(c, b, Ticks(i, c.baudDiv) + c.baudDiv + 1 - c.baudDiv / 2) == Bit(Frame(c, b), i)
  {
    HoldAt(Frame(c, b), c.baudDiv, i, c.baudDiv + 1 - c.baudDiv / 2);
  }

  lemma StartHears(c: Control, length: nat, e: Ear, pin: bool, state: nat, b: Byte)
    requires c.baudDiv >= 1 && !e.rx.sync2 && !e.rx.busy && e.header == Header(state, false, 0, 0)
    ensures Hearing(c, Hear(c, length, e, pin), state, 1, b)
  {
    hide Sample, BuildFrame, FrameBits;
    var v := Hear(c, length, e, pin);
    FrameShape(c, b);
    assert Ticks(0, c.baudDiv) == 0;
    assert LowFor(v.header, c.baudDiv, 1);
    TicksGrow(1, LowBits(c), c.baudDiv);
    TicksNext(0, c.baudDiv);
  }

  lemma NoBreakInFrame(c: Control, length: nat, e: Ear, age: nat, b: Byte)
    requires LowBits(c) < length <= 0xFFFF && e.rx.sync2 == FrameLevel(c, b, age)
    requires e.header.lowTick <= c.baudDiv && LowTime(e.header, c.baudDiv) <= age
    requires LowTime(e.header, c.baudDiv) <= Ticks(LowBits(c), c.baudDiv)
    ensures !BreakEnds(c, length, e)
    ensures !e.rx.sync2 ==> e.header.lowCounter < 0xFFFF && age < Ticks(LowBits(c), c.baudDiv)
  {
    hide Hold, Frame, Ticks, BreakEnds;
    if age >= Ticks(LowBits(c), c.baudDiv) { FrameRises(c, b, age); }
    TicksGrow(LowBits(c), length, c.baudDiv);
    if !e.rx.sync2 { EndsIff(c, length, e, LowTime(e.header, c.baudDiv)); } else { HighEndsNone(c, length, e); }
  }

  lemma HighEndsNone(c: Control, length: nat, e: Ear)
    requires e.rx.sync2
    ensures !BreakEnds(c, length, e)
  {
  }

  /** What an edge without the end of a break does to the low time. */
  lemma LowTimeMoves(c: Control, length: nat, e: Ear, pin: bool, age: nat)
    requires !BreakEnds(c, length, e) && e.header.lowTick <= c.baudDiv && LowTime(e.header, c.baudDiv) <= age
    requires !e.rx.sync2 ==> e.header.lowCounter < 0xFFFF
    ensures var v, n := Hear(c, length, e, pin), Listen(c, e);
      && v.rx == n.rx.(sync1 := pin, sync2 := e.rx.sync1)
      && v.header == n.header.(lowCounter := v.header.lowCounter, lowTick := v.header.lowTick)
      && v.header.lowTick <= c.baudDiv
      && LowTime(v.header, c.baudDiv) == if e.rx.sync2 then 0 else LowTime(e.header, c.baudDiv) + 1
  {
    hide Sample, NewFrame, NextByte, Ticks;
    TicksNext(e.header.lowCounter, c.baudDiv);
    NoTicks(c.baudDiv);
  }

  lemma NoTicks(d: nat)
    ensures Ticks(0, d) == 0
  {
  }

  /** Where the receiver is at `age` edges. */
  lemma PlaceOfAge(c: Control, e: Ear, state: nat, age: nat, b: Byte)
    requires Hearing(c, e, state, age, b)
    ensures age <= LastSample(c)
    ensures e.rx.index + 1 == Bits(c) && e.rx.counter == c.baudDiv <==> age == LastSample(c)
  {
    hide Sampled, FrameBits;
    TicksGrow(e.rx.index, Bits(c) - 1, c.baudDiv);
  }

  lemma HearingSamples(c: Control, e: Ear, state: nat, age: nat, b: Byte)
    requires c.baudDiv >= 2 && Hearing(c, e, state, age, b)
    requires e.rx.sync2 == FrameLevel(c, b, age) && age < LastSample(c)
    ensures var n := Listen(c, e);
      && n.rx.busy && n.rx.index < Bits(c) && n.rx.counter <= c.baudDiv && n.header == e.header
      && (n.rx.index == 0 ==> n.rx.counter >= c.baudDiv / 2)
      && age + 1 + c.baudDiv / 2 == 1 + Ticks(n.rx.index, c.baudDiv) + n.rx.counter
      && Sampled(c, n.rx.frame, n.rx.index, b)
  {
    hide Sampled, Sample, FrameBits, Hold, Frame, NextByte, Ticks, NewFrame;
    PlaceOfAge(c, e, state, age, b);
    FrameShape(c, b);
    if e.rx.counter == c.baudDiv {
      HeardBit(c, b, e.rx.index);
      assert age == Ticks(e.rx.index, c.baudDiv) + c.baudDiv + 1 - c.baudDiv / 2;
      assert e.rx.frame.total == Bits(c) by { SampledTotal(c, e.rx.frame, e.rx.index, b); }
      SampledNext(c, e.rx, b);
      TicksNext(e.rx.index, c.baudDiv);
    }
  }

  lemma SampledTotal(c: Control, f: Latch, i: nat, b: Byte)
    requires Sampled(c, f, i, b)
    ensures f.total == Bits(c)
  {
  }

  /** One edge within a frame. */
  lemma HearingStep(c: Control, length: nat, e: Ear, pin: bool, state: nat, age: nat, b: Byte)
    requires c.baudDiv >= 2 && LowBits(c) < length <= 0xFFFF
    requires Hearing(c, e, state, age, b) && e.rx.sync2 == FrameLevel(c, b, age) && age < LastSample(c)
    ensures Hearing(c, Hear(c, length, e, pin), state, age + 1, b)
  {
    hide Hear, Listen, BreakEnds, LowTime, Ticks, FrameLevel, FrameBits, Sampled;
    NoBreakInFrame(c, length, e, age, b);
    LowTimeMoves(c, length, e, pin, age);
    HearingSamples(c, e, state, age, b);
  }

  /** All bits but the last stop bit of a frame have been sampled. */
  lemma WholeFrame(c: Control, f: Latch, b: Byte)
    requires Sampled(c, f, Bits(c) - 1, b)
    ensures f.data == b && Clean(f)
  {
    FrameShape(c, b);
    hide FrameBits;
  }

  /** The edge that samples the last bit. */
  lemma HearingEnds(c: Control, length: nat, e: Ear, pin: bool, state: nat, b: Byte)
    requires c.baudDiv >= 2 && LowBits(c) < length <= 0xFFFF
    requires Hearing(c, e, state, LastSample(c), b) && e.rx.sync2 == FrameLevel(c, b, LastSample(c))
    ensures e.rx.index + 1 == e.rx.frame.total && e.rx.counter >= c.baudDiv && e.rx.frame.data == b && Clean(e.rx.frame)
    ensures state == 1 ==> (var v := Hear(c, length, e, pin); !v.rx.busy && v.header == Header(2, false, 0, 0))
  {
    hide Sampled, FrameBits, Ticks, Hold, Frame, Clean, NewFrame, Sample;
    PlaceOfAge(c, e, state, LastSample(c), b);
    SampledTotal(c, e.rx.frame, e.rx.index, b);
    WholeFrame(c, e.rx.frame, b);
    StopIsHigh(c, b);
  }

  lemma StopIsHigh(c: Control, b: Byte)
    requires c.baudDiv >= 2
    ensures FrameLevel(c, b, LastSample(c))
  {
    FrameShape(c, b);
    HeardBit(c, b, Bits(c) - 1);
  }

  lemma {:induction false} FrameRun(u: State, ins: seq<Input>, state: nat, age: nat, b: Byte)
    requires Tuned(u) && Quiet(ins) && u.control.baudDiv >= 2 && LowBits(u.control) < u.lin.breakLength
    requires Hearing(u.control, EarOf(u), state, age, b) && age + |ins| <= LastSample(u.control)
    requires forall k :: 0 <= k < |ins| ==> Seen(u, ins, k) == FrameLevel(u.control, b, age + k)
    ensures Through(u, Run(u, ins)) && Hearing(u.control, EarOf(Run(u, ins)), state, age + |ins|, b)
    decreases ins
  {
    hide Step, Sized, GateOk, Hear, Hearing, FrameLevel, LastSample, LowBits;
    if ins != [] {
      var i := ins[0];
      var v := Step(u, i.bus, i.pin);
      assert Seen(u, ins, 0) == FrameLevel(u.control, b, age + 0);
      NotYet(u, state, age, b);
      HearStep(u, i.bus, i.pin);
      HearingStep(u.control, u.lin.breakLength, EarOf(u), i.pin, state, age, b);
      SameHearing(u.control, EarOf(v), u.rx.fifo, state, age + 1, b);
      forall k | 0 <= k < |ins[1..]|
        ensures Seen(v, ins[1..], k) == FrameLevel(u.control, b, age + 1 + k)
      {
        SeenNext(u, ins, k);
      }
      SeenNext(u, ins, 0);
      FrameRun(v, ins[1..], state, age + 1, b);
    }
  }

  lemma NotYet(u: State, state: nat, age: nat, b: Byte)
    requires Hearing(u.control, EarOf(u), state, age, b) && age < LastSample(u.control)
    ensures !HeaderArrives(u)
  {
    hide Sampled, FrameBits, Ticks, HeaderMatches, Clean;
    PlaceOfAge(u.control, EarOf(u), state, age, b);
    SampledTotal(u.control, u.rx.frame, u.rx.index, b);
  }

  lemma SameHearing(c: Control, e: Ear, fifo: Rings.Ring<Byte>, state: nat, age: nat, b: Byte)
    requires Hearing(c, e.(rx := e.rx.(fifo := fifo)), state, age, b)
    ensures Hearing(c, e, state, age, b)
  {
    hide Sampled, FrameBits, Ticks;
  }

  // ---- runs one after another ----

  lemma {:induction false} RunAppend(u: State, a: seq<Input>, b: seq<Input>)
    requires Sized(u)
    ensures Sized(Run(u, a)) && Run(u, a + b) == Run(Run(u, a), b)
    decreases a
  {
    hide Step, Sized;
    if a == [] {
      assert a + b == b;
    } else {
      StepSized(u, a[0].bus, a[0].pin);
      assert (a + b)[1..] == a[1..] + b;
      RunAppend(Step(u, a[0].bus, a[0].pin), a[1..], b);
    }
  }

  lemma {:induction false} SeenAppend(u: State, a: seq<Input>, b: seq<Input>, k: nat)
    requires Tuned(u) && Quiet(a) && Quiet(b) && k < |b| + 2
    ensures Tuned(Run(u, a)) && Seen(Run(u, a), b, k) == Seen(u, a + b, |a| + k)
    decreases a
  {
    hide Step, Sized;
    if a == [] {
      assert a + b == b;
    } else {
      var v := Step(u, a[0].bus, a[0].pin);
      HearStep(u, a[0].bus, a[0].pin);
      assert (a + b)[1..] == a[1..] + b;
      SeenNext(u, a + b, |a| - 1 + k);
      SeenAppend(v, a[1..], b, k);
    }
  }

  lemma ThroughBoth(u: State, v: State, w: State)
    requires Through(u, v) && Through(v, w)
    ensures Through(u, w)
  {
    hide Tuned, GateOk;
  }

  /** The run up to edge `q` goes on from the one up to edge `p`, and the receiver there sees what is left. */
  lemma Later(u: State, ins: seq<Input>, p: nat, q: nat)
    requires Sized(u) && Tuned(u) && Quiet(ins) && p <= q <= |ins|
    ensures Tuned(Run(u, ins[..p])) && Run(u, ins[..q]) == Run(Run(u, ins[..p]), ins[p..q]) && Quiet(ins[p..q])
    ensures forall k :: 0 <= k < q - p ==> Seen(Run(u, ins[..p]), ins[p..q], k) == Seen(u, ins, p + k)
  {
    hide Tuned, Seen, Run, Quiet, Sized;
    QuietParts(ins, p, q);
    assert ins[..q] == ins[..p] + ins[p..q];
    RunAppend(u, ins[..p], ins[p..q]);
    SeenAppend(u, ins[..p], ins[p..q], 0);
    forall k | 0 <= k < q - p
      ensures Seen(Run(u, ins[..p]), ins[p..q], k) == Seen(u, ins, p + k)
    {
      SeenAppend(u, ins[..p], ins[p..q], k);
      SeenPrefix(u, ins, q, p + k);
    }
  }

  lemma QuietParts(ins: seq<Input>, p: nat, q: nat)
    requires Quiet(ins) && p <= q <= |ins|
    ensures Quiet(ins[..p]) && Quiet(ins[p..q])
  {
  }

  lemma TunedSized(u: State)
    requires Tuned(u)
    ensures Sized(u)
  {
  }

  lemma SeenPrefix(u: State, ins: seq<Input>, q: nat, k: nat)
    requires k < q <= |ins|
    ensures Seen(u, ins[..q], k) == Seen(u, ins, k)
  {
  }

  // ---- the pin ----

  /** On the pin: low for the break, high, the frame of the sync byte, high again, the frame of the identifier. */
  function HeaderPin(c: Control, low: nat, rise: nat, sync: Byte, gap: nat, id: Byte, k: nat): bool {
    var frame := LastSample(c) + 1;
    if k < low then false
    else if k < low + rise then true
    else if k < low + rise + frame then FrameLevel(c, sync, k - low - rise)
    else if k < low + rise + frame + gap then true
    else FrameLevel(c, id, k - low - rise - frame - gap)
  }

  /** A resting line, then low for a whole break: the header's state stays 0 until two edges, for the synchronizer,
      and breakLength * (divider + 1) edges have passed, and is then 1, with the receive FIFO empty. */
  lemma BreakOnPin(u: State, ins: seq<Input>)
    requires Tuned(u) && Quiet(ins) && Ready(u, 0) && u.rx.sync1 && u.rx.sync2
    requires |ins| <= 2 + Ticks(u.lin.breakLength, u.control.baudDiv)
    requires forall k :: 0 <= k < |ins| - 2 ==> !ins[k].pin
    ensures var v := Run(u, ins);
      && Through(u, v)
      && (if |ins| == 2 + Ticks(u.lin.breakLength, u.control.baudDiv) then Heard(v) && v.rx.fifo.IsEmpty()
          else v.lin.header.state == 0)
  {
    hide Tuned, Through, Heard, LowFor, Ticks, Run, Seen, Ready, Quiet, Sized;
    TunedSized(u);
    BreakTakesTime(u);
    assert ins[..|ins|] == ins;
    if |ins| <= 2 {
      RestSeen(u, ins);
      HighRun(u, ins, 0);
      ReadyIsNotLow(Run(u, ins), u.control.baudDiv);
    } else {
      QuietParts(ins, 2, |ins|);
      RestSeen(u, ins[..2]);
      HighRun(u, ins[..2], 0);
      var v := Run(u, ins[..2]);
      SameSettings(u, v);
      TunedSized(v);
      Later(u, ins, 2, |ins|);
      ReadyIsNotLow(v, u.control.baudDiv);
      forall k | 0 <= k < |ins| - 2
        ensures !Seen(v, ins[2..|ins|], k)
      {
        PinIsSeen(u, ins, k);
      }
      BreakRun(v, ins[2..|ins|], 0);
      ThroughBoth(u, v, Run(u, ins));
    }
  }

  lemma BreakTakesTime(u: State)
    requires Tuned(u)
    ensures Ticks(u.lin.breakLength, u.control.baudDiv) >= 1
  {
  }

  lemma RestSeen(u: State, ins: seq<Input>)
    requires u.rx.sync1 && u.rx.sync2 && |ins| <= 2
    ensures forall k :: 0 <= k < |ins| ==> Seen(u, ins, k)
  {
  }

  lemma PinIsSeen(u: State, ins: seq<Input>, k: nat)
    requires k < |ins|
    ensures Seen(u, ins, 2 + k) == ins[k].pin
  {
  }

  lemma SameSettings(u: State, v: State)
    requires Through(u, v)
    ensures v.control == u.control && v.lin.breakLength == u.lin.breakLength && v.lin.slave == u.lin.slave && Tuned(v)
    ensures GateOk(u.lin) && u.lin.gate.armed ==> GateOk(v.lin) && v.lin.gate == u.lin.gate
  {
    hide Tuned, GateOk;
  }

  lemma ReadyIsNotLow(u: State, d: nat)
    requires Ready(u, 0)
    ensures LowFor(u.lin.header, d, 0) && u.lin.header.state == 0
  {
    NoTicks(d);
  }

  /** The frame of a byte, up to the edge that samples its last bit. */
  lemma ByteBegins(u: State, ins: seq<Input>, state: nat, b: Byte)
    requires Tuned(u) && Quiet(ins) && u.control.baudDiv >= 2 && LowBits(u.control) < u.lin.breakLength
    requires Ready(u, state) && |ins| == LastSample(u.control)
    requires forall k :: 0 <= k < |ins| ==> Seen(u, ins, k) == FrameLevel(u.control, b, k)
    ensures Through(u, Run(u, ins)) && Hearing(u.control, EarOf(Run(u, ins)), state, LastSample(u.control), b)
  {
    hide Step, Sized, GateOk, Hear, Hearing, FrameLevel, LowBits, BreakEnds;
    SampleIsLate(u.control);
    var i := ins[0];
    var v := Step(u, i.bus, i.pin);
    assert Seen(u, ins, 0) == FrameLevel(u.control, b, 0);
    StartLevel(u.control, b);
    HearStep(u, i.bus, i.pin);
    StartHears(u.control, u.lin.breakLength, EarOf(u), i.pin, state, b);
    SameHearing(u.control, EarOf(v), u.rx.fifo, state, 1, b);
    forall k | 0 <= k < |ins[1..]|
      ensures Seen(v, ins[1..], k) == FrameLevel(u.control, b, 1 + k)
    {
      SeenNext(u, ins, k);
    }
    SeenNext(u, ins, 0);
    FrameRun(v, ins[1..], state, 1, b);
    ThroughBoth(u, v, Run(v, ins[1..]));
  }

  lemma SampleIsLate(c: Control)
    ensures LastSample(c) >= 1
  {
  }

  /** The last sample of the sync byte's frame, whatever the byte. */
  lemma SyncEnds(u: State, i: Input, b: Byte)
    requires Tuned(u) && Spares(i.bus) && u.control.baudDiv >= 2 && LowBits(u.control) < u.lin.breakLength
    requires Hearing(u.control, EarOf(u), 1, LastSample(u.control), b)
    requires u.rx.sync2 == FrameLevel(u.control, b, LastSample(u.control))
    ensures Through(u, Run(u, [i])) && Ready(Run(u, [i]), 2)
  {
    hide Step, Sized, GateOk, Hear, FrameLevel, LowBits, BreakEnds, Sampled, FrameBits, Ticks;
    var v := Step(u, i.bus, i.pin);
    HearStep(u, i.bus, i.pin);
    HearingEnds(u.control, u.lin.breakLength, EarOf(u), i.pin, 1, b);
    assert Run(u, [i]) == v;
  }

  /** The identifier's frame brings the header to the slave, if it is the slave's. */
  lemma IdArrives(u: State, b: Byte)
    requires Tuned(u) && u.control.baudDiv >= 2 && LowBits(u.control) < u.lin.breakLength
    requires Hearing(u.control, EarOf(u), 2, LastSample(u.control), b)
    requires GateOk(u.lin) && u.lin.gate.armed && u.lin.slave.length != 0
    ensures HeaderArrives(u) <==> b == u.lin.slave.matchId
  {
    hide Sampled, FrameBits, Ticks, Clean, BuildFrame;
    PlaceOfAge(u.control, EarOf(u), 2, LastSample(u.control), b);
    SampledTotal(u.control, u.rx.frame, u.rx.index, b);
    WholeFrame(u.control, u.rx.frame, b);
  }

  /** A resting line, then break, delimiter, sync byte and identifier before an armed slave, up to the edge that samples
      the last bit; the divider is at least 2 and the break longer than the low bits of a frame. */
  predicate Carries(u: State, ins: seq<Input>, low: nat, rise: nat, sync: Byte, gap: nat, id: Byte) {
    var c := u.control;
    && Tuned(u) && Quiet(ins) && Ready(u, 0) && u.rx.sync1 && u.rx.sync2
    && c.baudDiv >= 2 && LowBits(c) < u.lin.breakLength
    && GateOk(u.lin) && u.lin.gate.armed && u.lin.slave.length != 0
    && low >= Ticks(u.lin.breakLength, c.baudDiv) && rise >= 1
    && |ins| == 2 + low + rise + LastSample(c) + 1 + gap + LastSample(c)
    && forall k :: 0 <= k < |ins| - 2 ==> ins[k].pin == HeaderPin(c, low, rise, sync, gap, id, k)
  }

  lemma PinSeen(u: State, ins: seq<Input>, low: nat, rise: nat, sync: Byte, gap: nat, id: Byte, k: nat)
    requires Carries(u, ins, low, rise, sync, gap, id) && k < |ins|
    ensures Seen(u, ins, k) == if k < 2 then true else HeaderPin(u.control, low, rise, sync, gap, id, k - 2)
  {
    hide HeaderPin, LastSample, Ticks, GateOk, Tuned, Quiet;
  }

  lemma AfterDelimiter(u: State, ins: seq<Input>, low: nat, rise: nat, sync: Byte, gap: nat, id: Byte)
    requires Sized(u) && Carries(u, ins, low, rise, sync, gap, id)
    ensures var v := Run(u, ins[..2 + low + 1]); Through(u, v) && Ready(v, 1)
  {
    hide Sized, Tuned, Through, Heard, Ticks, FrameLevel, LastSample, Ready, Run, Quiet, GateOk, Seen;
    var p0, p1 := 2 + Ticks(u.lin.breakLength, u.control.baudDiv), 2 + low + 1;
    forall k | 0 <= k < p0 - 2
      ensures !ins[..p0][k].pin
    {
    }
    QuietPrefix(ins, p0);
    BreakOnPin(u, ins[..p0]);
    var v := Run(u, ins[..p0]);
    Later(u, ins, p0, p1);
    forall k | 0 <= k < p1 - p0
      ensures Seen(v, ins[p0..p1], k) == (k == p1 - p0 - 1)
    {
      PinSeen(u, ins, low, rise, sync, gap, id, p0 + k);
    }
    DelimiterRun(v, ins[p0..p1]);
    ThroughBoth(u, v, Run(u, ins[..p1]));
  }

  lemma QuietPrefix(ins: seq<Input>, p: nat)
    requires Quiet(ins) && p <= |ins|
    ensures Quiet(ins[..p])
  {
  }

  lemma BeforeSync(u: State, ins: seq<Input>, low: nat, rise: nat, sync: Byte, gap: nat, id: Byte)
    requires Sized(u) && Carries(u, ins, low, rise, sync, gap, id)
    ensures var v := Run(u, ins[..2 + low + rise]); Through(u, v) && Ready(v, 1)
  {
    hide Sized, Tuned, Through, Ticks, FrameLevel, LastSample, Ready, Run, Quiet, GateOk, Seen;
    AfterDelimiter(u, ins, low, rise, sync, gap, id);
    var p, q := 2 + low + 1, 2 + low + rise;
    var v := Run(u, ins[..p]);
    Later(u, ins, p, q);
    forall k | 0 <= k < q - p
      ensures Seen(v, ins[p..q], k)
    {
      PinSeen(u, ins, low, rise, sync, gap, id, p + k);
    }
    HighRun(v, ins[p..q], 1);
    ThroughBoth(u, v, Run(u, ins[..q]));
  }

  lemma AtSync(u: State, ins: seq<Input>, low: nat, rise: nat, sync: Byte, gap: nat, id: Byte)
    requires Sized(u) && Carries(u, ins, low, rise, sync, gap, id)
    ensures var v := Run(u, ins[..2 + low + rise + LastSample(u.control)]);
      Through(u, v) && Hearing(u.control, EarOf(v), 1, LastSample(u.control), sync)
  {
    hide Sized, Tuned, Through, Ticks, FrameLevel, LastSample, Ready, Run, Quiet, GateOk, Seen, Hearing;
    TunedSized(u);
    BeforeSync(u, ins, low, rise, sync, gap, id);
    var c, n := u.control, LastSample(u.control);
    var p := 2 + low + rise;
    var q := p + n;
    var v := Run(u, ins[..p]);
    SameSettings(u, v);
    Later(u, ins, p, q);
    forall k | 0 <= k < n
      ensures Seen(v, ins[p..q], k) == FrameLevel(c, sync, k)
    {
      PinSeen(u, ins, low, rise, sync, gap, id, p + k);
    }
    ByteBegins(v, ins[p..q], 1, sync);
    ThroughBoth(u, v, Run(u, ins[..q]));
  }

  lemma AfterSync(u: State, ins: seq<Input>, low: nat, rise: nat, sync: Byte, gap: nat, id: Byte)
    requires Sized(u) && Carries(u, ins, low, rise, sync, gap, id)
    ensures var v := Run(u, ins[..2 + low + rise + LastSample(u.control) + 1]); Through(u, v) && Ready(v, 2)
  {
    hide Sized, Tuned, Through, Ticks, FrameLevel, LastSample, Ready, Run, Quiet, GateOk, Seen, Hearing;
    TunedSized(u);
    AtSync(u, ins, low, rise, sync, gap, id);
    var q := 2 + low + rise + LastSample(u.control);
    var w := Run(u, ins[..q]);
    SameSettings(u, w);
    Later(u, ins, q, q + 1);
    assert ins[q..q + 1] == [ins[q]];
    PinSeen(u, ins, low, rise, sync, gap, id, q);
    FirstSeen(w, ins[q..q + 1]);
    SparedAt(ins, q);
    SyncEnds(w, ins[q], sync);
    ThroughBoth(u, w, Run(u, ins[..q + 1]));
  }

  lemma FirstSeen(u: State, ins: seq<Input>)
    ensures Seen(u, ins, 0) == u.rx.sync2
  {
  }

  lemma SparedAt(ins: seq<Input>, k: nat)
    requires Quiet(ins) && k < |ins|
    ensures Spares(ins[k].bus)
  {
  }

  lemma BeforeId(u: State, ins: seq<Input>, low: nat, rise: nat, sync: Byte, gap: nat, id: Byte)
    requires Sized(u) && Carries(u, ins, low, rise, sync, gap, id)
    ensures var v := Run(u, ins[..2 + low + rise + LastSample(u.control) + 1 + gap]); Through(u, v) && Ready(v, 2)
  {
    hide Sized, Tuned, Through, Ticks, FrameLevel, LastSample, Ready, Run, Quiet, GateOk, Seen;
    TunedSized(u);
    AfterSync(u, ins, low, rise, sync, gap, id);
    var p := 2 + low + rise + LastSample(u.control) + 1;
    var q := p + gap;
    var v := Run(u, ins[..p]);
    Later(u, ins, p, q);
    forall k | 0 <= k < gap
      ensures Seen(v, ins[p..q], k)
    {
      PinSeen(u, ins, low, rise, sync, gap, id, p + k);
    }
    HighRun(v, ins[p..q], 2);
    ThroughBoth(u, v, Run(u, ins[..q]));
  }

  /** From the pin to the slave: whatever the sync byte, with the edge that samples the identifier's last bit the header
      arrives exactly if the identifier is the slave's; until then settings and gate are as they were. */
  lemma HeaderOnPinArrives(u: State, ins: seq<Input>, low: nat, rise: nat, sync: Byte, gap: nat, id: Byte)
    requires Sized(u) && Carries(u, ins, low, rise, sync, gap, id)
    ensures Through(u, Run(u, ins)) && (HeaderArrives(Run(u, ins)) <==> id == u.lin.slave.matchId)
  {
    hide Sized, Tuned, Through, Ticks, FrameLevel, LastSample, Ready, Run, Quiet, GateOk, Seen, Hearing, HeaderArrives;
    TunedSized(u);
    BeforeId(u, ins, low, rise, sync, gap, id);
    var c, n := u.control, LastSample(u.control);
    var q := 2 + low + rise + n + 1 + gap;
    var w := Run(u, ins[..q]);
    SameSettings(u, w);
    assert ins[..|ins|] == ins;
    Later(u, ins, q, |ins|);
    forall k | 0 <= k < n
      ensures Seen(w, ins[q..|ins|], k) == FrameLevel(c, id, k)
    {
      PinSeen(u, ins, low, rise, sync, gap, id, q + k);
    }
    ByteBegins(w, ins[q..|ins|], 2, id);
    ThroughBoth(u, w, Run(u, ins));
    SameSettings(u, Run(u, ins));
    IdArrives(Run(u, ins), id);
  }

  /** And is answered: none leaves in the cycle in which it arrives, and when the response has ended exactly the
      configured number of bytes has left, or fewer and the underflow flag is set. */
  lemma HeaderOnPinIsAnswered(u: State, ins: seq<Input>, low: nat, rise: nat, sync: Byte, gap: nat, id: Byte,
                              bus: Bus, pin: bool, rest: seq<Input>)
    requires Sized(u) && Carries(u, ins, low, rise, sync, gap, id) && id == u.lin.slave.matchId
    requires bus.WriteControl? ==> bus.enable
    requires Sized(Run(u, ins)) && Sized(Step(Run(u, ins), bus, pin)) && Responding(Step(Run(u, ins), bus, pin), rest)
    ensures !TakesByte(Run(u, ins))
    ensures var v := Step(Run(u, ins), bus, pin);
      var w, sent, owed := Run(v, rest), BytesOut(v, rest), u.lin.slave.length;
      if w.lin.gate.pending then sent + w.lin.gate.remaining == owed && sent < owed && !w.lin.gate.underflow
      else sent <= owed && (w.lin.gate.underflow <==> sent < owed)
  {
    hide Tuned, Through, Run, Quiet, GateOk, HeaderArrives, Step, Responding, BytesOut, TakesByte, Sized;
    HeaderOnPinArrives(u, ins, low, rise, sync, gap, id);
    SameSettings(u, Run(u, ins));
    HeaderIsAnswered(Run(u, ins), bus, pin, rest);
  }
}
