/** Two UART halves joined by a wire: when each bit is on the line, and when it is sampled.

    With LIN off the transmitter and the receiver run on their own (`PlainStep`). A monitor keeps the frames that
    have been loaded but not yet received, each with its age in clock edges; the age fixes the level of the line,
    of the two synchronizer flops, and the receiver's place in the frame, for every divider. */
module WireTiming {
  import opened Rings
  import opened Uart

  // ---- with LIN off the two halves run on their own ----

  /** LIN is off and has left nothing behind that would hold or feed the transmitter. */
  predicate Plain(u: State) {
    && u.control.enable && !u.control.lin
    && !u.lin.brk.active && u.lin.brk.autoState == 0 && !u.lin.gate.armed && !u.lin.gate.pending
  }

  /** Bus traffic that leaves the control, divider and LIN command registers alone. */
  predicate Ordinary(bus: Bus) { !bus.WriteControl? && !bus.WriteBaud? && !bus.LinCommand? }

  predicate RingOk(r: Ring<Byte>) { r.Cap() == DEPTH && r.head < 2 * DEPTH && r.tail < 2 * DEPTH }

  function Frame(c: Control, b: Byte): seq<bool> { BuildFrame(b, c.parity, c.odd) }

  function Bits(c: Control): nat { FrameBits(c.parity, c.twoStop) }

  predicate Loads(t: Tx) { t.bits == 0 && !t.fifo.IsEmpty() }

  function Queued(f: Ring<Byte>, bus: Bus): Ring<Byte>
    requires RingOk(f)
  {
    if bus.WriteData? && !FlagFull(f) then f.Push(bus.data) else f
  }

  function TxNext(c: Control, t: Tx, bus: Bus): Tx
    requires RingOk(t.fifo)
  {
    var q := Queued(t.fifo, bus);
    if Loads(t) then t.(fifo := q.Pop(), shift := Frame(c, t.fifo.Front()), bits := Bits(c), counter := 0)
    else if t.bits == 0 then t.(fifo := q)
    else if t.counter >= c.baudDiv then
      t.(fifo := q, counter := 0, bits := t.bits - 1,
         line := if t.shift == [] then true else t.shift[0],
         shift := if t.shift == [] then [] else t.shift[1..] + [true])
    else t.(fifo := q, counter := t.counter + 1)
  }

  function Drained(f: Ring<Byte>, bus: Bus): Ring<Byte> {
    if bus.ReadData? && !f.IsEmpty() then f.Pop() else f
  }

  /** The last bit of a frame is sampled on this edge. */
  predicate Ends(c: Control, r: Rx) { r.busy && r.counter >= c.baudDiv && r.index + 1 == r.frame.total }

  function RxNext(c: Control, r: Rx, bus: Bus, pin: bool): Rx
    requires RingOk(r.fifo)
  {
    var n := r.(sync1 := pin, sync2 := r.sync1, fifo := Drained(r.fifo, bus));
    if !r.busy then
      if r.sync2 then n
      else n.(busy := true, counter := c.baudDiv / 2, index := 0, frame := NewFrame(c))
    else if r.counter >= c.baudDiv then
      var s := n.(counter := 0, index := (r.index + 1) % 32, frame := Sample(r));
      if Ends(c, r) then Deliver(r, s.(busy := false)) else s
    else n.(counter := r.counter + 1)
  }

  function Deliver(r: Rx, n: Rx): Rx
    requires RingOk(r.fifo)
  {
    if Clean(r.frame) && !FlagFull(r.fifo) then
      var pushed := r.fifo.Push(r.frame.data);
      n.(fifo := n.fifo.(buf := pushed.buf, head := pushed.head))
    else n
  }

  lemma PlainBus(u: State, n: State, bus: Bus)
    requires Sized(u) && Plain(u) && Ordinary(bus) && Plain(n) && n.control == u.control && n.tx == u.tx
        && n.rx.fifo == u.rx.fifo
    ensures var v := BusStage(u, n, bus);
      && v.control == u.control && Plain(v)
      && v.tx == u.tx.(fifo := Queued(u.tx.fifo, bus)) && v.rx == n.rx.(fifo := Drained(u.rx.fifo, bus))
  {
    hide FlagFull, CommandStage;
  }

  lemma PlainTx(u: State, n: State, bus: Bus)
    requires Sized(u) && Plain(u) && Plain(n) && n.control == u.control
    requires n.tx == u.tx.(fifo := Queued(u.tx.fifo, bus))
    ensures BreakStage(u, n) == n
    ensures var v := TxStage(u, n);
      v.control == n.control && Plain(v) && v.rx == n.rx && v.tx == TxNext(u.control, u.tx, bus)
  {
    hide BuildFrame, FrameBits, FlagFull;
    assert n.tx.fifo.tail == u.tx.fifo.tail && n.tx.fifo.Cap() == DEPTH;
  }

  lemma PlainFinish(u: State, n: State)
    requires Sized(u) && Plain(u) && Plain(n) && n.control == u.control
    ensures FinishFrame(u, n) == n.(rx := Deliver(u.rx, n.rx))
  {
    hide Clean, FlagFull;
  }

  lemma PlainRx(u: State, n: State, bus: Bus, pin: bool)
    requires Sized(u) && Plain(u) && Plain(n) && n.control == u.control
    requires n.rx == u.rx.(sync1 := pin, sync2 := u.rx.sync1, fifo := Drained(u.rx.fifo, bus))
    ensures var v := RxStage(u, n);
      v.control == n.control && Plain(v) && v.tx == n.tx && v.rx == RxNext(u.control, u.rx, bus, pin)
  {
    hide FinishFrame, Deliver, FrameBits, Sample, Drained;
    if u.rx.busy && u.rx.counter >= u.control.baudDiv {
      var s := n.(rx := n.rx.(counter := 0, index := (u.rx.index + 1) % 32, frame := Sample(u.rx)));
      PlainFinish(u, s.(rx := s.rx.(busy := false)));
    }
  }

  lemma PlainDetect(u: State, n: State)
    requires Plain(u) && Plain(n)
    ensures var v := DetectStage(u, n);
      v.control == n.control && Plain(v) && v.tx == n.tx && v.rx == n.rx
  {
  }

  /** One edge with LIN off: transmitter and receiver move independently, and LIN stays off. */
  lemma PlainStep(u: State, bus: Bus, pin: bool)
    requires Sized(u) && Plain(u) && Ordinary(bus)
    ensures Sized(Step(u, bus, pin))
    ensures var v := Step(u, bus, pin);
      && Plain(v) && v.control == u.control
      && v.tx == TxNext(u.control, u.tx, bus) && v.rx == RxNext(u.control, u.rx, bus, pin)
  {
    hide BusStage, BreakStage, TxStage, RxStage, DetectStage, Queued, Drained, TxNext, RxNext;
    StepSized(u, bus, pin);
    var n0 := u.(rx := u.rx.(sync1 := pin, sync2 := u.rx.sync1));
    PlainBus(u, n0, bus);
    var n1 := BusStage(u, n0, bus);
    PlainTx(u, n1, bus);
    var n3 := TxStage(u, n1);
    PlainRx(u, n3, bus, pin);
    PlainDetect(u, RxStage(u, n3));
  }

  // ---- levels on the line ----

  /** Clock edges in `i` bit periods. */
  function Ticks(i: nat, d: nat): nat { if i == 0 then 0 else Ticks(i - 1, d) + d + 1 }

  /** The level `x` edges into sending `bits`, one bit every `d + 1` edges; the line rests high. */
  function Hold(bits: seq<bool>, d: nat, x: nat): bool {
    if bits == [] then true else if x <= d then bits[0] else Hold(bits[1..], d, x - (d + 1))
  }

  /** The level `x` edges after a frame was loaded: the line stays high for one more bit period. */
  function Wave(f: seq<bool>, d: nat, x: nat): bool { if x <= d then true else Hold(f, d, x - (d + 1)) }

  function Bit(f: seq<bool>, i: nat): bool { if i < |f| then f[i] else true }

  lemma {:induction false} HoldAt(f: seq<bool>, d: nat, i: nat, j: nat)
    requires j <= d
    ensures Hold(f, d, Ticks(i, d) + j) == Bit(f, i)
    decreases i
  {
    if i > 0 && f != [] { HoldAt(f[1..], d, i - 1, j); }
  }

  lemma WaveAt(f: seq<bool>, d: nat, i: nat, j: nat)
    requires j <= d
    ensures Wave(f, d, Ticks(i + 1, d) + j) == Bit(f, i)
  {
    HoldAt(f, d, i, j);
    assert Ticks(i + 1, d) + j - (d + 1) == Ticks(i, d) + j;
  }

  lemma {:induction false} HoldRests(f: seq<bool>, d: nat, n: nat, x: nat)
    requires forall i :: n <= i < |f| ==> f[i]
    requires x >= Ticks(n, d)
    ensures Hold(f, d, x)
    decreases |f|
  {
    if f != [] {
      if n == 0 {
        if x > d { HoldRests(f[1..], d, 0, x - (d + 1)); }
      } else {
        HoldRests(f[1..], d, n - 1, x - (d + 1));
      }
    }
  }

  lemma {:induction false} TicksGrow(i: nat, j: nat, d: nat)
    requires i <= j
    ensures Ticks(i, d) <= Ticks(j, d)
    ensures i < j ==> Ticks(i, d) + d + 1 <= Ticks(j, d)
    decreases j
  {
    if i < j { TicksGrow(i, j - 1, d); }
  }

  lemma FrameShape(c: Control, b: Byte)
    ensures 10 <= Bits(c) <= 12 && |Frame(c, b)| == MAX_FRAME && !Frame(c, b)[0]
    ensures forall k :: 0 <= k < 8 ==> Frame(c, b)[k + 1] == b[k]
    ensures c.parity ==> Bits(c) >= 11 && Frame(c, b)[9] == (Parity(b) != c.odd)
    ensures forall i :: Bits(c) - 1 <= i < MAX_FRAME ==> Frame(c, b)[i]
    ensures forall i :: (if c.parity then 10 else 9) <= i < MAX_FRAME ==> Frame(c, b)[i]
  {
  }

  /** From the last stop bit on the line is high. */
  lemma WaveRests(c: Control, b: Byte, x: nat)
    requires x >= Ticks(Bits(c), c.baudDiv)
    ensures Wave(Frame(c, b), c.baudDiv, x)
  {
    FrameShape(c, b);
    hide FrameBits, BuildFrame;
    var d := c.baudDiv;
    assert Ticks(Bits(c), d) == Ticks(Bits(c) - 1, d) + d + 1;
    HoldRests(Frame(c, b), d, Bits(c) - 1, x - (d + 1));
  }

  // ---- frames in flight ----

  datatype Flight = Flight(byte: Byte, age: nat)

  function Older(m: seq<Flight>): (o: seq<Flight>)
    ensures |o| == |m|
    ensures forall i :: 0 <= i < |m| ==> o[i] == Flight(m[i].byte, m[i].age + 1)
  {
    if m == [] then [] else [Flight(m[0].byte, m[0].age + 1)] + Older(m[1..])
  }

  /** The frames in flight after an edge. */
  function FlightsNext(c: Control, t: Tx, r: Rx, m: seq<Flight>): seq<Flight>
    requires RingOk(t.fifo)
  {
    var left := if Ends(c, r) && m != [] then Older(m[1..]) else Older(m);
    if Loads(t) then left + [Flight(t.fifo.Front(), 0)] else left
  }

  function LevelOf(c: Control, z: Flight, k: nat): bool {
    if z.age >= k then Wave(Frame(c, z.byte), c.baudDiv, z.age - k) else true
  }

  /** The level of the line `k` edges ago. */
  function Level(c: Control, m: seq<Flight>, k: nat): bool {
    if m == [] then true
    else if m[|m| - 1].age >= k then LevelOf(c, m[|m| - 1], k)
    else if |m| >= 2 then LevelOf(c, m[|m| - 2], k)
    else true
  }

  /** At most two frames are in flight, loaded a whole frame apart. */
  predicate FlightsOk(c: Control, m: seq<Flight>) {
    && |m| <= 2
    && (|m| == 2 ==> m[0].age >= m[1].age + Ticks(Bits(c), c.baudDiv) + 1)
  }

  /** The transmitter is where the age of the newest frame says. */
  predicate TxOk(c: Control, t: Tx, m: seq<Flight>) {
    && t.line == Level(c, m, 0)
    && t.bits <= Bits(c)
    && (t.bits == 0 && m != [] ==> m[|m| - 1].age >= Ticks(Bits(c), c.baudDiv))
    && (t.bits > 0 ==>
          && m != [] && t.counter <= c.baudDiv
          && m[|m| - 1].age == Ticks(Bits(c) - t.bits, c.baudDiv) + t.counter
          && |t.shift| == MAX_FRAME
          && (forall i :: 0 <= i < MAX_FRAME ==>
                t.shift[i] == Bit(Frame(c, m[|m| - 1].byte), Bits(c) - t.bits + i)))
  }

  /** Once `i` bits have been sampled, they are those of `b`. */
  predicate Sampled(c: Control, f: Latch, i: nat, b: Byte) {
    && !f.startError && !f.stopError && f.total == Bits(c) && f.parity == c.parity && f.odd == c.odd
    && (forall k :: 0 <= k < 8 && k + 1 < i ==> f.data[k] == b[k])
    && (c.parity && i >= 10 ==> f.parityBit == Frame(c, b)[9])
  }

  /** The receiver's place in the frame follows from the age of the oldest frame in flight. */
  predicate InStep(c: Control, r: Rx, age: nat) {
    && r.busy && r.index < Bits(c) && r.counter <= c.baudDiv
    && (r.index == 0 ==> r.counter >= c.baudDiv / 2)
    && age + c.baudDiv / 2 == c.baudDiv + 4 + Ticks(r.index, c.baudDiv) + r.counter
  }

  /** The synchronizer shows the line of one and two edges ago, and the receiver is where the oldest frame's age
      says. */
  predicate RxPlace(c: Control, r: Rx, m: seq<Flight>) {
    && r.sync1 == Level(c, m, 1) && r.sync2 == Level(c, m, 2)
    && (if m == [] || m[0].age <= c.baudDiv + 3 then !r.busy else InStep(c, r, m[0].age) && r.frame.total == Bits(c))
  }

  /** Both halves are where the ages of the frames in flight say. */
  predicate TimingOk(c: Control, t: Tx, r: Rx, m: seq<Flight>) {
    RingOk(t.fifo) && RingOk(r.fifo) && FlightsOk(c, m) && TxOk(c, t, m) && RxPlace(c, r, m)
  }

  /** With a divider of at least 2, besides, every bit sampled is the bit sent. */
  predicate WireOk(c: Control, t: Tx, r: Rx, m: seq<Flight>) {
    && c.baudDiv >= 2 && TimingOk(c, t, r, m)
    && (r.busy ==> m != [] && Sampled(c, r.frame, r.index, m[0].byte))
  }

  // ---- one edge ----

  /** A frame in flight is younger than the sampling of its last bit. */
  lemma AgeBound(c: Control, r: Rx, m: seq<Flight>)
    requires RxPlace(c, r, m) && m != []
    ensures m[0].age <= Ticks(Bits(c), c.baudDiv) + c.baudDiv - c.baudDiv / 2 + 3
    ensures Ticks(Bits(c), c.baudDiv) > 2 * c.baudDiv + 4
    ensures Ends(c, r) ==> m[0].age == Ticks(Bits(c), c.baudDiv) + c.baudDiv - c.baudDiv / 2 + 3
  {
    hide Level;
    var d, n := c.baudDiv, Bits(c);
    TicksGrow(5, n, d);
    TicksGrow(4, 5, d);
    TicksGrow(3, 4, d);
    TicksGrow(2, 3, d);
    TicksGrow(1, 2, d);
    assert Ticks(n, d) == Ticks(n - 1, d) + d + 1;
    if m[0].age > d + 3 { TicksGrow(r.index, n - 1, d); }
  }

  /** The transmitter is busy while two frames are in flight, and while the newest has not aged a whole frame. */
  lemma NoThird(c: Control, t: Tx, r: Rx, m: seq<Flight>)
    requires TimingOk(c, t, r, m)
    ensures |m| == 2 ==> t.bits > 0
    ensures t.bits > 0 && Ends(c, r) ==> |m| == 2
  {
    hide Sampled, Level, FrameBits, BuildFrame;
    var d, n := c.baudDiv, Bits(c);
    if m != [] { AgeBound(c, r, m); }
    if t.bits > 0 && Ends(c, r) && |m| == 1 {
      TicksGrow(n - t.bits, n - 1, d);
    }
  }

  /** The oldest frame after an edge. */
  lemma OldestNext(c: Control, t: Tx, r: Rx, m: seq<Flight>)
    requires RingOk(t.fifo) && |m| <= 2
    ensures var v := FlightsNext(c, t, r, m);
      if Ends(c, r) && m != [] then v == [] || v[0].age == (if |m| == 2 then m[1].age + 1 else 0)
      else if m == [] then v == [] || v[0].age == 0
      else v != [] && v[0] == Flight(m[0].byte, m[0].age + 1)
  {
    hide Ends, Loads;
  }

  /** The newest frame after an edge that loads none. */
  lemma NewestNext(c: Control, t: Tx, r: Rx, m: seq<Flight>)
    requires RingOk(t.fifo) && m != [] && !Loads(t) && (Ends(c, r) ==> |m| == 2)
    ensures var v, z := FlightsNext(c, t, r, m), m[|m| - 1];
      v != [] && v[|v| - 1] == Flight(z.byte, z.age + 1)
          && Level(c, v, 0) == Wave(Frame(c, z.byte), c.baudDiv, z.age + 1)
  {
    hide Ends, Loads, Wave;
  }

  /** The level history moves along by one edge. */
  lemma LevelShifts(c: Control, t: Tx, r: Rx, m: seq<Flight>, k: nat)
    requires TimingOk(c, t, r, m) && k <= 1
    ensures Level(c, FlightsNext(c, t, r, m), k + 1) == Level(c, m, k)
  {
    hide TxOk, InStep, Sampled, FrameBits, BuildFrame, Wave;
    NoThird(c, t, r, m);
    if m != [] { AgeBound(c, r, m); }
    if Ends(c, r) {
      WaveRests(c, m[0].byte, m[0].age - k);
    }
  }

  lemma FlightsStep(c: Control, t: Tx, r: Rx, m: seq<Flight>)
    requires TimingOk(c, t, r, m)
    ensures FlightsOk(c, FlightsNext(c, t, r, m))
  {
    hide InStep, Sampled, FrameBits, BuildFrame, Level;
    NoThird(c, t, r, m);
  }

  lemma TxLoads(c: Control, t: Tx, r: Rx, m: seq<Flight>, bus: Bus)
    requires TimingOk(c, t, r, m) && Loads(t)
    ensures TxOk(c, TxNext(c, t, bus), FlightsNext(c, t, r, m))
  {
    hide RxPlace, Queued, FrameBits, BuildFrame;
    if m != [] { WaveRests(c, m[|m| - 1].byte, m[|m| - 1].age); }
  }

  lemma TxRests(c: Control, t: Tx, r: Rx, m: seq<Flight>, bus: Bus)
    requires TimingOk(c, t, r, m) && t.bits == 0 && !Loads(t)
    ensures TxOk(c, TxNext(c, t, bus), FlightsNext(c, t, r, m))
  {
    hide InStep, Sampled, Queued, FrameBits, BuildFrame, Wave;
    NoThird(c, t, r, m);
    if m != [] {
      WaveRests(c, m[|m| - 1].byte, m[|m| - 1].age);
      WaveRests(c, m[|m| - 1].byte, m[|m| - 1].age + 1);
    }
  }

  lemma TxHolds(c: Control, t: Tx, r: Rx, m: seq<Flight>, bus: Bus)
    requires TimingOk(c, t, r, m) && t.bits > 0 && t.counter < c.baudDiv
    ensures TxOk(c, TxNext(c, t, bus), FlightsNext(c, t, r, m))
  {
    hide RxPlace, Queued, FrameBits, BuildFrame, Hold, FlightsNext, Ends;
    NoThird(c, t, r, m);
    NewestNext(c, t, r, m);
    var z, i := m[|m| - 1], Bits(c) - t.bits;
    if i > 0 {
      WaveAt(Frame(c, z.byte), c.baudDiv, i - 1, t.counter);
      WaveAt(Frame(c, z.byte), c.baudDiv, i - 1, t.counter + 1);
    }
  }

  /** The shift register moves on by one bit and takes in the resting level. */
  lemma ShiftMoves(f: seq<bool>, shift: seq<bool>, k: nat)
    requires |f| == |shift| == MAX_FRAME && forall i :: 0 <= i < MAX_FRAME ==> shift[i] == Bit(f, k + i)
    ensures |shift[1..] + [true]| == MAX_FRAME
    ensures forall i :: 0 <= i < MAX_FRAME ==> (shift[1..] + [true])[i] == Bit(f, k + 1 + i)
  {
    forall i | 0 <= i < MAX_FRAME
      ensures (shift[1..] + [true])[i] == Bit(f, k + 1 + i)
    {
      if i < MAX_FRAME - 1 { assert shift[i + 1] == Bit(f, k + (i + 1)); }
    }
  }

  /** Where `TxOk` has the transmitter while `left` bits of the frame `z` remain. */
  predicate Sending(c: Control, shift: seq<bool>, left: nat, counter: nat, z: Flight) {
    && left <= Bits(c) && counter <= c.baudDiv
    && z.age == Ticks(Bits(c) - left, c.baudDiv) + counter
    && |shift| == MAX_FRAME
    && forall i :: 0 <= i < MAX_FRAME ==> shift[i] == Bit(Frame(c, z.byte), Bits(c) - left + i)
  }

  lemma SendingShifts(c: Control, shift: seq<bool>, left: nat, z: Flight)
    requires left > 0 && Sending(c, shift, left, c.baudDiv, z)
    ensures Sending(c, shift[1..] + [true], left - 1, 0, Flight(z.byte, z.age + 1))
    ensures shift[0] == Wave(Frame(c, z.byte), c.baudDiv, z.age + 1)
  {
    var f, i := Frame(c, z.byte), Bits(c) - left;
    assert |f| == MAX_FRAME;
    hide BuildFrame, FrameBits, Frame, Hold, Wave;
    ShiftMoves(f, shift, i);
    WaveAt(f, c.baudDiv, i, 0);
    assert shift[0] == Bit(f, i + 0);
    assert Ticks(i + 1, c.baudDiv) == z.age + 1;
  }

  lemma TxShifts(c: Control, t: Tx, r: Rx, m: seq<Flight>, bus: Bus)
    requires TimingOk(c, t, r, m) && t.bits > 0 && t.counter >= c.baudDiv
    ensures TxOk(c, TxNext(c, t, bus), FlightsNext(c, t, r, m))
  {
    hide RxPlace, Queued, Wave, FlightsNext, Ends, Level, Frame, FrameBits, Bit, Ticks;
    NoThird(c, t, r, m);
    NewestNext(c, t, r, m);
    SendingShifts(c, t.shift, t.bits, m[|m| - 1]);
  }

  lemma TxStep(c: Control, t: Tx, r: Rx, m: seq<Flight>, bus: Bus)
    requires TimingOk(c, t, r, m)
    ensures TxOk(c, TxNext(c, t, bus), FlightsNext(c, t, r, m))
  {
    hide *;
    if t.bits == 0 {
      if Loads(t) { TxLoads(c, t, r, m, bus); } else { TxRests(c, t, r, m, bus); }
    } else if t.counter < c.baudDiv {
      TxHolds(c, t, r, m, bus);
    } else {
      TxShifts(c, t, r, m, bus);
    }
  }

  lemma RxIdles(c: Control, t: Tx, r: Rx, m: seq<Flight>, bus: Bus)
    requires TimingOk(c, t, r, m) && !r.busy
    ensures RxPlace(c, RxNext(c, r, bus, t.line), FlightsNext(c, t, r, m))
  {
    hide FlightsNext, TxOk, Drained, BuildFrame, FrameBits, Level, Hold, Wave;
    OldestNext(c, t, r, m);
    LevelShifts(c, t, r, m, 0);
    LevelShifts(c, t, r, m, 1);
    assert t.line == Level(c, m, 0) by { LineIsLevel(c, t, m); }
    FrameShape(c, ZERO);
    if m != [] { StartSeen(c, t, r, m); } else { assert r.sync2 by { LevelOfNone(c, r, m); } }
  }

  lemma LineIsLevel(c: Control, t: Tx, m: seq<Flight>)
    requires TxOk(c, t, m)
    ensures t.line == Level(c, m, 0)
  {
  }

  lemma LevelOfNone(c: Control, r: Rx, m: seq<Flight>)
    requires RxPlace(c, r, m) && m == []
    ensures r.sync2
  {
  }

  /** The start bit reaches the receiver `d + 3` edges after the frame was loaded, and not before. */
  lemma StartSeen(c: Control, t: Tx, r: Rx, m: seq<Flight>)
    requires TimingOk(c, t, r, m) && !r.busy && m != []
    ensures |m| == 1 && m[0].age <= c.baudDiv + 3 && (r.sync2 <==> m[0].age < c.baudDiv + 3)
  {
    hide TxOk, BuildFrame, FrameBits;
    AgeBound(c, r, m);
    FrameShape(c, m[0].byte);
  }

  lemma RxCounts(c: Control, t: Tx, r: Rx, m: seq<Flight>, bus: Bus)
    requires TimingOk(c, t, r, m) && r.busy && r.counter < c.baudDiv
    ensures RxPlace(c, RxNext(c, r, bus, t.line), FlightsNext(c, t, r, m))
  {
    hide FlightsNext, TxOk, Drained, BuildFrame, FrameBits, Level;
    OldestNext(c, t, r, m);
    LevelShifts(c, t, r, m, 0);
    LevelShifts(c, t, r, m, 1);
    LineIsLevel(c, t, m);
  }

  lemma RxSamples(c: Control, t: Tx, r: Rx, m: seq<Flight>, bus: Bus)
    requires TimingOk(c, t, r, m) && r.busy && r.counter >= c.baudDiv && !Ends(c, r)
    ensures RxPlace(c, RxNext(c, r, bus, t.line), FlightsNext(c, t, r, m))
  {
    hide FlightsNext, TxOk, Drained, BuildFrame, FrameBits, Level;
    FrameShape(c, ZERO);
    OldestNext(c, t, r, m);
    LevelShifts(c, t, r, m, 0);
    LevelShifts(c, t, r, m, 1);
    LineIsLevel(c, t, m);
    assert Ticks(r.index + 1, c.baudDiv) == Ticks(r.index, c.baudDiv) + c.baudDiv + 1;
  }

  lemma RxFinishes(c: Control, t: Tx, r: Rx, m: seq<Flight>, bus: Bus)
    requires TimingOk(c, t, r, m) && Ends(c, r)
    ensures RxPlace(c, RxNext(c, r, bus, t.line), FlightsNext(c, t, r, m))
  {
    hide FlightsNext, TxOk, Drained, BuildFrame, FrameBits, Level, Sample, Clean, FlagFull;
    FrameShape(c, m[0].byte);
    OldestNext(c, t, r, m);
    LevelShifts(c, t, r, m, 0);
    LevelShifts(c, t, r, m, 1);
    LineIsLevel(c, t, m);
    AgeBound(c, r, m);
  }

  lemma RxStep(c: Control, t: Tx, r: Rx, m: seq<Flight>, bus: Bus)
    requires TimingOk(c, t, r, m)
    ensures RxPlace(c, RxNext(c, r, bus, t.line), FlightsNext(c, t, r, m))
  {
    hide *;
    if !r.busy { RxIdles(c, t, r, m, bus); }
    else if r.counter < c.baudDiv { RxCounts(c, t, r, m, bus); }
    else if Ends(c, r) { RxFinishes(c, t, r, m, bus); }
    else { RxSamples(c, t, r, m, bus); }
  }

  lemma RingsStep(c: Control, t: Tx, r: Rx, bus: Bus)
    requires RingOk(t.fifo) && RingOk(r.fifo)
    ensures RingOk(TxNext(c, t, bus).fifo) && RingOk(RxNext(c, r, bus, t.line).fifo)
  {
    hide FlagFull, Frame, FrameBits, NewFrame, Sample, Clean;
  }

  /** One edge of the joined halves, for every divider and any traffic: the timing stays exact. */
  lemma TimingStep(c: Control, t: Tx, r: Rx, m: seq<Flight>, bus: Bus)
    requires TimingOk(c, t, r, m)
    ensures TimingOk(c, TxNext(c, t, bus), RxNext(c, r, bus, t.line), FlightsNext(c, t, r, m))
  {
    hide TxNext, RxNext, FlightsNext, TxOk, FlightsOk, RxPlace, RingOk;
    RingsNeeded(c, t, r, m);
    RingsStep(c, t, r, bus);
    FlightsStep(c, t, r, m);
    TxStep(c, t, r, m, bus);
    RxStep(c, t, r, m, bus);
  }

  lemma RingsNeeded(c: Control, t: Tx, r: Rx, m: seq<Flight>)
    requires TimingOk(c, t, r, m)
    ensures RingOk(t.fifo) && RingOk(r.fifo)
  {
  }

  // ---- what is sampled ----

  /** When the receiver samples bit `i`, the delayed line shows bit `i`: this is where the divider must be at least
      2. */
  lemma SampleIsBit(c: Control, t: Tx, r: Rx, m: seq<Flight>)
    requires TimingOk(c, t, r, m) && c.baudDiv >= 2 && r.busy && r.counter >= c.baudDiv
    ensures m != [] && r.sync2 == Bit(Frame(c, m[0].byte), r.index)
  {
    hide TxOk, FrameBits, BuildFrame, Hold;
    var d, n, f := c.baudDiv, Bits(c), Frame(c, m[0].byte);
    assert m[0].age - 2 == Ticks(r.index + 1, d) + (d + 1 - d / 2);
    WaveAt(f, d, r.index, d + 1 - d / 2);
    if |m| == 2 && m[1].age >= 2 {
      AgeBound(c, r, m);
      if r.index + 1 < n { TicksGrow(r.index + 2, n, d); }
      FrameShape(c, m[0].byte);
      assert m[1].age - 2 <= d;
    }
  }

  lemma SampledNext(c: Control, r: Rx, b: Byte)
    requires Sampled(c, r.frame, r.index, b) && r.index + 1 < Bits(c) && r.sync2 == Bit(Frame(c, b), r.index)
    ensures Sampled(c, Sample(r), r.index + 1, b)
  {
    FrameShape(c, b);
    hide BuildFrame, FrameBits;
    if 1 <= r.index <= 8 { assert r.sync2 == b[r.index - 1]; }
  }

  /** The oldest frame stays the oldest until its last bit is sampled. */
  lemma SameFrame(c: Control, t: Tx, r: Rx, m: seq<Flight>)
    requires TimingOk(c, t, r, m) && r.busy && !Ends(c, r)
    ensures m != [] && FlightsNext(c, t, r, m) != [] && FlightsNext(c, t, r, m)[0].byte == m[0].byte
    ensures r.index < Bits(c) && (r.counter >= c.baudDiv ==> r.index + 1 < Bits(c))
  {
    hide FlightsNext, TxOk, Level, FrameBits;
    OldestNext(c, t, r, m);
  }

  /** One edge: what has been sampled of a frame is what was sent. */
  lemma WireStep(c: Control, t: Tx, r: Rx, m: seq<Flight>, bus: Bus)
    requires WireOk(c, t, r, m)
    ensures WireOk(c, TxNext(c, t, bus), RxNext(c, r, bus, t.line), FlightsNext(c, t, r, m))
  {
    hide TxNext, FlightsNext, TimingOk, Sampled, Sample, NewFrame, Clean, FlagFull, Drained, FrameBits;
    TimingStep(c, t, r, m, bus);
    RingsNeeded(c, t, r, m);
    if r.busy && !Ends(c, r) {
      SameFrame(c, t, r, m);
      FrameShape(c, ZERO);
      if r.counter >= c.baudDiv {
        SampleIsBit(c, t, r, m);
        SampledNext(c, r, m[0].byte);
      }
    } else if !r.busy && !r.sync2 {
      NothingSampled(c, t, r, m, bus);
    }
  }

  lemma NothingSampled(c: Control, t: Tx, r: Rx, m: seq<Flight>, bus: Bus)
    requires TimingOk(c, t, r, m) && !r.busy && !r.sync2
    ensures var v := FlightsNext(c, t, r, m);
      m != [] && v != [] && Sampled(c, NewFrame(c), 0, v[0].byte)
  {
    hide FlightsNext, TxOk, Level, Frame;
    if m == [] { LevelOfNone(c, r, m); }
    OldestNext(c, t, r, m);
  }

  // ---- which frames are accepted ----

  /** The record after these bits have been sampled. */
  function SampleRun(c: Control, bits: seq<bool>): Latch {
    if bits == [] then NewFrame(c)
    else SampleBit(SampleRun(c, bits[..|bits| - 1]), |bits| - 1, bits[|bits| - 1])
  }

  /** Where the stop bits begin. */
  function StopAt(c: Control): nat { if c.parity then 10 else 9 }

  /** What has been recorded is what was sampled: start and stop bits as errors, data and parity bit as they are. */
  lemma {:induction false} RecordedBits(c: Control, bits: seq<bool>)
    requires |bits| <= MAX_FRAME
    ensures var f, n := SampleRun(c, bits), |bits|;
      && f.total == Bits(c) && f.parity == c.parity && f.odd == c.odd
      && (f.startError <==> n > 0 && bits[0])
      && (f.stopError <==> exists j :: StopAt(c) <= j < n && !bits[j])
      && (forall k :: 0 <= k < 8 && k + 1 < n ==> f.data[k] == bits[k + 1])
      && (c.parity && n >= 10 ==> f.parityBit == bits[9])
    decreases bits
  {
    hide FrameBits;
    if bits != [] {
      var head := bits[..|bits| - 1];
      RecordedBits(c, head);
      assert forall j :: 0 <= j < |head| ==> head[j] == bits[j];
    }
  }

  /** When the last bit of a frame is sampled, the frame is accepted exactly if its start bit was low, its data and
      parity bits hold an even number of ones, or an odd one if so configured, and every stop bit but the last was
      high. The last stop bit is sampled in that very edge and not looked at. */
  lemma AcceptedIff(c: Control, bits: seq<bool>)
    requires |bits| == Bits(c) - 1
    ensures var f := SampleRun(c, bits);
      && f.total == Bits(c) && f.data == bits[1..9]
      && (Clean(f) <==>
            && !bits[0] && (forall j :: StopAt(c) <= j < |bits| ==> bits[j])
            && (c.parity ==> OnesIn(bits[1..10]) % 2 == if c.odd then 1 else 0))
  {
    RecordedBits(c, bits);
    var f := SampleRun(c, bits);
    assert f.data == bits[1..9];
    if c.parity {
      assert bits[1..10] == f.data + [bits[9]];
      ParityAcceptsIff(f.data, c.odd, f.parityBit);
    }
  }
}
