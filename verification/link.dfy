/** No byte is lost, changed, repeated or overtaken on the wire: what the receiver delivers is what the transmitter
    was given. */
module SerialLink {
  import opened Rings
  import opened Uart
  import opened WireTiming

  /** The wire is in order and both FIFOs hold at most what they can. */
  predicate LinkOk(c: Control, t: Tx, r: Rx, m: seq<Flight>) {
    WireOk(c, t, r, m) && t.fifo.Valid() && r.fifo.Valid()
  }

  // ---- what the full flag misses ----

  /** The ring is full and its head pointer has wrapped behind its tail: the flag reads "not full". */
  predicate WrappedFull(f: Ring<Byte>) { f.Count() == DEPTH && f.head < f.tail }

  /** The flag is right exactly when the ring is not full across the wrap. */
  lemma FullFlagExact(f: Ring<Byte>)
    requires f.Valid() && f.Cap() == DEPTH
    ensures (FlagFull(f) <==> f.Count() == DEPTH) <==> !WrappedFull(f)
  {
  }

  /** A write that the flag lets into such a ring overwrites the oldest byte. */
  lemma WrappedFullLoses(f: Ring<Byte>, b: Byte)
    requires f.Valid() && f.Cap() == DEPTH && WrappedFull(f)
    ensures Queued(f, WriteData(b)) == f.Push(b) && f.Push(b).Front() == b && !f.Push(b).Valid()
  {
  }

  // ---- no byte is lost, changed, repeated or overtaken ----

  function Bytes(m: seq<Flight>): seq<Byte> { if m == [] then [] else [m[0].byte] + Bytes(m[1..]) }

  lemma {:induction false} BytesAppend(m: seq<Flight>, z: Flight)
    ensures Bytes(m + [z]) == Bytes(m) + [z.byte]
    decreases m
  {
    if m != [] {
      BytesAppend(m[1..], z);
      assert (m + [z])[1..] == m[1..] + [z];
    }
  }

  lemma {:induction false} BytesOlder(m: seq<Flight>)
    ensures Bytes(Older(m)) == Bytes(m)
    decreases m
  {
    if m != [] { BytesOlder(m[1..]); }
  }

  /** Received and unread, in flight, and queued: oldest first. */
  function Held(t: Tx, r: Rx, m: seq<Flight>): seq<Byte>
    requires t.fifo.Valid() && r.fifo.Valid()
  {
    r.fifo.Contents() + Bytes(m) + t.fifo.Contents()
  }

  /** The byte the transmit FIFO takes in on this edge, if any. */
  function Sent(t: Tx, bus: Bus): seq<Byte> {
    if bus.WriteData? && !FlagFull(t.fifo) then [bus.data] else []
  }

  /** The byte the bus reads from the receive FIFO on this edge, if any. */
  function Got(r: Rx, bus: Bus): seq<Byte>
    requires RingOk(r.fifo)
  {
    if bus.ReadData? && !r.fifo.IsEmpty() then [r.fifo.Front()] else []
  }

  /** No byte is written into a transmit FIFO that is full across the wrap, and none is delivered to a full receive
      FIFO. */
  predicate Room(c: Control, t: Tx, r: Rx, bus: Bus) {
    && (bus.WriteData? ==> !WrappedFull(t.fifo))
    && (Ends(c, r) ==> r.fifo.Count() < DEPTH)
  }

  /** The byte the transmitter loads on this edge, if any. */
  function Leaving(t: Tx): seq<Byte>
    requires RingOk(t.fifo)
  {
    if Loads(t) then [t.fifo.Front()] else []
  }

  lemma QueueFlows(f: Ring<Byte>, bus: Bus, takes: bool)
    requires f.Valid() && f.Cap() == DEPTH && (takes ==> !f.IsEmpty()) && (bus.WriteData? ==> !WrappedFull(f))
    ensures var q := if takes then Queued(f, bus).Pop() else Queued(f, bus);
      q.Valid() && q.Cap() == DEPTH
      && (if takes then [f.Front()] else []) + q.Contents() ==
          f.Contents() + (if bus.WriteData? && !FlagFull(f) then [bus.data] else [])
  {
    FullFlagExact(f);
    var wrote := bus.WriteData? && !FlagFull(f);
    if wrote { PushAppends(f, bus.data); }
    if takes {
      PopRemoves(f);
      PopRemoves(Queued(f, bus));
    }
  }

  lemma TxFlows(c: Control, t: Tx, bus: Bus)
    requires t.fifo.Valid() && t.fifo.Cap() == DEPTH && (bus.WriteData? ==> !WrappedFull(t.fifo))
    ensures var v := TxNext(c, t, bus);
      v.fifo.Valid() && v.fifo.Cap() == DEPTH && Leaving(t) + v.fifo.Contents() == t.fifo.Contents() + Sent(t, bus)
  {
    hide Queued, FlagFull, BuildFrame, FrameBits;
    QueueFlows(t.fifo, bus, Loads(t));
  }

  /** A finished frame holds the byte that was sent, and is accepted. */
  lemma FrameIsByte(c: Control, t: Tx, r: Rx, m: seq<Flight>)
    requires WireOk(c, t, r, m) && Ends(c, r)
    ensures m != [] && Clean(r.frame) && r.frame.data == m[0].byte
  {
    FrameShape(c, m[0].byte);
    hide FrameBits, BuildFrame, Level, TxOk;
    assert r.frame.data == m[0].byte;
  }

  lemma FifoCaps(c: Control, t: Tx, r: Rx, m: seq<Flight>)
    requires LinkOk(c, t, r, m)
    ensures t.fifo.Valid() && r.fifo.Valid() && t.fifo.Cap() == DEPTH && r.fifo.Cap() == DEPTH
  {
  }

  lemma RxFlows(c: Control, t: Tx, r: Rx, m: seq<Flight>, bus: Bus)
    requires LinkOk(c, t, r, m) && (Ends(c, r) ==> r.fifo.Count() < DEPTH)
    ensures var v := RxNext(c, r, bus, t.line);
      v.fifo.Valid() && v.fifo.Cap() == DEPTH
      && Got(r, bus) + v.fifo.Contents() == r.fifo.Contents() + (if Ends(c, r) then [m[0].byte] else [])
  {
    if Ends(c, r) { FrameIsByte(c, t, r, m); }
    hide LinkOk, WireOk, TimingOk, RxPlace, Clean, Sample, NewFrame, InStep, Sampled, TxOk, FlightsOk;
    FifoCaps(c, t, r, m);
    FifoFlows(r.fifo, bus, if Ends(c, r) then [m[0].byte] else []);
  }

  predicate Reads(f: Ring<Byte>, bus: Bus) { bus.ReadData? && !f.IsEmpty() }

  /** One end of the receive FIFO at a time: what a read takes, and what a delivery adds. */
  lemma FifoReads(f: Ring<Byte>, bus: Bus)
    requires f.Valid() && f.Cap() == DEPTH
    ensures var n := Drained(f, bus);
      && n.Valid() && n.Cap() == DEPTH && n.Count() <= f.Count() && n.head == f.head && n.buf == f.buf
      && (if Reads(f, bus) then [f.Front()] else []) + n.Contents() == f.Contents()
  {
    if Reads(f, bus) { PopRemoves(f); }
  }

  lemma PushBesidePop(f: Ring<Byte>, n: Ring<Byte>, x: Byte)
    requires f.Cap() == DEPTH && f.head < 2 * DEPTH && n.buf == f.buf && n.head == f.head
    ensures n.(buf := f.Push(x).buf, head := f.Push(x).head) == n.Push(x)
  {
  }

  lemma FifoFlows(f: Ring<Byte>, bus: Bus, d: seq<Byte>)
    requires f.Valid() && f.Cap() == DEPTH && |d| <= 1 && (d != [] ==> f.Count() < DEPTH)
    ensures var g, n := if d == [] then f else f.Push(d[0]), Drained(f, bus);
      var v := n.(buf := g.buf, head := g.head);
      && !(d != [] && FlagFull(f)) && v.Valid() && v.Cap() == DEPTH
      && (if Reads(f, bus) then [f.Front()] else []) + v.Contents() == f.Contents() + d
  {
    hide FlagFull, Drained, Reads;
    FifoReads(f, bus);
    var n := Drained(f, bus);
    if d != [] {
      FlagNeedsFull(f);
      DeliveryFlows(f, n, d[0], if Reads(f, bus) then [f.Front()] else []);
    }
  }

  lemma DeliveryFlows(f: Ring<Byte>, n: Ring<Byte>, x: Byte, taken: seq<Byte>)
    requires f.Valid() && f.Cap() == DEPTH && n.Valid() && n.Count() <= f.Count() < DEPTH
    requires n.buf == f.buf && n.head == f.head && taken + n.Contents() == f.Contents()
    ensures var v := n.(buf := f.Push(x).buf, head := f.Push(x).head);
      v.Valid() && v.Cap() == DEPTH && taken + v.Contents() == f.Contents() + [x]
  {
    PushBesidePop(f, n, x);
    PushAppends(n, x);
    var waiting := n.Contents();
    assert taken + (waiting + [x]) == (taken + waiting) + [x];
  }

  lemma FlagNeedsFull(f: Ring<Byte>)
    requires f.Cap() == DEPTH && f.Count() < DEPTH
    ensures !FlagFull(f)
  {
  }

  lemma FlightsFlow(c: Control, t: Tx, r: Rx, m: seq<Flight>)
    requires RingOk(t.fifo) && (Ends(c, r) ==> m != [])
    ensures (if Ends(c, r) then [m[0].byte] else []) + Bytes(FlightsNext(c, t, r, m)) == Bytes(m) + Leaving(t)
  {
    hide Ends, Loads;
    var left := if Ends(c, r) then m[1..] else m;
    BytesOlder(left);
    if Loads(t) { BytesAppend(Older(left), Flight(t.fifo.Front(), 0)); }
  }

  lemma Rearrange<T>(got: seq<T>, rx: seq<T>, rx': seq<T>, done: seq<T>, fly: seq<T>, fly': seq<T>, left: seq<T>,
      tx: seq<T>, tx': seq<T>, sent: seq<T>)
    requires got + rx' == rx + done && done + fly' == fly + left && left + tx' == tx + sent
    ensures got + (rx' + fly' + tx') == rx + fly + tx + sent
  {
    calc {
      got + (rx' + fly' + tx');
      (got + rx') + fly' + tx';
      (rx + done) + fly' + tx';
      rx + (done + fly') + tx';
      rx + (fly + left) + tx';
      rx + fly + (left + tx');
      rx + fly + (tx + sent);
      rx + fly + tx + sent;
    }
  }

  /** One edge of the joined halves: timing stays exact, and bytes only move along. */
  lemma LinkStep(c: Control, t: Tx, r: Rx, m: seq<Flight>, bus: Bus)
    requires LinkOk(c, t, r, m) && Room(c, t, r, bus)
    ensures var t', r', m' := TxNext(c, t, bus), RxNext(c, r, bus, t.line), FlightsNext(c, t, r, m);
      LinkOk(c, t', r', m') && Got(r, bus) + Held(t', r', m') == Held(t, r, m) + Sent(t, bus)
  {
    hide TxNext, RxNext, FlightsNext, WireOk, Got, Sent, Leaving;
    FifoCaps(c, t, r, m);
    if Ends(c, r) { FrameIsByte(c, t, r, m); }
    WireStep(c, t, r, m, bus);
    TxFlows(c, t, bus);
    RxFlows(c, t, r, m, bus);
    FlightsFlow(c, t, r, m);
    var t', r', m' := TxNext(c, t, bus), RxNext(c, r, bus, t.line), FlightsNext(c, t, r, m);
    Rearrange(Got(r, bus), r.fifo.Contents(), r'.fifo.Contents(), if Ends(c, r) then [m[0].byte] else [],
              Bytes(m), Bytes(m'), Leaving(t), t.fifo.Contents(), t'.fifo.Contents(), Sent(t, bus));
  }

  // ---- runs of one UART whose receive pin is wired to its own output ----

  function Run(u: State, ins: seq<Bus>): State
    requires Sized(u)
    decreases ins
  {
    if ins == [] then u else StepSized(u, ins[0], u.tx.line); Run(Step(u, ins[0], u.tx.line), ins[1..])
  }

  /** Every byte the transmit FIFO took in during the run. */
  function AllSent(u: State, ins: seq<Bus>): seq<Byte>
    requires Sized(u)
    decreases ins
  {
    if ins == [] then []
    else StepSized(u, ins[0], u.tx.line); Sent(u.tx, ins[0]) + AllSent(Step(u, ins[0], u.tx.line), ins[1..])
  }

  /** Every byte the bus read during the run. */
  function AllGot(u: State, ins: seq<Bus>): seq<Byte>
    requires Sized(u)
    decreases ins
  {
    if ins == [] then []
    else StepSized(u, ins[0], u.tx.line); Got(u.rx, ins[0]) + AllGot(Step(u, ins[0], u.tx.line), ins[1..])
  }

  /** The frames in flight at the end of the run. */
  function AllFlights(u: State, ins: seq<Bus>, m: seq<Flight>): seq<Flight>
    requires Sized(u)
    decreases ins
  {
    if ins == [] then m
    else
      StepSized(u, ins[0], u.tx.line);
      AllFlights(Step(u, ins[0], u.tx.line), ins[1..], FlightsNext(u.control, u.tx, u.rx, m))
  }

  /** Ordinary bus traffic, with room in the FIFOs throughout. */
  predicate Fits(u: State, ins: seq<Bus>)
    requires Sized(u)
    decreases ins
  {
    ins == [] ||
    (StepSized(u, ins[0], u.tx.line);
     Ordinary(ins[0]) && Room(u.control, u.tx, u.rx, ins[0]) && Fits(Step(u, ins[0], u.tx.line), ins[1..]))
  }

  /** Over any run the bytes read, then those held, are those held before, then those queued. */
  lemma {:induction false} LinkRun(u: State, ins: seq<Bus>, m: seq<Flight>)
    requires Sized(u) && Plain(u) && LinkOk(u.control, u.tx, u.rx, m) && Fits(u, ins)
    ensures var v, m' := Run(u, ins), AllFlights(u, ins, m);
      && Sized(v) && Plain(v) && LinkOk(v.control, v.tx, v.rx, m')
      && AllGot(u, ins) + Held(v.tx, v.rx, m') == Held(u.tx, u.rx, m) + AllSent(u, ins)
    decreases ins
  {
    hide Step, TxNext, RxNext, FlightsNext, Plain, LinkOk, Held, Got, Sent, Ordinary, Room;
    HeldNeedsRings(u, m);
    if ins != [] {
      var b := ins[0];
      PlainStep(u, b, u.tx.line);
      LinkStep(u.control, u.tx, u.rx, m, b);
      var v, m1 := Step(u, b, u.tx.line), FlightsNext(u.control, u.tx, u.rx, m);
      LinkRun(v, ins[1..], m1);
      var w, m2 := Run(v, ins[1..]), AllFlights(v, ins[1..], m1);
      HeldNeedsRings(v, m1);
      HeldNeedsRings(w, m2);
      Chain(Got(u.rx, b), AllGot(v, ins[1..]), Held(w.tx, w.rx, m2), Held(v.tx, v.rx, m1), AllSent(v, ins[1..]),
          Held(u.tx, u.rx, m), Sent(u.tx, b));
    }
  }

  lemma HeldNeedsRings(u: State, m: seq<Flight>)
    requires LinkOk(u.control, u.tx, u.rx, m)
    ensures u.tx.fifo.Valid() && u.rx.fifo.Valid()
  {
  }

  lemma Chain<T>(got: seq<T>, gots: seq<T>, last: seq<T>, mid: seq<T>, sents: seq<T>, first: seq<T>, sent: seq<T>)
    requires got + mid == first + sent && gots + last == mid + sents
    ensures got + gots + last == first + (sent + sents)
  {
    calc {
      got + gots + last;
      got + (gots + last);
      got + (mid + sents);
      (got + mid) + sents;
      (first + sent) + sents;
      first + (sent + sents);
    }
  }

  /** Nothing queued, moving or received, and a high line. */
  predicate Quiet(u: State) {
    && u.tx.fifo.Valid() && u.rx.fifo.Valid() && u.tx.fifo.IsEmpty() && u.rx.fifo.IsEmpty()
    && u.tx.bits == 0 && !u.rx.busy && u.tx.line && u.rx.sync1 && u.rx.sync2
  }

  /** The transmitter has nothing left and the receiver is between frames. */
  predicate AtRest(u: State) { u.tx.fifo.IsEmpty() && u.tx.bits == 0 && !u.rx.busy }

  lemma QuietIsOk(u: State)
    requires Sized(u) && Quiet(u)
    ensures TimingOk(u.control, u.tx, u.rx, [])
    ensures u.control.baudDiv >= 2 ==> LinkOk(u.control, u.tx, u.rx, [])
  {
  }

  /** No frame is in flight when both machines rest, and the line has been high for two edges. */
  lemma RestMeansLanded(c: Control, t: Tx, r: Rx, m: seq<Flight>)
    requires TimingOk(c, t, r, m) && t.bits == 0 && !r.busy
    ensures m == [] && t.line && r.sync1 && r.sync2
  {
    if m != [] {
      hide Level;
      AgeBound(c, r, m);
    }
  }

  /** From a quiet UART with a divider of at least 2, for every parity and stop setting and any ordinary bus traffic
      with room in the FIFOs: the bytes received are a prefix of the bytes queued, and once both machines rest, they
      are all of them. */
  lemma ReceivedIsPrefixOfSent(u: State, ins: seq<Bus>)
    requires Sized(u) && Plain(u) && Quiet(u) && u.control.baudDiv >= 2 && Fits(u, ins)
    ensures var v := Run(u, ins);
      && Sized(v) && v.rx.fifo.Valid()
      && AllGot(u, ins) + v.rx.fifo.Contents() <= AllSent(u, ins)
      && (AtRest(v) ==> AllGot(u, ins) + v.rx.fifo.Contents() == AllSent(u, ins))
  {
    hide Step, Plain, Ordinary, Room, AllGot, AllSent, AllFlights, Run, Fits, WireOk;
    QuietIsOk(u);
    LinkRun(u, ins, []);
    var v, m := Run(u, ins), AllFlights(u, ins, []);
    var got, sent := AllGot(u, ins), AllSent(u, ins);
    var rx, fly, tx := v.rx.fifo.Contents(), Bytes(m), v.tx.fifo.Contents();
    assert Held(u.tx, u.rx, []) == [];
    assert got + (rx + fly + tx) == sent;
    assert (got + rx) + (fly + tx) == sent;
    if AtRest(v) {
      WireIsTimed(v.control, v.tx, v.rx, m);
      RestMeansLanded(v.control, v.tx, v.rx, m);
      assert fly == [] && tx == [];
    }
  }

  lemma WireIsTimed(c: Control, t: Tx, r: Rx, m: seq<Flight>)
    requires WireOk(c, t, r, m)
    ensures TimingOk(c, t, r, m) && c.baudDiv >= 2
  {
  }

  // ---- how long delivery takes ----

  predicate NoWrites(ins: seq<Bus>) { forall k :: 0 <= k < |ins| ==> Ordinary(ins[k]) && !ins[k].WriteData? }

  /** Clock edges from loading a frame to having sampled its last bit. */
  function Span(c: Control): nat { Ticks(Bits(c), c.baudDiv) + c.baudDiv - c.baudDiv / 2 + 4 }

  function Newest(m: seq<Flight>): nat
    requires m != []
  {
    m[|m| - 1].age
  }

  /** An upper bound on the edges until everything queued has been sampled: a span, and one edge to load, for each. */
  function Backlog(c: Control, t: Tx, m: seq<Flight>): int {
    t.fifo.Count() * (Span(c) + 1) + if m == [] then 0 else Span(c) - Newest(m)
  }

  lemma OneLess(k: int, span: nat)
    ensures (k - 1) * span == k * span - span
    ensures k >= 1 ==> k * span >= span
    ensures k >= 0 ==> k * span >= 0
  {
    if k >= 1 { assert (k - 1) * span >= 0; }
  }

  lemma NewestBound(c: Control, t: Tx, r: Rx, m: seq<Flight>)
    requires TimingOk(c, t, r, m) && m != []
    ensures Newest(m) < Span(c)
  {
    hide TxOk, InStep, Level, FrameBits;
    AgeBound(c, r, m);
  }

  /** How the count and the newest frame move without a write. */
  lemma BacklogParts(c: Control, t: Tx, r: Rx, m: seq<Flight>, bus: Bus)
    requires TimingOk(c, t, r, m) && !bus.WriteData?
    ensures var t', m' := TxNext(c, t, bus), FlightsNext(c, t, r, m);
      && t'.fifo.head == t.fifo.head
      && (if Loads(t) then t'.fifo.Count() == t.fifo.Count() - 1 && m' != [] && Newest(m') == 0
          else t'.fifo == t.fifo && (m' == [] || (m != [] && Newest(m') == Newest(m) + 1)))
      && (m == [] ==> t.bits == 0)
  {
    hide Level, Frame, FrameBits, Wave, InStep;
  }

  /** Each edge without a write brings the backlog down, until nothing is queued or moving. */
  lemma BacklogStep(c: Control, t: Tx, r: Rx, m: seq<Flight>, bus: Bus)
    requires TimingOk(c, t, r, m) && !bus.WriteData?
    ensures var t', m' := TxNext(c, t, bus), FlightsNext(c, t, r, m);
      && Backlog(c, t, m) >= 0
      && (if Backlog(c, t, m) == 0 then Backlog(c, t', m') == 0 else Backlog(c, t', m') < Backlog(c, t, m))
  {
    hide TxNext, FlightsNext, Span, TxOk, FlightsOk, RxPlace;
    BacklogParts(c, t, r, m, bus);
    CountIsNatural(t.fifo);
    OneLess(t.fifo.Count(), Span(c) + 1);
    if m != [] { NewestBound(c, t, r, m); }
    TimingStep(c, t, r, m, bus);
    var m' := FlightsNext(c, t, r, m);
    if m' != [] { NewestBound(c, TxNext(c, t, bus), RxNext(c, r, bus, t.line), m'); }
  }

  lemma CountIsNatural(f: Ring<Byte>)
    requires RingOk(f)
    ensures f.Count() >= 0 && (f.Count() == 0 <==> f.IsEmpty())
  {
  }

  lemma NoBacklogIsRest(u: State, m: seq<Flight>)
    requires TimingOk(u.control, u.tx, u.rx, m) && Backlog(u.control, u.tx, m) <= 0
    ensures AtRest(u) && m == []
  {
    hide Span, Level;
    CountIsNatural(u.tx.fifo);
    OneLess(u.tx.fifo.Count(), Span(u.control) + 1);
    if m != [] { NewestBound(u.control, u.tx, u.rx, m); }
  }

  /** Any run of ordinary traffic keeps the timing, for every divider. Once it has lasted as long as the backlog
      without a write, both machines rest. */
  lemma {:induction false} RunDrains(u: State, ins: seq<Bus>, m: seq<Flight>)
    requires Sized(u) && Plain(u) && TimingOk(u.control, u.tx, u.rx, m) && NoWrites(ins)
    ensures var v, m' := Run(u, ins), AllFlights(u, ins, m);
      && Sized(v) && Plain(v) && v.control == u.control && TimingOk(v.control, v.tx, v.rx, m')
      && v.tx.fifo.head == u.tx.fifo.head
      && (|ins| >= Backlog(u.control, u.tx, m) ==> AtRest(v) && m' == [])
    decreases ins
  {
    hide Step, TxNext, RxNext, FlightsNext, Plain, TimingOk, Backlog, AtRest, Ordinary, Sized;
    if ins == [] {
      if Backlog(u.control, u.tx, m) <= 0 { NoBacklogIsRest(u, m); }
    } else {
      var b := ins[0];
      RingsNeeded(u.control, u.tx, u.rx, m);
      PlainStep(u, b, u.tx.line);
      TimingStep(u.control, u.tx, u.rx, m, b);
      BacklogStep(u.control, u.tx, u.rx, m, b);
      BacklogParts(u.control, u.tx, u.rx, m, b);
      RunDrains(Step(u, b, u.tx.line), ins[1..], FlightsNext(u.control, u.tx, u.rx, m));
    }
  }

  lemma {:induction false} TicksAreProduct(i: nat, d: nat)
    ensures Ticks(i, d) == i * (d + 1)
    decreases i
  {
    if i > 0 {
      TicksAreProduct(i - 1, d);
      OneLess(i, d + 1);
    }
  }

  lemma BytesCount(m: seq<Flight>)
    ensures |Bytes(m)| == |m|
  {
  }

  /** A frame is through in less than two bit periods more than it has bits. */
  lemma SpanBound(c: Control)
    requires c.baudDiv >= 2
    ensures Span(c) + 1 <= (Bits(c) + 2) * (c.baudDiv + 1)
  {
    hide Bits;
    TicksAreProduct(Bits(c) + 2, c.baudDiv);
    assert Ticks(Bits(c) + 2, c.baudDiv) == Ticks(Bits(c) + 1, c.baudDiv) + c.baudDiv + 1;
  }

  /** The backlog is at most (bits + 2)(divider + 1) edges for each byte held. */
  lemma BacklogBound(c: Control, t: Tx, r: Rx, m: seq<Flight>)
    requires LinkOk(c, t, r, m)
    ensures Backlog(c, t, m) <= (|Bytes(m)| + |t.fifo.Contents()|) * ((Bits(c) + 2) * (c.baudDiv + 1))
  {
    hide WireOk, Bits, Span;
    WireIsTimed(c, t, r, m);
    BytesCount(m);
    SpanBound(c);
    Monotone(t.fifo.Count(), |m|, Span(c) + 1, (Bits(c) + 2) * (c.baudDiv + 1));
  }

  lemma Monotone(k: nat, j: nat, x: nat, y: nat)
    requires x <= y
    ensures k * x + (if j == 0 then 0 else x) <= (k + j) * y
  {
    assert k * x <= k * y;
    assert j * y >= 0;
    if j > 0 { assert j * y >= y; }
    assert (k + j) * y == k * y + j * y;
  }

  /** If both machines rest after a run without writes, all that was held has arrived. */
  lemma AllArrived(u: State, ins: seq<Bus>, m: seq<Flight>)
    requires Sized(u) && Plain(u) && LinkOk(u.control, u.tx, u.rx, m) && Fits(u, ins) && NoWrites(ins)
    requires AtRest(Run(u, ins)) && AllFlights(u, ins, m) == []
    ensures var v := Run(u, ins);
      v.rx.fifo.Valid() && AllGot(u, ins) + v.rx.fifo.Contents() == Held(u.tx, u.rx, m)
  {
    hide Step, Plain, WireOk, Run, AllGot, AllFlights, Fits, NoWrites, Sized;
    LinkRun(u, ins, m);
    NothingWritten(u, ins);
    BytesOfNone();
    var v := Run(u, ins);
    assert v.tx.fifo.Contents() == [];
    assert Held(v.tx, v.rx, []) == v.rx.fifo.Contents();
    assert Held(u.tx, u.rx, m) + [] == Held(u.tx, u.rx, m);
  }

  /** Without further writes and with room to receive, everything queued and in flight has arrived, in order, after
      (bits + 2)(divider + 1) clock edges for each byte. */
  lemma DeliveredInTime(u: State, ins: seq<Bus>, m: seq<Flight>)
    requires Sized(u) && Plain(u) && LinkOk(u.control, u.tx, u.rx, m) && Fits(u, ins) && NoWrites(ins)
    requires |ins| >= (|Bytes(m)| + |u.tx.fifo.Contents()|) * ((Bits(u.control) + 2) * (u.control.baudDiv + 1))
    ensures var v := Run(u, ins);
      && Sized(v) && AtRest(v) && v.rx.fifo.Valid()
      && AllGot(u, ins) + v.rx.fifo.Contents() == u.rx.fifo.Contents() + Bytes(m) + u.tx.fifo.Contents()
  {
    hide Step, Plain, WireOk, Run, AllGot, AllFlights, Fits, NoWrites, Backlog, Bits, Bytes, AtRest, Sized, TimingOk;
    BacklogBound(u.control, u.tx, u.rx, m);
    WireIsTimed(u.control, u.tx, u.rx, m);
    RunDrains(u, ins, m);
    AllArrived(u, ins, m);
  }

  lemma BytesOfNone()
    ensures Bytes([]) == []
  {
  }

  lemma {:induction false} NothingWritten(u: State, ins: seq<Bus>)
    requires Sized(u) && NoWrites(ins)
    ensures AllSent(u, ins) == []
    decreases ins
  {
    hide Step, Ordinary, Sized;
    if ins != [] {
      StepSized(u, ins[0], u.tx.line);
      NothingWritten(Step(u, ins[0], u.tx.line), ins[1..]);
    }
  }

  // ---- why the divider must be at least 2 ----

  /** The receiver samples bit `i` of a frame `i + 1` bit periods and `d + 3 - d / 2` edges after it was loaded,
      seeing the line of two edges before: that is bit `i` when the divider is at least 2, and the following bit
      otherwise. */
  lemma SamplingPoint(f: seq<bool>, d: nat, i: nat)
    ensures Wave(f, d, Ticks(i + 1, d) + d + 1 - d / 2) == Bit(f, if d >= 2 then i else i + 1)
  {
    if d >= 2 {
      WaveAt(f, d, i, d + 1 - d / 2);
    } else {
      WaveAt(f, d, i + 1, 0);
      assert Ticks(i + 2, d) == Ticks(i + 1, d) + d + 1;
    }
  }
}
