/** The transmit FIFO's full flag, on a run from reset: ordinary writes fill the FIFO across the pointer wrap, the flag
    lets one more write in, and a byte that had been accepted is never received. */
module LinkOverrun {
  import opened Rings
  import opened Uart
  import opened WireTiming
  import opened SerialLink
  import opened LinkLimits

  // ---- runs, put together ----

  lemma {:induction false} RunSplits(u: State, a: seq<Bus>, b: seq<Bus>)
    requires Sized(u)
    ensures Sized(Run(u, a)) && Run(u, a + b) == Run(Run(u, a), b)
    decreases a
  {
    hide Step, Sized;
    if a == [] {
      assert a + b == b;
    } else {
      StepSized(u, a[0], u.tx.line);
      assert (a + b)[0] == a[0] && (a + b)[1..] == a[1..] + b;
      RunSplits(Step(u, a[0], u.tx.line), a[1..], b);
    }
  }

  lemma {:induction false} FitsSplits(u: State, a: seq<Bus>, b: seq<Bus>)
    requires Sized(u) && Sized(Run(u, a))
    ensures Fits(u, a + b) <==> Fits(u, a) && Fits(Run(u, a), b)
    decreases a
  {
    hide Step, Ordinary, Room, Sized;
    if a == [] {
      assert a + b == b;
    } else {
      StepSized(u, a[0], u.tx.line);
      assert (a + b)[0] == a[0] && (a + b)[1..] == a[1..] + b;
      FitsSplits(Step(u, a[0], u.tx.line), a[1..], b);
    }
  }

  lemma {:induction false} SentSplits(u: State, a: seq<Bus>, b: seq<Bus>)
    requires Sized(u) && Sized(Run(u, a))
    ensures AllSent(u, a + b) == AllSent(u, a) + AllSent(Run(u, a), b)
    decreases a
  {
    hide Step, Sent, Sized;
    if a == [] {
      assert a + b == b;
    } else {
      StepSized(u, a[0], u.tx.line);
      assert (a + b)[0] == a[0] && (a + b)[1..] == a[1..] + b;
      SentSplits(Step(u, a[0], u.tx.line), a[1..], b);
    }
  }

  lemma {:induction false} GotSplits(u: State, a: seq<Bus>, b: seq<Bus>)
    requires Sized(u) && Sized(Run(u, a))
    ensures AllGot(u, a + b) == AllGot(u, a) + AllGot(Run(u, a), b)
    decreases a
  {
    hide Step, Got, Sized;
    if a == [] {
      assert a + b == b;
    } else {
      StepSized(u, a[0], u.tx.line);
      assert (a + b)[0] == a[0] && (a + b)[1..] == a[1..] + b;
      GotSplits(Step(u, a[0], u.tx.line), a[1..], b);
    }
  }

  /** A run in two parts. */
  lemma RunAppends(u: State, a: seq<Bus>, b: seq<Bus>)
    requires Sized(u)
    ensures Sized(Run(u, a)) && Run(u, a + b) == Run(Run(u, a), b)
    ensures AllSent(u, a + b) == AllSent(u, a) + AllSent(Run(u, a), b)
    ensures AllGot(u, a + b) == AllGot(u, a) + AllGot(Run(u, a), b)
    ensures Fits(u, a + b) <==> Fits(u, a) && Fits(Run(u, a), b)
  {
    hide Run, AllSent, AllGot, Fits, Sized;
    RunSplits(u, a, b);
    FitsSplits(u, a, b);
    SentSplits(u, a, b);
    GotSplits(u, a, b);
  }

  // ---- a byte that is nowhere stays nowhere ----

  predicate NotIn(b: Byte, buf: seq<Byte>) { forall i :: 0 <= i < |buf| ==> buf[i] != b }

  /** No register of the link holds `b`. */
  predicate Absent(b: Byte, t: Tx, r: Rx, m: seq<Flight>) {
    && NotIn(b, t.fifo.buf) && NotIn(b, r.fifo.buf) && (forall i :: 0 <= i < |m| ==> m[i].byte != b)
  }

  predicate NeverWrites(b: Byte, ins: seq<Bus>) {
    forall k :: 0 <= k < |ins| ==> Ordinary(ins[k]) && ins[k] != WriteData(b)
  }

  lemma AbsentQueue(b: Byte, c: Control, t: Tx, bus: Bus)
    requires RingOk(t.fifo) && bus != WriteData(b) && NotIn(b, t.fifo.buf)
    ensures NotIn(b, TxNext(c, t, bus).fifo.buf) && t.fifo.Front() != b
  {
    hide FlagFull, Frame, FrameBits;
  }

  lemma AbsentReceived(b: Byte, c: Control, r: Rx, bus: Bus, pin: bool)
    requires RingOk(r.fifo) && NotIn(b, r.fifo.buf) && (Ends(c, r) ==> r.frame.data != b)
    ensures NotIn(b, RxNext(c, r, bus, pin).fifo.buf) && b !in Got(r, bus)
  {
    hide Sample, NewFrame, Clean, FlagFull, Ends;
  }

  lemma AbsentFlights(b: Byte, c: Control, t: Tx, r: Rx, m: seq<Flight>)
    requires RingOk(t.fifo) && t.fifo.Front() != b && forall i :: 0 <= i < |m| ==> m[i].byte != b
    ensures var v := FlightsNext(c, t, r, m); forall i :: 0 <= i < |v| ==> v[i].byte != b
  {
    hide Ends, Loads;
  }

  lemma AbsentStep(b: Byte, c: Control, t: Tx, r: Rx, m: seq<Flight>, bus: Bus)
    requires WireOk(c, t, r, m) && Absent(b, t, r, m) && bus != WriteData(b)
    ensures Absent(b, TxNext(c, t, bus), RxNext(c, r, bus, t.line), FlightsNext(c, t, r, m))
    ensures RingOk(r.fifo) && b !in Got(r, bus)
  {
    hide TxNext, RxNext, FlightsNext, WireOk, TimingOk, RingOk, NotIn, Got, Clean, Ends;
    WireIsTimed(c, t, r, m);
    RingsNeeded(c, t, r, m);
    AbsentQueue(b, c, t, bus);
    if Ends(c, r) { FrameIsByte(c, t, r, m); }
    AbsentReceived(b, c, r, bus, t.line);
    AbsentFlights(b, c, t, r, m);
  }

  /** Whatever ordinary traffic follows, if `b` is not written again it is never received. */
  lemma {:induction false} AbsentRun(b: Byte, u: State, ins: seq<Bus>, m: seq<Flight>)
    requires Sized(u) && Plain(u) && WireOk(u.control, u.tx, u.rx, m) && Absent(b, u.tx, u.rx, m) && NeverWrites(b, ins)
    ensures var v, m' := Run(u, ins), AllFlights(u, ins, m);
      && Sized(v) && Plain(v) && v.control == u.control
      && WireOk(v.control, v.tx, v.rx, m') && Absent(b, v.tx, v.rx, m') && b !in AllGot(u, ins)
    decreases ins
  {
    hide Step, TxNext, RxNext, FlightsNext, Plain, WireOk, Absent, Ordinary, Sized, Got;
    if ins != [] {
      WireIsTimed(u.control, u.tx, u.rx, m);
      RingsNeeded(u.control, u.tx, u.rx, m);
      PlainStep(u, ins[0], u.tx.line);
      WireStep(u.control, u.tx, u.rx, m, ins[0]);
      AbsentStep(b, u.control, u.tx, u.rx, m, ins[0]);
      AbsentRun(b, Step(u, ins[0], u.tx.line), ins[1..], FlightsNext(u.control, u.tx, u.rx, m));
    }
  }

  // ---- moving the pointers forward ----

  /** While few bytes are held and none is written, the FIFOs have room. */
  lemma {:induction false} LightTrafficFits(u: State, ins: seq<Bus>, m: seq<Flight>)
    requires Sized(u) && Plain(u) && LinkOk(u.control, u.tx, u.rx, m) && NoWrites(ins) && |Held(u.tx, u.rx, m)| < DEPTH
    ensures Fits(u, ins)
    decreases ins
  {
    hide Step, TxNext, RxNext, FlightsNext, Plain, WireOk, Ordinary, Got, Sent, Sized, Ends;
    if ins != [] {
      var b := ins[0];
      WireIsTimed(u.control, u.tx, u.rx, m);
      RingsNeeded(u.control, u.tx, u.rx, m);
      PlainStep(u, b, u.tx.line);
      LinkStep(u.control, u.tx, u.rx, m, b);
      NothingQueued(u.tx, b);
      LightTrafficFits(Step(u, b, u.tx.line), ins[1..], FlightsNext(u.control, u.tx, u.rx, m));
    }
  }

  lemma NothingQueued(t: Tx, b: Bus)
    requires !b.WriteData?
    ensures Sent(t, b) == []
  {
  }

  lemma {:induction false} SilenceReadsNothing(u: State, n: nat)
    requires Sized(u)
    ensures AllGot(u, Silence(n)) == []
    decreases n
  {
    hide Step, Sized;
    if n > 0 {
      StepSized(u, NoAccess, u.tx.line);
      assert Silence(n)[0] == NoAccess && Silence(n)[1..] == Silence(n - 1);
      SilenceReadsNothing(Step(u, NoAccess, u.tx.line), n - 1);
    }
  }

  /** A quiet link, both of the transmitter's pointers at `p`, holding no 0xFF anywhere. */
  predicate Ready(u: State, p: nat) {
    && Sized(u) && Plain(u) && Quiet(u) && u.control.baudDiv >= 2
    && u.tx.fifo.head == p && Absent(ALL_ONES, u.tx, u.rx, [])
  }

  /** Waiting for a byte to arrive, and reading it. */
  function Receiving(c: Control): seq<Bus> { Silence(Span(c) + 1) + [ReadData] }

  function Round(c: Control): seq<Bus> { [WriteData(ZERO)] + Receiving(c) }

  /** One byte queued in an otherwise empty link, none of it 0xFF. */
  predicate Pending(u: State, p: nat) {
    && Sized(u) && Plain(u) && LinkOk(u.control, u.tx, u.rx, []) && Held(u.tx, u.rx, []) == [ZERO]
    && u.tx.fifo.Count() == 1 && u.tx.fifo.head == p && u.rx.fifo.IsEmpty() && Absent(ALL_ONES, u.tx, u.rx, [])
  }

  lemma ReadyQueues(u: State, p: nat)
    requires Ready(u, p) && p < 15
    ensures var v := Step(u, WriteData(ZERO), u.tx.line);
      && v.control == u.control && Pending(v, p + 1)
      && Room(u.control, u.tx, u.rx, WriteData(ZERO)) && Got(u.rx, WriteData(ZERO)) == []
  {
    hide Step, RxNext, Plain, WireOk, Absent, Sample, NewFrame, Frame, FrameBits;
    var b := WriteData(ZERO);
    QuietIsOk(u);
    PlainStep(u, b, u.tx.line);
    LinkStep(u.control, u.tx, u.rx, [], b);
    AbsentStep(ALL_ONES, u.control, u.tx, u.rx, [], b);
    IdleStays(u.control, u.rx, b, u.tx.line);
  }

  lemma IdleStays(c: Control, r: Rx, b: Bus, pin: bool)
    requires RingOk(r.fifo) && !r.busy && r.sync2 && !b.ReadData?
    ensures RxNext(c, r, b, pin).fifo == r.fifo && !Ends(c, r)
  {
  }

  lemma RoundFits(v: State, p: nat)
    requires Pending(v, p)
    ensures NoWrites(Receiving(v.control)) && Fits(v, Receiving(v.control))
  {
    hide Plain, WireOk, Absent, Fits, Span;
    LightTrafficFits(v, Receiving(v.control), []);
  }

  /** The byte arrives, is read, and leaves the link as it was. */
  lemma PendingArrives(v: State, p: nat)
    requires Pending(v, p)
    ensures var w := Run(v, Receiving(v.control));
      w.control == v.control && Ready(w, p) && Fits(v, Receiving(v.control))
          && ALL_ONES !in AllGot(v, Receiving(v.control))
  {
    hide Step, Plain, WireOk, TimingOk, Absent, Fits, Span, Run, AllGot, AllSent, AllFlights, NoWrites, Sized, Ordinary;
    var c, n := v.control, Span(v.control) + 1;
    RoundFits(v, p);
    WireIsTimed(c, v.tx, v.rx, []);
    assert Backlog(c, v.tx, []) == n;
    RunDrains(v, Silence(n), []);
    RunDrains(v, Receiving(c), []);
    RunAppends(v, Silence(n), [ReadData]);
    SilenceReadsNothing(v, n);
    AllArrived(v, Silence(n), []);
    AllArrived(v, Receiving(c), []);
    NeverWritten(Receiving(c));
    AbsentRun(ALL_ONES, v, Receiving(c), []);
    LinkRun(v, Receiving(c), []);
    var x, w := Run(v, Silence(n)), Run(v, Receiving(c));
    assert x.rx.fifo.Contents() == [ZERO];
    ReadsTheByte(x);
    assert AllGot(v, Receiving(c)) == [ZERO];
    assert [ZERO] + w.rx.fifo.Contents() == [ZERO];
    assert |w.rx.fifo.Contents()| == 0;
    RestMeansLanded(c, w.tx, w.rx, []);
  }

  lemma NeverWritten(ins: seq<Bus>)
    requires NoWrites(ins)
    ensures NeverWrites(ALL_ONES, ins)
  {
  }

  lemma ReadsTheByte(x: State)
    requires Sized(x) && x.rx.fifo.Valid() && x.rx.fifo.Contents() == [ZERO]
    ensures AllGot(x, [ReadData]) == [ZERO]
  {
    hide Step;
    PopRemoves(x.rx.fifo);
    StepSized(x, ReadData, x.tx.line);
  }

  lemma RoundMoves(u: State, p: nat)
    requires Ready(u, p) && p < 15
    ensures var w := Run(u, Round(u.control));
      w.control == u.control && Ready(w, p + 1) && Fits(u, Round(u.control)) && ALL_ONES !in AllGot(u, Round(u.control))
  {
    hide Step, Plain, Quiet, Absent, Pending, Receiving, Room, Got, Sized;
    assert Sized(u) && Ordinary(WriteData(ZERO));
    ReadyQueues(u, p);
    StepSized(u, WriteData(ZERO), u.tx.line);
    PendingArrives(Step(u, WriteData(ZERO), u.tx.line), p + 1);
    assert Round(u.control)[1..] == Receiving(u.control);
  }

  function Rounds(c: Control, j: nat): seq<Bus> { if j == 0 then [] else Rounds(c, j - 1) + Round(c) }

  lemma {:induction false} RoundsMove(u: State, j: nat)
    requires Ready(u, 0) && j <= 7
    ensures Sized(u)
    ensures var w := Run(u, Rounds(u.control, j));
      && w.control == u.control && Ready(w, j)
      && Fits(u, Rounds(u.control, j)) && ALL_ONES !in AllGot(u, Rounds(u.control, j))
    decreases j
  {
    hide Step, Plain, Quiet, Absent, Round;
    if j > 0 {
      RoundsMove(u, j - 1);
      RoundMoves(Run(u, Rounds(u.control, j - 1)), j - 1);
      RunAppends(u, Rounds(u.control, j - 1), Round(u.control));
    }
  }

  // ---- nine writes in a row ----

  /** The second byte of the burst is 0xFF. */
  function BurstByte(k: nat): Byte { if k == 1 then ALL_ONES else ZERO }

  function Burst(k: nat): seq<Bus> { if k == 0 then [] else Burst(k - 1) + [WriteData(BurstByte(k - 1))] }

  /** The frame of the first byte, once it has been loaded. */
  function BurstFlight(k: nat): seq<Flight> { if k < 2 then [] else [Flight(ZERO, k - 2)] }

  /** After `k` writes: the first byte is being sent, the others wait, 0xFF at place 0 of the buffer. */
  predicate Filling(u: State, k: nat) {
    && k <= 9 && Sized(u) && Plain(u) && LinkOk(u.control, u.tx, u.rx, BurstFlight(k))
    && u.tx.fifo.head == (7 + k) % 16 && u.tx.fifo.tail == (if k < 2 then 7 else 8)
    && (k >= 1 ==> u.tx.fifo.buf[7] == ZERO)
    && (forall i :: 1 <= i < DEPTH ==> u.tx.fifo.buf[i] != ALL_ONES)
    && NotIn(ALL_ONES, u.rx.fifo.buf) && u.rx.fifo.IsEmpty()
  }

  lemma ReadyIsFilling(u: State)
    requires Ready(u, 7)
    ensures Filling(u, 0)
  {
    hide Plain, WireOk;
    QuietIsOk(u);
  }

  /** During the burst the transmitter loads the first byte and no other, and no frame ends. */
  lemma BurstTiming(u: State, k: nat)
    requires Filling(u, k) && k < 9
    ensures Loads(u.tx) <==> k == 1
    ensures !Ends(u.control, u.rx)
    ensures FlightsNext(u.control, u.tx, u.rx, BurstFlight(k)) == BurstFlight(k + 1)
  {
    hide Level, InStep, Sampled, Frame, Ends;
    var c, m := u.control, BurstFlight(k);
    WireIsTimed(c, u.tx, u.rx, m);
    if m == [] {
      NothingEnds(c, u.tx, u.rx);
    } else {
      AgeBound(c, u.rx, m);
    }
  }

  lemma NothingEnds(c: Control, t: Tx, r: Rx)
    requires TimingOk(c, t, r, [])
    ensures !Ends(c, r) && t.bits == 0
  {
  }

  lemma BurstQueue(c: Control, t: Tx, k: nat)
    requires RingOk(t.fifo) && k < 9 && (Loads(t) <==> k == 1)
    requires t.fifo.head == (7 + k) % 16 && t.fifo.tail == (if k < 2 then 7 else 8)
    requires forall i :: 1 <= i < DEPTH ==> t.fifo.buf[i] != ALL_ONES
    requires k >= 1 ==> t.fifo.buf[7] == ZERO
    ensures var b := WriteData(BurstByte(k)); var f := TxNext(c, t, b).fifo;
      && Sent(t, b) == [BurstByte(k)] && !WrappedFull(t.fifo)
      && f.head == (7 + (k + 1)) % 16 && f.tail == (if k + 1 < 2 then 7 else 8) && f.buf[7] == ZERO
      && forall i :: 1 <= i < DEPTH ==> f.buf[i] != ALL_ONES
  {
    hide Frame, FrameBits;
  }

  lemma BurstStep(u: State, k: nat)
    requires Filling(u, k) && k < 9
    ensures var b := WriteData(BurstByte(k)); var v := Step(u, b, u.tx.line);
      && v.control == u.control && Filling(v, k + 1) && Room(u.control, u.tx, u.rx, b)
      && Sent(u.tx, b) == [BurstByte(k)] && Got(u.rx, b) == []
  {
    hide Step, TxNext, RxNext, FlightsNext, Plain, WireOk, Ends, Loads, Sent, Clean, BurstFlight;
    var b, m := WriteData(BurstByte(k)), BurstFlight(k);
    BurstTiming(u, k);
    PlainStep(u, b, u.tx.line);
    BurstQueue(u.control, u.tx, k);
    LinkStep(u.control, u.tx, u.rx, m, b);
    NothingDelivered(u.control, u.rx, b, u.tx.line);
  }

  lemma NothingDelivered(c: Control, r: Rx, b: Bus, pin: bool)
    requires RingOk(r.fifo) && !Ends(c, r) && !b.ReadData?
    ensures RxNext(c, r, b, pin).fifo == r.fifo
  {
    hide Sample, NewFrame;
  }

  lemma {:induction false} BurstRuns(u: State, k: nat)
    requires Ready(u, 7) && k <= 9
    ensures Sized(u)
    ensures var v := Run(u, Burst(k));
      && v.control == u.control && Filling(v, k) && Fits(u, Burst(k)) && AllGot(u, Burst(k)) == []
      && (k >= 2 ==> ALL_ONES in AllSent(u, Burst(k)))
    decreases k
  {
    hide Step, Ready, Filling, Ordinary, Room, Sent, Got, Sized;
    assert Sized(u) by { ReadyIsSized(u); }
    if k == 0 {
      ReadyIsFilling(u);
    } else {
      BurstRuns(u, k - 1);
      var v, b := Run(u, Burst(k - 1)), WriteData(BurstByte(k - 1));
      RunAppends(u, Burst(k - 1), [b]);
      BurstStep(v, k - 1);
      StepSized(v, b, v.tx.line);
      assert Ordinary(b) by { WritesAreOrdinary(b); }
      assert [b][1..] == [];
    }
  }

  lemma ReadyIsSized(u: State)
    requires Ready(u, 7)
    ensures Sized(u)
  {
  }

  lemma FillingIsSized(u: State, k: nat)
    requires Filling(u, k)
    ensures Sized(u) && RingOk(u.tx.fifo)
  {
  }

  lemma WritesAreOrdinary(b: Bus)
    requires b.WriteData?
    ensures Ordinary(b)
  {
  }

  // ---- the lost byte ----

  /** Seven bytes sent, received and read one by one, then nine written in a row. */
  function UpToFull(c: Control): seq<Bus> { Rounds(c, 7) + Burst(9) }

  lemma FullAcrossWrap(u: State)
    requires Filling(u, 9)
    ensures u.tx.fifo.Valid() && WrappedFull(u.tx.fifo)
  {
  }

  /** The write that the flag lets in erases 0xFF, the oldest byte waiting. */
  lemma OverwriteErases(u: State)
    requires Filling(u, 9)
    ensures var v, m := Step(u, WriteData(ZERO), u.tx.line), FlightsNext(u.control, u.tx, u.rx, BurstFlight(9));
      && v.control == u.control && Sized(v) && Plain(v)
      && WireOk(v.control, v.tx, v.rx, m) && Absent(ALL_ONES, v.tx, v.rx, m) && Got(u.rx, WriteData(ZERO)) == []
  {
    hide Step, RxNext, Plain, WireOk, Ends, Frame, FrameBits, Level, InStep, Sampled;
    var c, b, m := u.control, WriteData(ZERO), BurstFlight(9);
    WireIsTimed(c, u.tx, u.rx, m);
    AgeBound(c, u.rx, m);
    PlainStep(u, b, u.tx.line);
    WireStep(c, u.tx, u.rx, m, b);
    NothingDelivered(c, u.rx, b, u.tx.line);
    assert !Loads(u.tx);
  }

  lemma ResetIsReady()
    ensures Ready(RESET, 0)
  {
  }

  /** From reset, by ordinary traffic with room in the FIFOs: the transmit FIFO is full across the wrap; one more
      write, and 0xFF, although the FIFO had accepted it, is never received in any continuation that does not write
      it again. */
  lemma AcceptedByteNeverReceived(post: seq<Bus>)
    requires NeverWrites(ALL_ONES, post)
    ensures Sized(RESET)
    ensures var full := Run(RESET, UpToFull(RESET.control));
      Fits(RESET, UpToFull(RESET.control)) && full.tx.fifo.Valid() && WrappedFull(full.tx.fifo)
    ensures var all := UpToFull(RESET.control) + ([WriteData(ZERO)] + post);
      ALL_ONES in AllSent(RESET, all) && ALL_ONES !in AllGot(RESET, all)
  {
    hide Step, Ready, Filling, Plain, WireOk, Absent, Sent, Got, Rounds, Burst, Room, Sized, NeverWrites;
    ResetIsReady();
    var c := RESET.control;
    RoundsMove(RESET, 7);
    var u := Run(RESET, Rounds(c, 7));
    BurstRuns(u, 9);
    var v := Run(u, Burst(9));
    FillingIsSized(v, 9);
    FullAcrossWrap(v);
    OverwriteErases(v);
    var m := FlightsNext(v.control, v.tx, v.rx, BurstFlight(9));
    var last := [WriteData(ZERO)] + post;
    assert last[1..] == post;
    AbsentRun(ALL_ONES, Step(v, WriteData(ZERO), v.tx.line), post, m);
    RunAppends(RESET, Rounds(c, 7), Burst(9));
    RunAppends(RESET, UpToFull(c), last);
  }
}
