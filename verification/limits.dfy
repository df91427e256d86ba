/** The divider bound of the serial link is sharp: with a divider of 0 or 1, for every parity and stop setting, a byte
    whose lowest bit is one is lost. */
module LinkLimits {
  import opened Rings
  import opened Uart
  import opened WireTiming
  import opened SerialLink

  const ALL_ONES: Byte := [true, true, true, true, true, true, true, true]

  predicate Settled(c: Control) { c.enable && !c.lin }

  /** A UART out of reset with its control and divider registers written. */
  function Start(c: Control): State { State(c, RESET.tx, RESET.rx, RESET.lin) }

  lemma StartIsQuiet(c: Control)
    requires Settled(c)
    ensures Sized(Start(c)) && Plain(Start(c)) && Quiet(Start(c))
  {
  }

  /** Two register writes out of reset. */
  function Setup(c: Control): seq<Bus> {
    [WriteControl(c.enable, c.parity, c.odd, c.twoStop, c.lin), WriteBaud(c.baudDiv)]
  }

  /** An edge of the resting UART that only writes its control or divider register. */
  lemma RestingStep(c: Control, bus: Bus)
    requires Settled(c) && (bus.WriteControl? || bus.WriteBaud?)
    ensures Sized(Start(c)) && Step(Start(c), bus, true) == BusStage(Start(c), Start(c), bus)
  {
    hide Ones, NewFrame, Clean, FlagFull, GateBlocks;
  }

  /** `Start(c)` is where reset and the two writes lead. */
  lemma StartIsReached(c: Control)
    requires Settled(c)
    ensures Sized(RESET) && Run(RESET, Setup(c)) == Start(c)
  {
    hide Step;
    var c0 := RESET.control;
    RestingStep(c0, Setup(c)[0]);
    var c1 := c.(baudDiv := c0.baudDiv);
    assert Start(c0) == RESET;
    assert Step(RESET, Setup(c)[0], true) == Start(c1);
    RestingStep(c1, Setup(c)[1]);
    StepSized(RESET, Setup(c)[0], true);
    StepSized(Start(c1), Setup(c)[1], true);
    assert Run(RESET, Setup(c)) == Run(Start(c1), Setup(c)[1..]);
    assert Setup(c)[1..] == [Setup(c)[1]];
    assert Step(Start(c1), Setup(c)[1], true) == Start(c);
    var last := [Setup(c)[1]];
    assert last[0] == Setup(c)[1] && last[1..] == [] && Start(c1).tx.line;
    assert Run(Start(c1), last) == Run(Start(c), []);
  }

  // ---- a small divider samples one bit late ----

  /** The start bit's sample falls into the lowest data bit. */
  lemma StartSampleIsData(c: Control, t: Tx, r: Rx, m: seq<Flight>)
    requires TimingOk(c, t, r, m) && c.baudDiv < 2 && r.busy && r.counter >= c.baudDiv && r.index == 0
    ensures m != [] && r.sync2 == m[0].byte[0]
  {
    hide TxOk, FrameBits, BuildFrame, Hold;
    AgeBound(c, r, m);
    FrameShape(c, m[0].byte);
    var d := c.baudDiv;
    SamplingPoint(Frame(c, m[0].byte), d, 0);
    assert Ticks(1, d) == d + 1;
    assert |m| == 1 && m[0].age == Ticks(1, d) + d + 3 - d / 2;
  }

  /** Every frame in flight carries a byte whose lowest bit is one, and once the start bit has been sampled the receiver
      has noted an error. */
  predicate Doomed(r: Rx, m: seq<Flight>) {
    && (r.busy && r.index >= 1 ==> r.frame.startError)
    && forall k :: 0 <= k < |m| ==> m[k].byte[0]
  }

  /** A noted error stays, and spoils the frame. */
  lemma ErrorStays(c: Control, r: Rx, bus: Bus, pin: bool)
    requires RingOk(r.fifo) && r.busy && r.index < 31 && (r.index >= 1 ==> r.frame.startError)
    requires r.counter >= c.baudDiv && r.index == 0 ==> r.sync2
    requires r.index + 1 == r.frame.total ==> r.index >= 1
    ensures var v := RxNext(c, r, bus, pin);
      (v.busy && v.index >= 1 ==> v.frame.startError) && v.fifo == Drained(r.fifo, bus)
  {
    hide Drained, FlagFull, Parity;
  }

  lemma DoomedStep(c: Control, t: Tx, r: Rx, m: seq<Flight>, bus: Bus)
    requires TimingOk(c, t, r, m) && c.baudDiv < 2 && Doomed(r, m) && (Loads(t) ==> t.fifo.Front()[0])
    ensures var r', m' := RxNext(c, r, bus, t.line), FlightsNext(c, t, r, m);
      Doomed(r', m') && r'.fifo == Drained(r.fifo, bus)
  {
    hide TxOk, FrameBits, Level, Drained, NewFrame, Clean, FlagFull;
    FrameShape(c, ZERO);
    if r.busy {
      if r.counter >= c.baudDiv && r.index == 0 { StartSampleIsData(c, t, r, m); }
      ErrorStays(c, r, bus, t.line);
    }
  }

  // ---- the byte is lost ----

  function Silence(n: nat): (s: seq<Bus>)
    ensures |s| == n && NoWrites(s)
  {
    if n == 0 then [] else [NoAccess] + Silence(n - 1)
  }

  /** What is queued is valid and has its lowest bit set. */
  predicate OddQueue(f: Ring<Byte>) { f.Valid() && f.Cap() == DEPTH && forall b :: b in f.Contents() ==> b[0] }

  lemma OddQueueStep(c: Control, t: Tx)
    requires OddQueue(t.fifo)
    ensures Loads(t) ==> t.fifo.Front()[0]
    ensures OddQueue(TxNext(c, t, NoAccess).fifo)
  {
    hide Frame, FrameBits;
    if Loads(t) { PopRemoves(t.fifo); }
  }

  /** While nothing more is written, nothing is delivered. */
  lemma {:induction false} SilentRun(u: State, n: nat, m: seq<Flight>)
    requires Sized(u) && Plain(u) && TimingOk(u.control, u.tx, u.rx, m) && u.control.baudDiv < 2
    requires Doomed(u.rx, m) && OddQueue(u.tx.fifo) && u.rx.fifo.IsEmpty() && u.rx.fifo.Cap() == DEPTH
    ensures var v := Run(u, Silence(n));
      && Fits(u, Silence(n)) && AllSent(u, Silence(n)) == [] && AllGot(u, Silence(n)) == [] && v.rx.fifo == u.rx.fifo
    decreases n
  {
    hide Step, TxNext, RxNext, FlightsNext, Plain, TimingOk, Doomed, OddQueue, Sized;
    if n > 0 {
      RingsNeeded(u.control, u.tx, u.rx, m);
      PlainStep(u, NoAccess, u.tx.line);
      TimingStep(u.control, u.tx, u.rx, m, NoAccess);
      OddQueueStep(u.control, u.tx);
      DoomedStep(u.control, u.tx, u.rx, m, NoAccess);
      assert Silence(n)[0] == NoAccess && Silence(n)[1..] == Silence(n - 1);
      SilentRun(Step(u, NoAccess, u.tx.line), n - 1, FlightsNext(u.control, u.tx, u.rx, m));
    }
  }

  /** One write of 0xFF and enough quiet cycles for its frame to pass. */
  function OneByte(c: Control): seq<Bus> { [WriteData(ALL_ONES)] + Silence(Span(c) + 1) }

  lemma Queueing(c: Control)
    requires Settled(c)
    ensures var t, r := RESET.tx, RESET.rx;
      var t1, r1 := TxNext(c, t, WriteData(ALL_ONES)), RxNext(c, r, WriteData(ALL_ONES), t.line);
      && Sent(t, WriteData(ALL_ONES)) == [ALL_ONES] && FlightsNext(c, t, r, []) == [] && r1 == r
      && OddQueue(t1.fifo) && t1.fifo.Count() == 1
  {
    PushAppends(RESET.tx.fifo, ALL_ONES);
  }

  /** The receiver takes the first data bit for the start bit and drops the frame: the byte is gone although both
      machines rest. */
  lemma SmallDividerLosesByte(c: Control)
    requires Settled(c) && c.baudDiv < 2
    ensures Sized(Start(c)) && Fits(Start(c), OneByte(c))
    ensures var v := Run(Start(c), OneByte(c));
      && AtRest(v) && v.rx.fifo == RESET.rx.fifo
      && AllSent(Start(c), OneByte(c)) == [ALL_ONES] && AllGot(Start(c), OneByte(c)) == []
  {
    hide Step, TxNext, RxNext, FlightsNext, Plain, Quiet, TimingOk, OddQueue, Sent, AtRest, Span;
    StartIsQuiet(c);
    Queueing(c);
    var u, ins := Start(c), OneByte(c);
    QuietIsOk(u);
    PlainStep(u, ins[0], u.tx.line);
    TimingStep(c, u.tx, u.rx, [], ins[0]);
    var u1 := Step(u, ins[0], u.tx.line);
    SilentRun(u1, Span(c) + 1, []);
    RunDrains(u1, Silence(Span(c) + 1), []);
    assert ins[1..] == Silence(Span(c) + 1);
  }

  /** Whatever ordinary traffic with room in the FIFOs: once both machines rest, everything queued has been received. */
  ghost predicate LosesNothing(c: Control)
    requires Sized(Start(c))
  {
    forall ins: seq<Bus> :: Fits(Start(c), ins) ==>
      var v := Run(Start(c), ins);
      Sized(v) && v.rx.fifo.Valid()
      && (AtRest(v) ==> AllGot(Start(c), ins) + v.rx.fifo.Contents() == AllSent(Start(c), ins))
  }

  /** For every parity and stop setting the link is lossless exactly when the divider is at least 2. */
  lemma LosslessIff(c: Control)
    requires Settled(c)
    ensures Sized(Start(c))
    ensures LosesNothing(c) <==> c.baudDiv >= 2
  {
    hide Step, Plain, Quiet, Fits, Run, AllGot, AllSent, AtRest;
    StartIsQuiet(c);
    if c.baudDiv >= 2 {
      forall ins: seq<Bus> | Fits(Start(c), ins)
        ensures var v := Run(Start(c), ins);
          Sized(v) && v.rx.fifo.Valid()
          && (AtRest(v) ==> AllGot(Start(c), ins) + v.rx.fifo.Contents() == AllSent(Start(c), ins))
      {
        ReceivedIsPrefixOfSent(Start(c), ins);
      }
    } else {
      SmallDividerLosesByte(c);
      var v := Run(Start(c), OneByte(c));
      assert v.rx.fifo.Valid() && v.rx.fifo.Contents() == [] by { EmptyStart(); }
      assert AllGot(Start(c), OneByte(c)) + v.rx.fifo.Contents() == [];
    }
  }

  lemma EmptyStart()
    ensures RESET.rx.fifo.Valid() && RESET.rx.fifo.Contents() == []
  {
  }
}
