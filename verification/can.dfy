/** The CAN controller: loopback transmission through the acceptance filter into a four-entry receive ring. */
module Can {
  import opened Rings
  import opened Words
  import opened ExecuteStage
  import opened Arithmetic

  const ENTRIES := 4

  datatype Frame = Frame(id: Word, dlc: Word, data0: Word, data1: Word)

  datatype Control = Control(enable: bool, loopback: bool, quiet: bool, bypass: bool)

  datatype Filter = Filter(id: Word, mask: Word)

  /** STATUS bits 0 and 2, IRQ_STATUS bits 0 to 2, and the error counter. */
  datatype Flags = Flags(ready: bool, overflow: bool, irqReady: bool, irqDone: bool, irqOverflow: bool, errors: nat)

  datatype State = State(control: Control, filter: Filter, mailbox: Frame, fifo: Ring<Frame>, flags: Flags)

  /** A bus write. Timing and interrupt-enable registers steer nothing here and count as `Other`. */
  datatype Bus =
    | Other
    | WriteControl(control: Control)
    | WriteErrors(errors: nat)
    | Acknowledge(bit0: bool, bit1: bool, bit2: bool)
    | WriteFilter(filter: Filter)
    | WriteMailbox(mailbox: Frame)
    | Send
    | FifoCommand(pop: bool, flush: bool, clear: bool)

  predicate Valid(c: State) { c.fifo.Valid() && c.fifo.Cap() == ENTRIES && c.flags.errors < MODULUS }

  const EMPTY := Frame(0, 0, 0, 0)

  const RESET := State(Control(true, false, false, false), Filter(0, 0), EMPTY,
      Ring([EMPTY, EMPTY, EMPTY, EMPTY], 0, 0),
                       Flags(false, false, false, false, false, 0))

  function Masked(a: Word, mask: Word): Word { a & mask }

  predicate Matches(f: Filter, id: Word) { Masked(id, f.mask) == Masked(f.id, f.mask) }

  /** A send reaches the receive side: looped back, not suppressed by quiet mode, and let through by the filter. */
  predicate Offers(c: State) {
    && c.control.enable && c.control.loopback && !c.control.quiet
    && (c.control.bypass || Matches(c.filter, c.mailbox.id))
  }

  predicate Full(c: State) { c.fifo.Count() >= ENTRIES }

  function FlagsAfterSend(c: State): Flags {
    var f := c.flags;
    if !c.control.enable then f
    else if !Offers(c) then f.(irqDone := true)
    else if Full(c) then f.(irqDone := true, overflow := true, irqOverflow := true, errors := (f.errors + 1) % MODULUS)
    else f.(irqDone := true, ready := true, irqReady := true)
  }

  function FifoAfterCommand(c: State, pop: bool, flush: bool): Ring<Frame> {
    if flush then c.fifo.(tail := c.fifo.head)
    else if pop && c.fifo.Count() != 0 then c.fifo.Pop()
    else c.fifo
  }

  function FlagsAfterCommand(c: State, pop: bool, flush: bool, clear: bool): Flags {
    var f := if flush || (pop && c.fifo.Count() == 1) then c.flags.(ready := false) else c.flags;
    if clear then f.(overflow := false, irqOverflow := false) else f
  }

  /** One clock edge. */
  function Step(c: State, bus: Bus): State
    requires Valid(c)
  {
    match bus
    case Other => c
    case WriteControl(x) => c.(control := x)
    case WriteErrors(e) => c.(flags := c.flags.(errors := e % MODULUS))
    case Acknowledge(b0, b1, b2) =>
      c.(flags := c.flags.(irqReady := c.flags.irqReady && !b0, irqDone := c.flags.irqDone && !b1,
                           irqOverflow := c.flags.irqOverflow && !b2, ready := c.flags.ready && !b0))
    case WriteFilter(x) => c.(filter := x)
    case WriteMailbox(x) => c.(mailbox := x)
    case Send => c.(fifo := if Offers(c) && !Full(c) then c.fifo.Push(c.mailbox) else c.fifo,
        flags := FlagsAfterSend(c))
    case FifoCommand(pop, flush, clear) =>
      c.(fifo := FifoAfterCommand(c, pop, flush), flags := FlagsAfterCommand(c, pop, flush, clear))
  }

  // ---- the bounded queue it should be ----

  datatype Event = Nothing | Arrives(frame: Frame) | Pops | Flushes

  function EventOf(c: State, bus: Bus): Event {
    match bus
    case Send => if Offers(c) then Arrives(c.mailbox) else Nothing
    case FifoCommand(pop, flush, _) => if flush then Flushes else if pop then Pops else Nothing
    case _ => Nothing
  }

  function QueueStep(q: seq<Frame>, e: Event): (r: seq<Frame>)
  {
    match e
    case Nothing => q
    case Arrives(f) => if |q| < ENTRIES then q + [f] else q
    case Pops => if q == [] then q else q[1..]
    case Flushes => []
  }

  lemma FlushedRing(r: Ring<Frame>)
    requires r.Valid()
    ensures r.(tail := r.head).Valid() && r.(tail := r.head).Contents() == []
  {
  }

  /** One edge of the ring is one step of a queue of at most four frames, and the entry count is the pointer
      difference in three bits. */
  lemma RingRefinesQueue(c: State, bus: Bus)
    requires Valid(c)
    ensures Valid(Step(c, bus))
    ensures Step(c, bus).fifo.Contents() == QueueStep(c.fifo.Contents(), EventOf(c, bus))
    ensures |c.fifo.Contents()| == c.fifo.Count() == (c.fifo.head + 8 - c.fifo.tail) % 8 && c.fifo.Count() <= ENTRIES
  {
    match bus {
      case Send => if Offers(c) && !Full(c) { PushAppends(c.fifo, c.mailbox); }
      case FifoCommand(pop, flush, clear) =>
        if flush { FlushedRing(c.fifo); }
        else if pop && c.fifo.Count() != 0 { PopRemoves(c.fifo); }
      case _ =>
    }
  }

  /** The mailbox registers show the oldest pending frame. */
  lemma MailboxIsOldest(c: State)
    requires Valid(c) && c.fifo.Contents() != []
    ensures c.fifo.Front() == c.fifo.Contents()[0]
  {
    PopRemoves(c.fifo);
  }

  // ---- runs ----

  function Run(c: State, ins: seq<Bus>): State
    requires Valid(c)
    decreases ins
  {
    if ins == [] then c else RingRefinesQueue(c, ins[0]); Run(Step(c, ins[0]), ins[1..])
  }

  function Accepted(c: State, bus: Bus): seq<Frame> { if bus.Send? && Offers(c) && !Full(c) then [c.mailbox] else [] }

  function Dropped(c: State, bus: Bus): seq<Frame> { if bus.Send? && Offers(c) && Full(c) then [c.mailbox] else [] }

  /** The frame a pop takes, which is the one the mailbox registers showed. */
  function Popped(c: State, bus: Bus): seq<Frame>
    requires Valid(c)
  {
    if bus.FifoCommand? && !bus.flush && bus.pop && !c.fifo.IsEmpty() then [c.fifo.Front()] else []
  }

  function Flushed(c: State, bus: Bus): seq<Frame>
    requires Valid(c)
  {
    if bus.FifoCommand? && bus.flush then c.fifo.Contents() else []
  }

  /** What a run accepted, dropped, and removed by popping or flushing, in order of time. */
  datatype Ledger = Ledger(accepted: seq<Frame>, dropped: nat, removed: seq<Frame>, popped: nat, flushed: nat)

  function Tally(c: State, ins: seq<Bus>): Ledger
    requires Valid(c)
    decreases ins
  {
    if ins == [] then Ledger([], 0, [], 0, 0)
    else
      RingRefinesQueue(c, ins[0]);
      var rest, pops, flushes := Tally(Step(c, ins[0]), ins[1..]), Popped(c, ins[0]), Flushed(c, ins[0]);
      Ledger(Accepted(c, ins[0]) + rest.accepted, |Dropped(c, ins[0])| + rest.dropped,
             pops + flushes + rest.removed, |pops| + rest.popped, |flushes| + rest.flushed)
  }

  lemma StepFlows(c: State, bus: Bus)
    requires Valid(c)
    ensures Valid(Step(c, bus))
    ensures Popped(c, bus) + Flushed(c, bus) + Step(c, bus).fifo.Contents() == c.fifo.Contents() + Accepted(c, bus)
  {
    RingRefinesQueue(c, bus);
    if bus.FifoCommand? && !bus.flush && bus.pop && !c.fifo.IsEmpty() { PopRemoves(c.fifo); }
  }

  lemma Chain(gone: seq<Frame>, mid: seq<Frame>, first: seq<Frame>, took: seq<Frame>, gones: seq<Frame>,
      last: seq<Frame>, tooks: seq<Frame>)
    requires gone + mid == first + took && gones + last == mid + tooks
    ensures gone + gones + last == first + (took + tooks)
  {
    calc {
      gone + gones + last;
      gone + (gones + last);
      (gone + mid) + tooks;
      first + (took + tooks);
    }
  }

  /** Over any run of bus commands: frames leave in the order they were accepted, none is lost or invented between,
      and accepted = popped + flushed + pending. */
  lemma {:induction false} FramesLeaveInOrder(c: State, ins: seq<Bus>)
    requires Valid(c)
    ensures var v, l := Run(c, ins), Tally(c, ins);
      && Valid(v)
      && l.removed + v.fifo.Contents() == c.fifo.Contents() + l.accepted
      && |c.fifo.Contents()| + |l.accepted| == l.popped + l.flushed + |v.fifo.Contents()|
    decreases ins
  {
    hide Step, Popped, Flushed, Accepted, Dropped, Valid;
    RingsValid(c);
    if ins != [] {
      var v := Step(c, ins[0]);
      StepFlows(c, ins[0]);
      FramesLeaveInOrder(v, ins[1..]);
      RingsValid(v);
      RingsValid(Run(v, ins[1..]));
      var l := Tally(v, ins[1..]);
      Chain(Popped(c, ins[0]) + Flushed(c, ins[0]), v.fifo.Contents(), c.fifo.Contents(), Accepted(c, ins[0]),
            l.removed, Run(v, ins[1..]).fifo.Contents(), l.accepted);
    }
  }

  lemma RingsValid(c: State)
    requires Valid(c)
    ensures c.fifo.Valid()
  {
  }

  /** A frame is dropped exactly when it is offered while four are pending; each drop counts one error. */
  lemma DropsExactlyWhenFull(c: State, bus: Bus)
    requires Valid(c)
    ensures Dropped(c, bus) != [] <==> (EventOf(c, bus).Arrives? && |c.fifo.Contents()| == ENTRIES)
    ensures Dropped(c, bus) != [] ==> Step(c, bus).flags.overflow && Step(c, bus).fifo == c.fifo
                                      && Step(c, bus).flags.errors == (c.flags.errors + 1) % MODULUS
    ensures Step(c, bus).flags.overflow && !c.flags.overflow ==> Dropped(c, bus) != []
  {
    RingRefinesQueue(c, bus);
  }

  // ---- the "receive pending" bit ----

  /** STATUS bit 0 never claims a frame that is not there. */
  lemma ReadyMeansPending(c: State, bus: Bus)
    requires Valid(c) && (c.flags.ready ==> c.fifo.Contents() != [])
    ensures Valid(Step(c, bus)) && (Step(c, bus).flags.ready ==> Step(c, bus).fifo.Contents() != [])
  {
    RingRefinesQueue(c, bus);
  }

  /** STATUS bit 0 says "not empty" and goes on saying so, unless an acknowledge write clears it over pending frames. */
  lemma ReadyIsNotEmptyIff(c: State, bus: Bus)
    requires Valid(c) && (c.flags.ready <==> c.fifo.Contents() != [])
    ensures var v := Step(c, bus);
      && Valid(v)
      && ((v.flags.ready <==> v.fifo.Contents() != []) <==>
            !(bus.Acknowledge? && bus.bit0 && c.fifo.Contents() != []))
  {
    RingRefinesQueue(c, bus);
  }

  predicate NeverAcknowledged(ins: seq<Bus>) { forall i :: 0 <= i < |ins| ==> !(ins[i].Acknowledge? && ins[i].bit0) }

  /** For whole runs from reset: bit 0 implies a pending frame, and is exactly "not empty" if bit 0 is never
      acknowledged. */
  lemma {:induction false} ReadyOverRuns(c: State, ins: seq<Bus>)
    requires Valid(c) && (c.flags.ready ==> c.fifo.Contents() != [])
    ensures var v := Run(c, ins);
      && Valid(v) && (v.flags.ready ==> v.fifo.Contents() != [])
      && (NeverAcknowledged(ins) && (c.fifo.Contents() != [] ==> c.flags.ready) ==>
            (v.flags.ready <==> v.fifo.Contents() != []))
    decreases ins
  {
    hide Step;
    if ins != [] {
      RingRefinesQueue(c, ins[0]);
      ReadyMeansPending(c, ins[0]);
      if c.fifo.Contents() != [] ==> c.flags.ready { ReadyIsNotEmptyIff(c, ins[0]); }
      ReadyOverRuns(Step(c, ins[0]), ins[1..]);
      assert forall i :: 0 <= i < |ins[1..]| ==> ins[1..][i] == ins[i + 1];
    }
  }

  // ---- what a send and the flags mean ----

  lemma MaskedBits(a: Word, mask: Word, i: nat)
    ensures Bit(Masked(a, mask), i) <==> Bit(a, i) && Bit(mask, i)
  {
    hide Bit, Alu, Masked;
    AndIs(a, mask);
    AndBits(a, mask, i);
  }

  lemma AndIs(a: Word, b: Word)
    ensures Alu(AND, a, b) == Masked(a, b)
  {
  }

  /** The two agree on the bits of the mask. */
  ghost predicate Agree(mask: Word, a: Word, b: Word) { forall i: nat :: Bit(mask, i) ==> Bit(a, i) == Bit(b, i) }

  /** The acceptance filter compares the identifier with its own on exactly the bits of the mask. */
  lemma MatchesIff(f: Filter, id: Word)
    ensures Matches(f, id) <==> Agree(f.mask, id, f.id)
  {
    hide Bit, Masked;
    var a, b := Masked(id, f.mask), Masked(f.id, f.mask);
    forall i: nat
      ensures Bit(a, i) == (Bit(id, i) && Bit(f.mask, i)) && Bit(b, i) == (Bit(f.id, i) && Bit(f.mask, i))
    {
      MaskedBits(id, f.mask, i);
      MaskedBits(f.id, f.mask, i);
    }
    if Agree(f.mask, id, f.id) { BitsDecide(a, b); }
  }

  /** A sent frame is appended to the pending ones exactly when the controller is enabled and looped back, not in quiet
      mode, bypasses the filter or has an identifier that passes it, and fewer than four frames are pending. */
  lemma SendAppendsIff(c: State)
    requires Valid(c)
    ensures var x, q := c.control, c.fifo.Contents();
      Valid(Step(c, Send)) && Step(c, Send).fifo.Contents() ==
        if x.enable && x.loopback && !x.quiet && |q| < 4
          && (x.bypass || Agree(c.filter.mask, c.mailbox.id, c.filter.id))
        then q + [c.mailbox] else q
  {
    hide Agree, Step;
    RingRefinesQueue(c, Send);
    MatchesIff(c.filter, c.mailbox.id);
  }

  /** Each flag is set by its event and otherwise changes only by its own acknowledge or clear. */
  lemma FlagsLatch(c: State, bus: Bus)
    requires Valid(c)
    ensures var v, f := Step(c, bus).flags, c.flags;
      && (v.irqDone <==> (bus.Send? && c.control.enable) || (f.irqDone && !(bus.Acknowledge? && bus.bit1)))
      && (v.irqReady <==> Accepted(c, bus) != [] || (f.irqReady && !(bus.Acknowledge? && bus.bit0)))
      && (v.irqOverflow <==> Dropped(c, bus) != []
                             || (f.irqOverflow && !(bus.Acknowledge? && bus.bit2) && !(bus.FifoCommand? && bus.clear)))
      && (v.overflow <==> Dropped(c, bus) != [] || (f.overflow && !(bus.FifoCommand? && bus.clear)))
      && v.errors == (if bus.WriteErrors? then bus.errors % MODULUS
                      else if Dropped(c, bus) != [] then (f.errors + 1) % MODULUS else f.errors)
  {
  }

  /** Every setting is reached from reset by its register writes. */
  lemma Configured(x: Control, filter: Filter, mailbox: Frame)
    ensures Valid(RESET)
    ensures Run(RESET, [WriteControl(x), WriteFilter(filter), WriteMailbox(mailbox)]) ==
      RESET.(control := x, filter := filter, mailbox := mailbox)
  {
    var c1 := RESET.(control := x);
    var c2 := c1.(filter := filter);
    assert Run(c2, [WriteMailbox(mailbox)]) == c2.(mailbox := mailbox);
    assert [WriteFilter(filter), WriteMailbox(mailbox)][1..] == [WriteMailbox(mailbox)];
    assert Run(c1, [WriteFilter(filter), WriteMailbox(mailbox)]) == Run(c2, [WriteMailbox(mailbox)]);
    var ins := [WriteControl(x), WriteFilter(filter), WriteMailbox(mailbox)];
    assert ins[1..] == [WriteFilter(filter), WriteMailbox(mailbox)];
  }

  // ---- the clocked block ----

  class CanUnit {
    var control: Control
    var filter: Filter
    var mailbox: Frame
    const slots: array<Frame>
    var head: nat
    var tail: nat
    var flags: Flags

    function Snapshot(): State
      reads this, slots
    {
      State(control, filter, mailbox, Ring(slots[..], head, tail), flags)
    }

    constructor ()
      ensures Snapshot() == RESET && Valid(Snapshot()) && fresh(slots)
      ensures control == Control(true, false, false, false) && Snapshot().fifo.Contents() == []
    {
      control, filter, mailbox, flags := RESET.control, RESET.filter, EMPTY, RESET.flags;
      head, tail := 0, 0;
      slots := new Frame[4][EMPTY, EMPTY, EMPTY, EMPTY];
    }

    /** The three-bit difference of the pointers. */
    function Entries(): int
      reads this
    {
      (head + 8 - tail) % 8
    }

    /** One clock edge with this bus write. */
    method Tick(bus: Bus)
      requires Valid(Snapshot())
      modifies this, slots
      ensures Snapshot() == Step(old(Snapshot()), bus)
      ensures Valid(Snapshot())
    {
      hide FlagsAfterSend, FlagsAfterCommand, FifoAfterCommand, Offers, Full, QueueStep, EventOf;
      ghost var c := Snapshot();
      RingRefinesQueue(c, bus);
      match bus {
        case Other =>
        case WriteControl(x) => control := x;
        case WriteErrors(e) => flags := flags.(errors := e % MODULUS);
        case Acknowledge(b0, b1, b2) =>
          flags := flags.(irqReady := flags.irqReady && !b0, irqDone := flags.irqDone && !b1,
              irqOverflow := flags.irqOverflow && !b2);
          if b0 { flags := flags.(ready := false); }
        case WriteFilter(x) => filter := x;
        case WriteMailbox(x) => mailbox := x;
        case Send => Transmit();
        case FifoCommand(pop, flush, clear) => Drain(pop, flush, clear);
      }
    }

    /** The receive FIFO command. */
    method Drain(pop: bool, flush: bool, clear: bool)
      requires Valid(Snapshot())
      modifies `tail, `flags
      ensures Snapshot() == Step(old(Snapshot()), FifoCommand(pop, flush, clear))
    {
      var entries := Entries();
      if flush {
        tail := head;
        flags := flags.(ready := false);
      } else if pop && entries != 0 {
        tail := (tail + 1) % 8;
        if entries == 1 { flags := flags.(ready := false); }
      }
      if clear { flags := flags.(overflow := false, irqOverflow := false); }
    }

    /** The send command. */
    method Transmit()
      requires Valid(Snapshot())
      modifies this, slots
      ensures Snapshot() == Step(old(Snapshot()), Send)
    {
      hide QueueStep, EventOf, Matches;
      if control.enable {
        if control.loopback && !control.quiet && (control.bypass || Matches(filter, mailbox.id)) {
          if Entries() < 4 {
            slots[head % 4] := mailbox;
            head := (head + 1) % 8;
            flags := flags.(ready := true, irqReady := true);
          } else {
            flags := flags.(errors := (flags.errors + 1) % MODULUS, overflow := true, irqOverflow := true);
          }
        }
        flags := flags.(irqDone := true);
      }
    }

    /** The receive mailbox registers. */
    method ReadMailbox() returns (f: Frame)
      requires Valid(Snapshot())
      ensures f == Snapshot().fifo.Front()
      ensures Snapshot().fifo.Contents() != [] ==> f == Snapshot().fifo.Contents()[0]
    {
      f := slots[tail % 4];
      if Snapshot().fifo.Contents() != [] { MailboxIsOldest(Snapshot()); }
    }
  }
}
