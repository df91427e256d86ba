/** The clocked block of the core, assignment by assignment, in the order the block makes them.

    A valid bit and the registers it guards are one field (`Held` or `Empty`, `Waiting` or `NoData`, ...). */
module Clocked {
  import opened Words
  import opened RegisterFile
  import opened ExecuteStage
  import opened Core

  class QarCore {
    const cfg: Config
    var pcFetch: Word
    var fetch: Fetch
    var ifs: Slot
    var slot: Slot
    var id: Slot
    var ex: ExSlot
    var data: Data
    var regs: Regs
    var csrs: Csrs
    var mip: Word
    var mtime: Word
    var timerAck: bool
    var extAck: bool
    var icache: map<Row, Line>

    function Snapshot(): State
      reads this
    {
      State(pcFetch, fetch, ifs, slot, id, ex, data, regs, csrs, mip, mtime, timerAck, extAck, icache)
    }

    constructor (cfg: Config)
      ensures this.cfg == cfg && Snapshot() == RESET
    {
      this.cfg := cfg;
      pcFetch, fetch, ifs, slot, id, ex, data := 0, NoFetch, Empty, Empty, Empty, NoEx, NoData;
      csrs := Csrs(0, 0x100, 0, 0, 0, 200, false);
      mip, mtime, timerAck, extAck, icache := 0, 0, false, false, map[];
      regs := seq(32, _ => 0);
    }

    /** One clock edge. Every right-hand side reads the registers as they were before the edge. */
    method Tick(p: Pins)
      modifies this
      ensures Snapshot() == Step(cfg, old(Snapshot()), p)
    {
      hide Step;
      var s := Snapshot();
      var n := NextState(cfg, s, p);
      LatchFront(n);
      LatchBack(n);
    }

    /** The fetch side's registers take their new values. */
    method LatchFront(n: State)
      modifies this`pcFetch, this`fetch, this`ifs, this`slot, this`id, this`ex, this`icache
      ensures pcFetch == n.pcFetch && fetch == n.fetch && ifs == n.ifs && slot == n.slot && id == n.id && ex == n.ex
          && icache == n.icache
    {
      pcFetch, fetch, ifs, slot, id, ex, icache := n.pcFetch, n.fetch, n.ifs, n.slot, n.id, n.ex, n.icache;
    }

    /** The execute side's registers take their new values. */
    method LatchBack(n: State)
      modifies this`data, this`regs, this`csrs, this`mip, this`mtime, this`timerAck, this`extAck
      ensures data == n.data && regs == n.regs && csrs == n.csrs && mip == n.mip && mtime == n.mtime
      ensures timerAck == n.timerAck && extAck == n.extAck
    {
      data, regs, csrs, mip, mtime, timerAck, extAck := n.data, n.regs, n.csrs, n.mip, n.mtime, n.timerAck, n.extAck;
    }
  }

  /** All nonblocking assignments of one edge, block by block. */
  method NextState(cfg: Config, s: State, p: Pins) returns (n: State)
    ensures n == Step(cfg, s, p)
  {
    hide EffectOf, NextPcFetch, NextFetch, NextIf, NextSlot, NextId, NextEx, NextData, NextCsrs, NextMip, NextMtime;
    hide NextCache, WritePort, Write, CsrHit, Flag;
    var x := EffectOf(s, p);
    var pcFetch, fetch, ifs, slot, id, ex, icache := FetchBlock(cfg, s, p, x);
    var data := DataBlock(s, p, x);
    var csrs := CsrBlock(s, x);
    var mip := MipBlock(s, p, x);
    var mtime := CounterBlock(s, x);
    var timerAck, extAck := AckBlock(s, x);
    var port := WritePort(s, p, x);
    n := State(pcFetch, fetch, ifs, slot, id, ex, data, Write(s.regs, port.we, port.rd, port.value), csrs, mip, mtime,
        timerAck, extAck, icache);
  }

  /** The fetch, decode and execute buffers: each result starts as the old value and is assigned in the block's
      order. */
  method FetchBlock(cfg: Config, s: State, p: Pins, x: Effect)
    returns (pcFetch: Word, fetch: Fetch, ifs: Slot, slot: Slot, id: Slot, ex: ExSlot, icache: map<Row, Line>)
    ensures pcFetch == NextPcFetch(s, x)
    ensures fetch == NextFetch(cfg, s, p, x)
    ensures ifs == NextIf(cfg, s, p, x)
    ensures slot == NextSlot(cfg, s, p, x)
    ensures id == NextId(s, p, x)
    ensures ex == NextEx(s, p, x)
    ensures icache == NextCache(cfg, s, p, x)
  {
    hide LoadUse, Traps, Stalled, CacheRow, CacheTag, Operand, Rs1, Rs2, UsesRs1, UsesRs2, Next, Hits, HitWord;
    pcFetch, fetch, ifs, slot, id, ex, icache := s.pcFetch, s.fetch, s.ifs, s.slot, s.id, s.ex, s.icache;
    var idAccept := IdAccepts(s, p, x);
    var slotToIf := s.slot.Held? && (!s.ifs.Held? || idAccept);
    var ifFetchTarget := (!s.ifs.Held? || idAccept) && !slotToIf;
    if Traps(s, x) || x.jump {
      pcFetch := if Traps(s, x) then s.csrs.mtvec else x.target;
      fetch, ifs, slot, id, ex := NoFetch, Empty, Empty, Empty, NoEx;
      return;
    }
    if !s.fetch.Fetching? && !(s.ifs.Held? && s.slot.Held?) {
      if Hits(cfg, s) {
        if ifFetchTarget {
          ifs := Held(HitWord(cfg, s), s.pcFetch);
        } else {
          slot := Held(HitWord(cfg, s), s.pcFetch);
        }
      } else {
        fetch := Fetching(s.pcFetch, cfg.cached, CacheRow(cfg, s.pcFetch), CacheTag(cfg, s.pcFetch));
      }
      pcFetch := Next(s.pcFetch);
    }
    if idAccept {
      id := s.ifs;
      ifs := Empty;
    }
    if slotToIf {
      ifs := s.slot;
      slot := Empty;
    }
    if s.fetch.Fetching? && p.imemReady {
      fetch := NoFetch;
      if ifFetchTarget {
        ifs := Held(p.imemData, s.fetch.addr);
      } else {
        slot := Held(p.imemData, s.fetch.addr);
      }
      if s.fetch.cacheable && cfg.cached {
        icache := icache[s.fetch.row := Line(s.fetch.tag, p.imemData)];
      }
    }
    if s.id.Held? && !IdStalls(s, p, x) && ExAccepts(s, p, x) {
      var w := s.id.instr;
      ex := Ex(w, s.id.pc, Operand(s, p, x, Rs1(w), UsesRs1(w)), Operand(s, p, x, Rs2(w), UsesRs2(w)));
      id := Empty;
    } else if s.ex.Ex? && !Stalled(s, p, x) {
      ex := NoEx;
    }
  }

  /** The data-bus request. */
  method DataBlock(s: State, p: Pins, x: Effect) returns (data: Data)
    ensures data == NextData(s, p, x)
  {
    data := s.data;
    if x.mem.OnBus() && s.data.NoData? {
      data := Waiting(x.mem.Load?, x.rd, x.mem.addr, if x.mem.Store? then x.mem.data else 0);
    } else if s.data.Waiting? && p.memReady {
      data := NoData;
    }
  }

  /** The control register a CSR instruction writes. */
  method CsrWriteBlock(csrs: Csrs, name: CsrName, v: Word) returns (r: Csrs)
    ensures r == CsrWrite(csrs, name, v)
  {
    hide Flag;
    r := csrs;
    match name {
      case MStatus => r := r.(mstatus := v);
      case MTvec => r := r.(mtvec := v);
      case MEpc => r := r.(mepc := v);
      case MCause => r := r.(mcause := v);
      case Mie => r := r.(mie := v);
      case MTimeCmp => r := r.(mtimecmp := v);
      case IrqPriority => r := r.(irqPriority := Flag(v, 0));
      case _ =>
    }
  }

  /** The control registers: a CSR instruction's write first, then trap entry or MRET on top of it. */
  method CsrBlock(s: State, x: Effect) returns (csrs: Csrs)
    ensures csrs == NextCsrs(s, x)
  {
    hide Flag, WithEnables, CsrWrite, CsrAt, Upper12, Traps, TrapPc, TrapCause;
    csrs := s.csrs;
    if x.csrWe && s.ex.Ex? {
      csrs := CsrWriteBlock(csrs, CsrOf(s.ex.instr), x.csrData);
    }
    if Traps(s, x) {
      csrs := csrs.(mepc := TrapPc(s));
      csrs := csrs.(mcause := TrapCause(s, x));
      csrs := csrs.(mstatus := WithEnables(csrs.mstatus, false, Flag(s.csrs.mstatus, 3)));
    } else if x.mret {
      csrs := csrs.(mstatus := WithEnables(csrs.mstatus, Flag(csrs.mstatus, 7), true));
    }
  }

  /** The interrupt-pending register: sampled every cycle unless written, the external bit cleared by an acknowledge. */
  method MipBlock(s: State, p: Pins, x: Effect) returns (mip: Word)
    ensures mip == NextMip(s, p, x)
  {
    hide WithBit, Flag, CsrHit, TimerLevel;
    if CsrHit(s, x, Mip) {
      mip := x.csrData;
    } else {
      mip := WithBit(s.mip, 7, TimerLevel(s, p));
      mip := WithBit(mip, 11, p.extIrq);
    }
    if CsrHit(s, x, IrqAck) && Flag(x.csrData, 1) {
      mip := WithBit(mip, 11, false);
    }
  }

  /** The free-running counter. */
  method CounterBlock(s: State, x: Effect) returns (mtime: Word)
    ensures mtime == NextMtime(s, x)
  {
    hide CsrHit;
    mtime := s.mtime + 1;
    if CsrHit(s, x, MTime) {
      mtime := x.csrData;
    }
  }

  /** The acknowledge strobes. */
  method AckBlock(s: State, x: Effect) returns (timerAck: bool, extAck: bool)
    ensures timerAck == (CsrHit(s, x, IrqAck) && Flag(x.csrData, 0))
    ensures extAck == (CsrHit(s, x, IrqAck) && Flag(x.csrData, 1))
  {
    hide Flag, CsrOf;
    timerAck, extAck := false, false;
    if CsrHit(s, x, IrqAck) {
      if Flag(x.csrData, 0) { timerAck := true; }
      if Flag(x.csrData, 1) { extAck := true; }
    }
  }
}
