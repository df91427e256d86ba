/** The GPIO block: a debounce filter per pin, and edge latches on the filtered levels.

    A register with one bit per pin is a sequence of booleans. */
module Gpio {

  type Bits = seq<bool>

  const COUNTER_MAX := 0xFFFF

  /** Registers only the bus writes. */
  datatype Config = Config(dir: Bits, out: Bits, alt: Bits, irqEnable: Bits, rise: Bits, fall: Bits, debounce: Bits,
      cycles: nat)

  /** Registers the pins drive. */
  datatype Sense = Sense(status: Bits, last: Bits, filtered: Bits, counters: seq<nat>)

  datatype State = State(config: Config, sense: Sense)

  datatype Bus =
    | NoWrite
    | WriteDir(v: Bits)
    | WriteOut(v: Bits)
    | SetOut(v: Bits)
    | ClearOut(v: Bits)
    | WriteIrqEnable(v: Bits)
    | ClearStatus(v: Bits)
    | WriteAlt(v: Bits)
    | WriteRise(v: Bits)
    | WriteFall(v: Bits)
    | WriteDebounce(v: Bits)
    | WriteCycles(n: nat)

  /** A cycle's inputs: the bus, the pin levels and the two PWM outputs. */
  datatype Input = Input(bus: Bus, pins: Bits, pwm0: bool, pwm1: bool)

  predicate ConfigOk(c: Config, width: nat) {
    && |c.dir| == |c.out| == |c.alt| == |c.irqEnable| == width
    && |c.rise| == |c.fall| == |c.debounce| == width && c.cycles <= COUNTER_MAX
  }

  predicate SenseOk(s: Sense, width: nat) {
    && |s.status| == |s.last| == |s.filtered| == |s.counters| == width
    && forall i :: 0 <= i < width ==> s.counters[i] <= COUNTER_MAX
  }

  predicate BusOk(b: Bus, width: nat) {
    match b
    case NoWrite => true
    case WriteCycles(n) => n <= COUNTER_MAX
    case _ => |b.v| == width
  }

  predicate Valid(g: State, width: nat) { ConfigOk(g.config, width) && SenseOk(g.sense, width) }

  predicate InputOk(x: Input, width: nat) { BusOk(x.bus, width) && |x.pins| == width }

  function Zip(a: Bits, b: Bits, f: (bool, bool) -> bool): (r: Bits)
    requires |a| == |b|
    ensures |r| == |a| && forall i :: 0 <= i < |a| ==> r[i] == f(a[i], b[i])
  {
    seq(|a|, i requires 0 <= i < |a| => f(a[i], b[i]))
  }

  function ConfigNext(c: Config, b: Bus, width: nat): Config
    requires ConfigOk(c, width) && BusOk(b, width)
    ensures ConfigOk(ConfigNext(c, b, width), width)
  {
    match b
    case WriteDir(v) => c.(dir := v)
    case WriteOut(v) => c.(out := v)
    case SetOut(v) => c.(out := Zip(c.out, v, (x, y) => x || y))
    case ClearOut(v) => c.(out := Zip(c.out, v, (x, y) => x && !y))
    case WriteIrqEnable(v) => c.(irqEnable := v)
    case WriteAlt(v) => c.(alt := v)
    case WriteRise(v) => c.(rise := v)
    case WriteFall(v) => c.(fall := v)
    case WriteDebounce(v) => c.(debounce := v)
    case WriteCycles(n) => c.(cycles := n)
    case _ => c
  }

  /** The level driven on pin `i`: PWM outputs can take over pins 0 and 1. */
  predicate Driven(c: Config, x: Input, i: nat)
    requires i < |c.out| && i < |c.alt|
  {
    if i == 0 && c.alt[i] then x.pwm0 else if i == 1 && c.alt[i] then x.pwm1 else c.out[i]
  }

  function Threshold(cycles: nat): nat { if cycles == 0 then 1 else cycles }

  /** A pin's filter: the level let through and the count of cycles the raw level has disagreed with it. */
  datatype Filter = Filter(level: bool, count: nat)

  /** The debounce filter of one pin, for one cycle. */
  function Debounced(f: Filter, threshold: nat, raw: bool): Filter {
    if raw == f.level then Filter(f.level, 0)
    else if f.count >= threshold then Filter(raw, 0)
    else Filter(f.level, f.count + 1)
  }

  function PinOf(s: Sense, i: nat): Filter
    requires i < |s.filtered| && i < |s.counters|
  {
    Filter(s.filtered[i], s.counters[i])
  }

  function PinNext(g: State, x: Input, i: nat, width: nat): Filter
    requires Valid(g, width) && InputOk(x, width) && i < width
  {
    if g.config.dir[i] then Filter(Driven(g.config, x, i), 0)
    else if !g.config.debounce[i] then Filter(x.pins[i], 0)
    else Debounced(PinOf(g.sense, i), Threshold(g.config.cycles), x.pins[i])
  }

  /** The level the edge latches watch: filtered, and low on output pins. */
  predicate Watched(g: State, i: nat)
    requires i < |g.config.dir| && i < |g.sense.filtered|
  {
    !g.config.dir[i] && g.sense.filtered[i]
  }

  /** A selected edge on pin `i`. */
  predicate EdgeOn(g: State, i: nat, width: nat)
    requires Valid(g, width) && i < width
  {
    || (!g.sense.last[i] && Watched(g, i) && g.config.rise[i])
    || (g.sense.last[i] && !Watched(g, i) && g.config.fall[i])
  }

  predicate Clears(b: Bus, i: nat)
  {
    b.ClearStatus? && i < |b.v| && b.v[i]
  }

  /** One clock edge. */
  function Step(g: State, x: Input, width: nat): (n: State)
    requires Valid(g, width) && InputOk(x, width)
    ensures Valid(n, width)
  {
    State(ConfigNext(g.config, x.bus, width), Sense(
      seq(width, i requires 0 <= i < width => (g.sense.status[i] && !Clears(x.bus, i)) || EdgeOn(g, i, width)),
      seq(width, i requires 0 <= i < width => Watched(g, i)),
      seq(width, i requires 0 <= i < width => PinNext(g, x, i, width).level),
      seq(width, i requires 0 <= i < width => PinNext(g, x, i, width).count)))
  }

  // ---- the filter on a run of raw levels ----

  function FilterRun(f: Filter, threshold: nat, raws: Bits): Filter {
    if raws == [] then f else Debounced(FilterRun(f, threshold, raws[..|raws| - 1]), threshold, raws[|raws| - 1])
  }

  /** For how many cycles, up to the end of `raws`, the raw level has differed from `level` without a break, given
      `before` such cycles already. */
  function Streak(raws: Bits, level: bool, before: nat): nat {
    if raws == [] then before
    else if raws[|raws| - 1] != level then Streak(raws[..|raws| - 1], level, before) + 1
    else 0
  }

  /** As long as no disagreement has lasted longer than the threshold, the level stands; the cycle that makes one last
      threshold + 1 cycles flips it. */
  lemma {:induction false} FlipsExactlyAfterStreak(f: Filter, threshold: nat, raws: Bits)
    requires f.count <= threshold
    requires forall k :: 0 <= k < |raws| ==> Streak(raws[..k], f.level, f.count) <= threshold
    ensures var s := Streak(raws, f.level, f.count);
      s <= threshold + 1 && FilterRun(f, threshold, raws) ==
          if s <= threshold then Filter(f.level, s) else Filter(!f.level, 0)
    decreases raws
  {
    if raws != [] {
      var head := raws[..|raws| - 1];
      forall k | 0 <= k < |head|
        ensures Streak(head[..k], f.level, f.count) <= threshold
      {
        assert head[..k] == raws[..k];
      }
      FlipsExactlyAfterStreak(f, threshold, head);
    }
  }

  /** In any run the count stays within the threshold and says exactly for how many cycles, to the end, the raw level
      has disagreed with the filtered one. */
  lemma {:induction false} CountIsDisagreement(f: Filter, threshold: nat, raws: Bits)
    requires f.count <= threshold
    ensures var e := FilterRun(f, threshold, raws);
      && e.count <= threshold
      && (forall k :: 0 <= k < |raws| && |raws| - e.count <= k ==> raws[k] != e.level)
      && (if e.count < |raws| then raws[|raws| - 1 - e.count] == e.level else e == Filter(f.level, f.count + |raws|))
    decreases raws
  {
    if raws != [] { CountIsDisagreement(f, threshold, raws[..|raws| - 1]); }
  }

  /** A flip needs threshold + 1 consecutive cycles at the new level: a shorter glitch never passes. */
  lemma GlitchesAreBlocked(f: Filter, threshold: nat, raws: Bits, raw: bool)
    requires f.count <= threshold
    requires FilterRun(f, threshold, raws + [raw]).level != FilterRun(f, threshold, raws).level
    ensures forall k :: 0 <= k <= |raws| && |raws| - threshold <= k ==>
      (raws + [raw])[k] == FilterRun(f, threshold, raws + [raw]).level
  {
    CountIsDisagreement(f, threshold, raws);
    assert (raws + [raw])[..|raws|] == raws;
  }

  /** Threshold + 1 cycles at one level always bring the filter to that level. */
  lemma {:induction false} SteadyLevelPasses(f: Filter, threshold: nat, level: bool, n: nat)
    requires f.count <= threshold
    ensures FilterRun(f, threshold, seq(n, _ => level)) ==
      if n == 0 then f
      else if f.level == level then Filter(level, 0)
      else if f.count + n <= threshold then Filter(f.level, f.count + n)
      else Filter(level, 0)
    decreases n
  {
    if n > 0 {
      SteadyLevelPasses(f, threshold, level, n - 1);
      assert seq(n, _ => level)[..n - 1] == seq(n - 1, _ => level);
    }
  }

  // ---- runs of the block ----

  function Run(g: State, xs: seq<Input>, width: nat): (n: State)
    requires Valid(g, width) && forall k :: 0 <= k < |xs| ==> InputOk(xs[k], width)
    ensures Valid(n, width)
    decreases xs
  {
    if xs == [] then g else Step(Run(g, xs[..|xs| - 1], width), xs[|xs| - 1], width)
  }

  /** Direction, debounce enable and window length are left alone. */
  predicate KeepsFilter(b: Bus) { !b.WriteDir? && !b.WriteDebounce? && !b.WriteCycles? }

  function Raw(xs: seq<Input>, i: nat): Bits
    requires forall k :: 0 <= k < |xs| ==> i < |xs[k].pins|
  {
    seq(|xs|, k requires 0 <= k < |xs| => xs[k].pins[i])
  }

  /** A debounced input pin is its filter run on the raw levels of that pin, whatever else the bus and other pins do. */
  lemma {:induction false} PinFollowsFilter(g: State, xs: seq<Input>, width: nat, i: nat)
    requires Valid(g, width) && i < width && !g.config.dir[i] && g.config.debounce[i]
    requires forall k :: 0 <= k < |xs| ==> InputOk(xs[k], width) && KeepsFilter(xs[k].bus)
    ensures var n := Run(g, xs, width);
      && n.config.dir == g.config.dir && n.config.debounce == g.config.debounce && n.config.cycles == g.config.cycles
      && PinOf(n.sense, i) == FilterRun(PinOf(g.sense, i), Threshold(g.config.cycles), Raw(xs, i))
    decreases xs
  {
    if xs != [] {
      var ys := xs[..|xs| - 1];
      PinFollowsFilter(g, ys, width, i);
      assert Raw(xs, i)[..|xs| - 1] == Raw(ys, i);
    }
  }

  /** The counter of a filter stays within its threshold while the settings stand, so within 16 bits. */
  lemma CounterWithinThreshold(g: State, xs: seq<Input>, width: nat, i: nat)
    requires Valid(g, width) && i < width && !g.config.dir[i] && g.config.debounce[i]
    requires g.sense.counters[i] <= Threshold(g.config.cycles)
    requires forall k :: 0 <= k < |xs| ==> InputOk(xs[k], width) && KeepsFilter(xs[k].bus)
    ensures Run(g, xs, width).sense.counters[i] <= Threshold(g.config.cycles) <= COUNTER_MAX
  {
    PinFollowsFilter(g, xs, width, i);
    CountIsDisagreement(PinOf(g.sense, i), Threshold(g.config.cycles), Raw(xs, i));
  }

  // ---- edges ----

  /** Each watched level is compared with that of the cycle before, so a selected change sets the status bit in the next
      cycle even if that cycle's write clears it, and otherwise the bit changes only by being cleared. */
  lemma EdgeIsLatched(g: State, x: Input, y: Input, width: nat, i: nat)
    requires Valid(g, width) && InputOk(x, width) && InputOk(y, width) && i < width
    ensures var h := Step(g, x, width);
      var n := Step(h, y, width);
      n.sense.status[i] <==>
        || (!Watched(g, i) && Watched(h, i) && h.config.rise[i])
        || (Watched(g, i) && !Watched(h, i) && h.config.fall[i])
        || (h.sense.status[i] && !(y.bus.ClearStatus? && y.bus.v[i]))
  {
    var h := Step(g, x, width);
    assert h.sense.last[i] == Watched(g, i);
  }

  /** Where a selected edge on pin `i` was seen, during a run. */
  predicate EdgeAt(g: State, xs: seq<Input>, width: nat, i: nat, k: nat)
    requires Valid(g, width) && i < width && k < |xs| && forall j :: 0 <= j < |xs| ==> InputOk(xs[j], width)
  {
    EdgeOn(Run(g, xs[..k], width), i, width)
  }

  predicate ClearedAfter(xs: seq<Input>, i: nat, k: int) {
    exists j :: k < j < |xs| && 0 <= j && Clears(xs[j].bus, i)
  }

  /** After any run a status bit is set exactly when some selected edge, or the bit's being set at the start, has not
      been followed by a clear in a later cycle. */
  lemma {:induction false} NoEdgeIsLost(g: State, xs: seq<Input>, width: nat, i: nat)
    requires Valid(g, width) && i < width && forall j :: 0 <= j < |xs| ==> InputOk(xs[j], width)
    ensures Run(g, xs, width).sense.status[i] <==>
      || (g.sense.status[i] && !ClearedAfter(xs, i, -1))
      || (exists k :: 0 <= k < |xs| && EdgeAt(g, xs, width, i, k) && !ClearedAfter(xs, i, k))
    decreases xs
  {
    if xs != [] {
      var n := |xs| - 1;
      var ys, h := xs[..n], Run(g, xs[..n], width);
      NoEdgeIsLost(g, ys, width, i);
      assert EdgeAt(g, xs, width, i, n) == EdgeOn(h, i, width);
      assert !ClearedAfter(xs, i, n);
      forall k | 0 <= k < n
        ensures EdgeAt(g, xs, width, i, k) == EdgeAt(g, ys, width, i, k)
      {
        assert ys[..k] == xs[..k];
      }
      forall k | -1 <= k < n
        ensures ClearedAfter(xs, i, k) <==> ClearedAfter(ys, i, k) || Clears(xs[n].bus, i)
      {
        ClearedLater(xs, i, k);
      }
    }
  }

  lemma ClearedLater(xs: seq<Input>, i: nat, k: int)
    requires xs != [] && -1 <= k < |xs| - 1
    ensures ClearedAfter(xs, i, k) <==> ClearedAfter(xs[..|xs| - 1], i, k) || Clears(xs[|xs| - 1].bus, i)
  {
    var ys := xs[..|xs| - 1];
    assert forall j :: 0 <= j < |ys| ==> ys[j] == xs[j];
    if Clears(xs[|xs| - 1].bus, i) { assert k < |xs| - 1 < |xs|; }
  }

  // ---- outputs, and the window a program writes ----

  /** The output register is written whole, or its selected bits are set or cleared; PWM channels take pins 0 and 1 over
      while selected, and one cycle later the pin's level is what drives it. */
  lemma OutputDrives(g: State, x: Input, width: nat, i: nat)
    requires Valid(g, width) && InputOk(x, width) && i < width && g.config.dir[i]
    ensures var n, b := Step(g, x, width), x.bus;
      && (n.config.out[i] <==>
            if b.WriteOut? then b.v[i] else if b.SetOut? then g.config.out[i] || b.v[i]
            else if b.ClearOut? then g.config.out[i] && !b.v[i] else g.config.out[i])
      && (n.sense.filtered[i] <==>
            if g.config.alt[i] && i == 0 then x.pwm0 else if g.config.alt[i] && i == 1 then x.pwm1 else g.config.out[i])
      && n.sense.counters[i] == 0 && !n.sense.last[i]
  {
  }

  /** An input pin without debouncing shows its level one cycle later, and is watched one cycle after that. */
  lemma RawPinPasses(g: State, x: Input, width: nat, i: nat)
    requires Valid(g, width) && InputOk(x, width) && i < width && !g.config.dir[i] && !g.config.debounce[i]
    ensures var n := Step(g, x, width).sense;
      n.filtered[i] == x.pins[i] && n.counters[i] == 0 && n.last[i] == g.sense.filtered[i]
  {
  }

  /** The programmed window counts, a window of 0 as 1: from an unflipped filter the pin keeps its level through
      that many cycles of disagreement, and takes the new one with the next. */
  lemma WindowIsProgrammed(g: State, xs: seq<Input>, width: nat, i: nat, raw: bool)
    requires Valid(g, width) && i < width && !g.config.dir[i] && g.config.debounce[i] && g.sense.counters[i] == 0
    requires forall k :: 0 <= k < |xs| ==> InputOk(xs[k], width) && KeepsFilter(xs[k].bus) && xs[k].pins[i] == raw
    requires g.sense.filtered[i] != raw
    ensures Run(g, xs, width).sense.filtered[i] == raw <==>
      |xs| >= (if g.config.cycles == 0 then 1 else g.config.cycles) + 1
  {
    PinFollowsFilter(g, xs, width, i);
    assert Raw(xs, i) == seq(|xs|, _ => raw);
    SteadyLevelPasses(PinOf(g.sense, i), Threshold(g.config.cycles), raw, |xs|);
  }

  /** The configuration after the first `n` inputs depends on their bus writes alone. */
  lemma {:induction false} WritesInOrder(g: State, xs: seq<Input>, width: nat, n: nat)
    requires Valid(g, width) && n <= |xs| && forall k :: 0 <= k < |xs| ==> InputOk(xs[k], width)
    ensures Run(g, xs[..n], width).config == ConfigRun(g.config, xs, width, n)
    decreases n
  {
    if n > 0 {
      WritesInOrder(g, xs, width, n - 1);
      assert xs[..n][..n - 1] == xs[..n - 1];
    }
  }

  function ConfigRun(c: Config, xs: seq<Input>, width: nat, n: nat): (r: Config)
    requires ConfigOk(c, width) && n <= |xs| && forall k :: 0 <= k < |xs| ==> InputOk(xs[k], width)
    ensures ConfigOk(r, width)
  {
    if n == 0 then c else ConfigNext(ConfigRun(c, xs, width, n - 1), xs[n - 1].bus, width)
  }

  /** The register writes of a configuration. */
  function Setup(c: Config): seq<Bus> {
    [WriteDir(c.dir), WriteOut(c.out), WriteIrqEnable(c.irqEnable), WriteAlt(c.alt), WriteRise(c.rise),
     WriteFall(c.fall), WriteDebounce(c.debounce), WriteCycles(c.cycles)]
  }

  /** Every configuration is reached by them, whatever the pins do meanwhile. */
  lemma {:induction false} Configured(g: State, c: Config, xs: seq<Input>, width: nat)
    requires Valid(g, width) && ConfigOk(c, width)
    requires |xs| == 8 && forall k :: 0 <= k < 8 ==> InputOk(xs[k], width) && xs[k].bus == Setup(c)[k]
    ensures Run(g, xs, width).config == c
  {
    hide Step, Run;
    assert xs[..8] == xs;
    WritesInOrder(g, xs, width, 8);
    SetupWrites(g.config, c, xs, width);
  }

  lemma ConfigRunNext(g: Config, xs: seq<Input>, width: nat, n: nat, b: Bus)
    requires ConfigOk(g, width) && n < |xs| && forall k :: 0 <= k < |xs| ==> InputOk(xs[k], width)
    requires xs[n].bus == b && BusOk(b, width)
    ensures ConfigRun(g, xs, width, n + 1) == ConfigNext(ConfigRun(g, xs, width, n), b, width)
  {
    hide ConfigNext;
  }

  lemma NothingWritten(g: Config, xs: seq<Input>, width: nat)
    requires ConfigOk(g, width) && forall k :: 0 <= k < |xs| ==> InputOk(xs[k], width)
    ensures ConfigRun(g, xs, width, 0) == g
  {
  }

  lemma {:induction false} SetupWrites(g: Config, c: Config, xs: seq<Input>, width: nat)
    requires ConfigOk(g, width) && ConfigOk(c, width)
    requires |xs| == 8 && forall k :: 0 <= k < 8 ==> InputOk(xs[k], width) && xs[k].bus == Setup(c)[k]
    ensures ConfigRun(g, xs, width, 8) == c
  {
    hide ConfigRun, InputOk;
    NothingWritten(g, xs, width);
    ConfigRunNext(g, xs, width, 0, WriteDir(c.dir));
    ConfigRunNext(g, xs, width, 1, WriteOut(c.out));
    ConfigRunNext(g, xs, width, 2, WriteIrqEnable(c.irqEnable));
    ConfigRunNext(g, xs, width, 3, WriteAlt(c.alt));
    ConfigRunNext(g, xs, width, 4, WriteRise(c.rise));
    ConfigRunNext(g, xs, width, 5, WriteFall(c.fall));
    ConfigRunNext(g, xs, width, 6, WriteDebounce(c.debounce));
    ConfigRunNext(g, xs, width, 7, WriteCycles(c.cycles));
  }

  // ---- the clocked block ----

  class GpioUnit {
    const width: nat
    var config: Config
    var status: Bits
    var last: Bits
    const filtered: array<bool>
    const counters: array<nat>

    function Snapshot(): State
      reads this, filtered, counters
    {
      State(config, Sense(status, last, filtered[..], counters[..]))
    }

    ghost predicate Ok()
      reads this, filtered, counters
    {
      Valid(Snapshot(), width)
    }

    constructor (n: nat)
      ensures width == n && Ok() && fresh(filtered) && fresh(counters)
      ensures Snapshot() == State(
        Config(Const(n, false), Const(n, false), Const(n, false), Const(n, false), Const(n, true), Const(n, false),
            Const(n, false), 32),
        Sense(Const(n, false), Const(n, false), Const(n, false), seq(n, _ => 0)))
    {
      var zero := Const(n, false);
      width := n;
      config := Config(zero, zero, zero, zero, Const(n, true), zero, zero, 32);
      status, last := zero, zero;
      filtered := new bool[n](_ => false);
      counters := new nat[n](_ => 0);
      new;
      assert filtered[..] == zero;
      assert counters[..] == seq(n, _ => 0);
    }

    /** One clock edge. */
    method Tick(x: Input)
      requires Ok() && InputOk(x, width)
      modifies this, filtered, counters
      ensures Ok() && Snapshot() == Step(old(Snapshot()), x, width)
    {
      hide PinNext, ConfigNext;
      ghost var g := Snapshot();
      var c, st, la, fi := config, status, last, filtered[..];
      var seen := seq(width, i requires 0 <= i < width => !c.dir[i] && fi[i]);
      var status' := seq(width, i requires 0 <= i < width =>
        (st[i] && !Clears(x.bus, i)) || (!la[i] && seen[i] && c.rise[i]) || (la[i] && !seen[i] && c.fall[i]));
      FilterPins(x);
      status, last := status', seen;
      config := ConfigNext(config, x.bus, width);
      assert status == Step(g, x, width).sense.status;
      assert last == Step(g, x, width).sense.last;
      assert filtered[..] == Step(g, x, width).sense.filtered;
      assert counters[..] == Step(g, x, width).sense.counters;
    }

    /** The loop over the pins. */
    method FilterPins(x: Input)
      requires Ok() && InputOk(x, width)
      modifies filtered, counters
      ensures forall k :: 0 <= k < width ==> filtered[k] == PinNext(old(Snapshot()), x, k, width).level
      ensures forall k :: 0 <= k < width ==> counters[k] == PinNext(old(Snapshot()), x, k, width).count
    {
      hide Driven;
      ghost var g := Snapshot();
      var threshold := Threshold(config.cycles);
      for i := 0 to width
        invariant forall k :: 0 <= k < i ==> filtered[k] == PinNext(g, x, k, width).level
        invariant forall k :: 0 <= k < i ==> counters[k] == PinNext(g, x, k, width).count
        invariant forall k :: i <= k < width ==> filtered[k] == g.sense.filtered[k]
        invariant forall k :: i <= k < width ==> counters[k] == g.sense.counters[k]
      {
        if config.dir[i] {
          filtered[i], counters[i] := Driven(config, x, i), 0;
        } else if !config.debounce[i] {
          filtered[i], counters[i] := x.pins[i], 0;
        } else if x.pins[i] == filtered[i] {
          counters[i] := 0;
        } else if counters[i] >= threshold {
          filtered[i], counters[i] := x.pins[i], 0;
        } else {
          counters[i] := counters[i] + 1;
        }
      }
    }
  }

  function Const(n: nat, b: bool): Bits { seq(n, _ => b) }
}
