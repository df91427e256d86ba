/** The timer: prescaled counter, auto-reloading compares, watchdog and PWM channels. */
module Timer {

  const MODULUS := 0x1_0000_0000

  type Word = x: int | 0 <= x < 0x1_0000_0000

  function Inc(x: Word): Word { if x + 1 == MODULUS then 0 else x + 1 }

  function Add(x: Word, y: Word): Word { if x + y >= MODULUS then x + y - MODULUS else x + y }

  datatype Base = Base(enable: bool, prescale: Word, divided: Word, counter: Word)

  datatype Compare = Compare(value: Word, period: Word, reload: bool)

  datatype Watchdog = Watchdog(load: Word, counter: Word, enable: bool)

  datatype Pwm = Pwm(period: Word, duty: Word, counter: Word, out: bool)

  datatype Capture = Capture(value0: Word, value1: Word)

  /** STATUS bits 0 to 4. */
  datatype Status = Status(match0: bool, match1: bool, expired: bool, captured0: bool, captured1: bool)

  datatype State = State(base: Base, cmp0: Compare, cmp1: Compare, watchdog: Watchdog, pwm0: Pwm, pwm1: Pwm,
                         capture: Capture, status: Status)

  datatype Bus =
    | Quiet
    | WriteControl(enable: bool, reload0: bool, reload1: bool)
    | WritePrescale(v: Word)
    | WriteCounter(v: Word)
    | ClearStatus(mask: Status)
    | WriteCompare(second: bool, v: Word)
    | WritePeriod(second: bool, v: Word)
    | WriteLoad(v: Word)
    | WatchdogControl(enable: bool, kick: bool)
    | WritePwmPeriod(second: bool, v: Word)
    | WritePwmDuty(second: bool, v: Word)
    | TriggerCapture(first: bool, second: bool)

  const RESET := State(Base(false, 0, 0, 0), Compare(0, 0, false), Compare(0, 0, false), Watchdog(0, 0, false),
                       Pwm(0, 0, 0, false), Pwm(0, 0, 0, false), Capture(0, 0),
                           Status(false, false, false, false, false))

  // ---- register writes ----

  function Cleared(s: Status, m: Status): Status {
    Status(s.match0 && !m.match0, s.match1 && !m.match1, s.expired && !m.expired,
           s.captured0 && !m.captured0, s.captured1 && !m.captured1)
  }

  function WriteStage(t: State, bus: Bus): State {
    match bus
    case Quiet => t
    case WriteControl(e, r0, r1) => t.(base := t.base.(enable := e), cmp0 := t.cmp0.(reload := r0),
        cmp1 := t.cmp1.(reload := r1))
    case WritePrescale(v) => t.(base := t.base.(prescale := v))
    case WriteCounter(v) => t.(base := t.base.(counter := v))
    case ClearStatus(m) => t.(status := Cleared(t.status, m))
    case WriteCompare(second, v) => if second then t.(cmp1 := t.cmp1.(value := v)) else t.(cmp0 := t.cmp0.(value := v))
    case WritePeriod(second, v) => if second then t.(cmp1 := t.cmp1.(period := v)) else t.(cmp0 := t.cmp0.(period := v))
    case WriteLoad(v) =>
      if t.watchdog.enable then t.(watchdog := Watchdog(v, v, true), status := t.status.(expired := false))
      else t.(watchdog := t.watchdog.(load := v))
    case WatchdogControl(e, kick) =>
      var reloads := (!t.watchdog.enable && e) || kick;
      t.(watchdog := Watchdog(t.watchdog.load, if reloads then t.watchdog.load else t.watchdog.counter, e),
         status := if reloads then t.status.(expired := false) else t.status)
    case WritePwmPeriod(second, v) =>
      if second then t.(pwm1 := t.pwm1.(period := v, counter := 0)) else t.(pwm0 := t.pwm0.(period := v, counter := 0))
    case WritePwmDuty(second, v) => if second then t.(pwm1 := t.pwm1.(duty := v)) else t.(pwm0 := t.pwm0.(duty := v))
    case TriggerCapture(first, second) =>
      t.(capture := Capture(if first then t.base.counter else t.capture.value0,
          if second then t.base.counter else t.capture.value1),
         status := t.status.(captured0 := first || t.status.captured0, captured1 := second || t.status.captured1))
  }

  // ---- a tick ----

  /** The prescaler lets this cycle through. */
  predicate Ticks(b: Base) { b.enable && b.divided >= b.prescale }

  predicate Matches(c: Compare, counter: Word) { c.value != 0 && counter == c.value }

  function CompareNext(c: Compare, counter: Word, n: Compare): Compare {
    if Matches(c, counter) && c.reload && c.period != 0 then n.(value := Add(c.value, c.period)) else n
  }

  predicate Counts(w: Watchdog) { w.enable && w.counter != 0 }

  predicate PwmHigh(p: Pwm) { p.period != 0 && p.counter < p.duty }

  function PwmCount(p: Pwm): Word {
    if p.period == 0 || Inc(p.counter) >= p.period then 0 else Inc(p.counter)
  }

  /** The assignments of a tick: old registers `t`, over the writes already made in `n`. */
  function TickStage(t: State, n: State): State {
    n.(base := n.base.(divided := 0, counter := Inc(t.base.counter)),
       watchdog := if Counts(t.watchdog) then n.watchdog.(counter := t.watchdog.counter - 1) else n.watchdog,
       cmp0 := CompareNext(t.cmp0, t.base.counter, n.cmp0),
       cmp1 := CompareNext(t.cmp1, t.base.counter, n.cmp1),
       pwm0 := n.pwm0.(counter := PwmCount(t.pwm0), out := PwmHigh(t.pwm0)),
       pwm1 := n.pwm1.(counter := PwmCount(t.pwm1), out := PwmHigh(t.pwm1)),
       status := n.status.(match0 := n.status.match0 || Matches(t.cmp0, t.base.counter),
                           match1 := n.status.match1 || Matches(t.cmp1, t.base.counter),
                           expired := n.status.expired || (Counts(t.watchdog) && t.watchdog.counter == 1)))
  }

  function StoppedPwm(p: Pwm, p0: Pwm): Pwm { p.(counter := 0, out := p0.period != 0 && p0.duty != 0) }

  /** One clock edge. */
  function Step(t: State, bus: Bus): State {
    var n := WriteStage(t, bus);
    if !t.base.enable then
      n.(base := n.base.(divided := 0), pwm0 := StoppedPwm(n.pwm0, t.pwm0), pwm1 := StoppedPwm(n.pwm1, t.pwm1))
    else if Ticks(t.base) then TickStage(t, n)
    else n.(base := n.base.(divided := Inc(t.base.divided)))
  }

  // ---- runs ----

  function Run(t: State, ins: seq<Bus>): State {
    if ins == [] then t else Step(Run(t, ins[..|ins| - 1]), ins[|ins| - 1])
  }

  /** How many cycles of the run tick. */
  function TickCount(t: State, ins: seq<Bus>): nat {
    if ins == [] then 0
    else TickCount(t, ins[..|ins| - 1]) + (if Ticks(Run(t, ins[..|ins| - 1]).base) then 1 else 0)
  }

  // ---- auto-reloading compares ----

  /** `n` is a positive multiple of `p`. */
  predicate OnBeat(p: nat, n: nat)
    requires p > 0
  {
    n >= p && (n == p || OnBeat(p, n - p))
  }

  /** The counter value `n` ticks after it was `c`. */
  function Ahead(c: Word, n: nat): Word { (c + n) % MODULUS }

  /** The first multiple of `p` that is at least `n`. */
  function Target(p: nat, n: nat): nat
    requires p > 0
  {
    if n <= 1 then p else if Target(p, n - 1) == n - 1 then n - 1 + p else Target(p, n - 1)
  }

  lemma {:induction false} TargetIsBeat(p: nat, n: nat)
    requires p > 0 && n >= 1
    ensures n <= Target(p, n) < n + p && OnBeat(p, Target(p, n))
    decreases n
  {
    if n > 1 { TargetIsBeat(p, n - 1); }
  }

  /** Multiples lie at least `p` apart. */
  lemma {:induction false} BeatsApart(p: nat, a: nat, b: nat)
    requires p > 0 && OnBeat(p, a) && OnBeat(p, b) && a < b
    ensures a + p <= b
    decreases a
  {
    if a > p { BeatsApart(p, a - p, b - p); }
  }

  lemma BeatIsTarget(p: nat, n: nat)
    requires p > 0 && n >= 1
    ensures Target(p, n) == n <==> OnBeat(p, n)
  {
    TargetIsBeat(p, n);
    if OnBeat(p, n) && Target(p, n) != n { BeatsApart(p, n, Target(p, n)); }
  }

  lemma {:induction false} BeatIsMultiple(p: nat, n: nat)
    requires p > 0
    ensures OnBeat(p, n) <==> n > 0 && n % p == 0
    decreases n
  {
    if n > p {
      BeatIsMultiple(p, n - p);
      ModuloStep(p, n);
    }
  }

  lemma ModuloStep(p: nat, n: nat)
    requires n >= p > 0
    ensures n % p == (n - p) % p
  {
    var q, r := (n - p) / p, (n - p) % p;
    assert n == p * (q + 1) + r;
    DivisionUnique(p, n, q + 1, r);
  }

  lemma DivisionUnique(p: nat, n: nat, q: int, r: nat)
    requires p > 0 && n == p * q + r && r < p
    ensures n % p == r
  {
    var d := n / p - q;
    assert p * d == r - n % p by { assert p * (n / p) == p * q + p * d; }
    Scale(p, d);
  }

  lemma Scale(p: int, d: int)
    requires p >= 0
    ensures d >= 1 ==> p * d >= p
    ensures d <= -1 ==> p * d <= -p
  {
    if d >= 1 { assert p * d == p * (d - 1) + p; }
    if d <= -1 { assert p * d == p * (d + 1) - p; }
  }

  /** A reload by some tick up to the `n`th has made the compare value zero. */
  predicate Stopped(c: Word, p: nat, n: nat)
    requires p > 0
  {
    n > 0 && (Stopped(c, p, n - 1) || (OnBeat(p, n) && Ahead(c, n) == 0))
  }

  lemma {:induction false} StoppedStays(c: Word, p: nat, a: nat, b: nat)
    requires p > 0 && a <= b && Stopped(c, p, a)
    ensures Stopped(c, p, b)
    decreases b
  {
    if a < b { StoppedStays(c, p, a, b - 1); }
  }

  /** Between two multiples nothing stops. */
  lemma {:induction false} NoStopBetween(c: Word, p: nat, a: nat, b: nat)
    requires p > 0 && OnBeat(p, a) && a <= b < a + p
    ensures Stopped(c, p, b) <==> Stopped(c, p, a)
    decreases b
  {
    if a < b {
      NoStopBetween(c, p, a, b - 1);
      if OnBeat(p, b) { BeatsApart(p, a, b); }
    }
  }

  function Channel(t: State, second: bool): Compare { if second then t.cmp1 else t.cmp0 }

  /** Writes that leave the counter, the compares and the control bits alone. */
  predicate SparesCompare(b: Bus) { !b.WriteControl? && !b.WriteCounter? && !b.WriteCompare? && !b.WritePeriod? }

  /** The compare value while `n` ticks have passed since the match at `c`. */
  function Scheduled(c: Word, p: nat, n: nat): Word
    requires p > 0
  {
    if Stopped(c, p, Target(p, n)) then 0 else Ahead(c, Target(p, n))
  }

  lemma ScheduledOnBeat(c: Word, p: Word, n: nat)
    requires p > 0 && n >= 1 && OnBeat(p, n)
    ensures Scheduled(c, p, n) == (if Stopped(c, p, n) then 0 else Ahead(c, n))
    ensures Scheduled(c, p, n + 1) == (if Stopped(c, p, n + p) then 0 else Ahead(c, n + p))
    ensures Stopped(c, p, n) ==> Stopped(c, p, n + p)
    ensures !Stopped(c, p, n) ==> Ahead(c, n) != 0 && (Stopped(c, p, n + p) ==> Ahead(c, n + p) == 0)
  {
    hide Ahead;
    BeatIsTarget(p, n);
    assert Target(p, n + 1) == n + p;
    NoStopBetween(c, p, n, n + p - 1);
    if Stopped(c, p, n) { StoppedStays(c, p, n, n + p); }
  }

  lemma ScheduledOffBeat(c: Word, p: Word, n: nat)
    requires p > 0 && n >= 1 && !OnBeat(p, n)
    ensures Scheduled(c, p, n + 1) == Scheduled(c, p, n)
    ensures Scheduled(c, p, n) != 0 ==> Ahead(c, n) != Scheduled(c, p, n)
  {
    hide OnBeat, Stopped;
    BeatIsTarget(p, n);
    TargetIsBeat(p, n);
  }

  lemma AheadAdds(c: Word, p: Word, n: nat)
    ensures Ahead(c, n + p) == Add(Ahead(c, n), p)
  {
  }

  /** One more tick: whether it matches, and the compare value after it. */
  lemma ScheduledNext(c: Word, p: Word, n: nat)
    requires p > 0 && n >= 1
    ensures Scheduled(c, p, n) != 0 && Ahead(c, n) == Scheduled(c, p, n) <==> OnBeat(p, n) && !Stopped(c, p, n)
    ensures Scheduled(c, p, n + 1) ==
      if OnBeat(p, n) && !Stopped(c, p, n) then Add(Scheduled(c, p, n), p) else Scheduled(c, p, n)
  {
    hide OnBeat, Stopped, Scheduled, Ahead, Add;
    if OnBeat(p, n) {
      ScheduledOnBeat(c, p, n);
      AheadAdds(c, p, n);
    } else {
      ScheduledOffBeat(c, p, n);
    }
  }

  lemma CompareStep(t: State, bus: Bus, second: bool)
    requires t.base.enable && SparesCompare(bus)
    ensures var v, c := Step(t, bus), Channel(t, second);
      && v.base.enable && Channel(v, second).period == c.period && Channel(v, second).reload == c.reload
      && v.base.counter == (if Ticks(t.base) then Inc(t.base.counter) else t.base.counter)
      && Channel(v, second).value == (if Ticks(t.base) then CompareNext(c, t.base.counter, c).value else c.value)
  {
  }

  /** The channel stands where the schedule has it `n` ticks after the match at `c`. */
  predicate OnSchedule(s: State, second: bool, c: Word, p: Word, n: nat)
    requires p > 0
  {
    && s.base.enable && s.base.counter == Ahead(c, n)
    && Channel(s, second) == Compare(Scheduled(c, p, n), p, true)
  }

  lemma ScheduleStep(s: State, bus: Bus, second: bool, c: Word, p: Word, n: nat)
    requires p > 0 && n >= 1 && OnSchedule(s, second, c, p, n) && SparesCompare(bus)
    ensures OnSchedule(Step(s, bus), second, c, p, if Ticks(s.base) then n + 1 else n)
  {
    hide Step, SparesCompare, Scheduled, Stopped, OnBeat, Ahead, Inc, Add, Ticks;
    CompareStep(s, bus, second);
    ScheduledNext(c, p, n);
    AheadNext(c, n);
  }

  lemma ScheduleStarts(t: State, bus: Bus, second: bool)
    requires Ticks(t.base) && Matches(Channel(t, second), t.base.counter) && SparesCompare(bus)
    requires Channel(t, second).reload && Channel(t, second).period > 0
    ensures OnSchedule(Step(t, bus), second, t.base.counter, Channel(t, second).period, 1)
  {
    assert t.base.enable;
    hide Step, SparesCompare, Scheduled, Ahead, Inc, Add, Ticks;
    CompareStep(t, bus, second);
    FirstReload(t.base.counter, Channel(t, second).period);
    AheadNext(t.base.counter, 0);
  }

  lemma {:induction false} StaysOnSchedule(t: State, ins: seq<Bus>, second: bool)
    requires Ticks(t.base) && Matches(Channel(t, second), t.base.counter)
    requires Channel(t, second).reload && Channel(t, second).period > 0
    requires ins != [] && forall i :: 0 <= i < |ins| ==> SparesCompare(ins[i])
    ensures TickCount(t, ins) >= 1
    ensures OnSchedule(Run(t, ins), second, t.base.counter, Channel(t, second).period, TickCount(t, ins))
    decreases ins
  {
    hide Step, SparesCompare, OnSchedule, Ticks, Matches;
    var head, last := ins[..|ins| - 1], ins[|ins| - 1];
    if head == [] {
      ScheduleStarts(t, last, second);
    } else {
      StaysOnSchedule(t, head, second);
      ScheduleStep(Run(t, head), last, second, t.base.counter, Channel(t, second).period, TickCount(t, head));
    }
  }

  /** From an auto-reloading match at counter `c` with period `p`, without writes to counter, compares or control:
      `n` ticks later the channel matches exactly when `n` is a multiple of `p` and no earlier or present multiple has
      brought the compare value, c + k p modulo 2^32, to zero; from then on it never matches. */
  lemma CompareSchedule(t: State, ins: seq<Bus>, second: bool)
    requires Ticks(t.base) && Matches(Channel(t, second), t.base.counter)
    requires Channel(t, second).reload && Channel(t, second).period > 0
    requires ins != [] && forall i :: 0 <= i < |ins| ==> SparesCompare(ins[i])
    ensures var s, n, c, p := Run(t, ins), TickCount(t, ins), t.base.counter, Channel(t, second).period;
      && n >= 1 && s.base.enable && s.base.counter == Ahead(c, n)
      && Channel(s, second) == Compare(Scheduled(c, p, n), p, true)
      && (Matches(Channel(s, second), s.base.counter) <==> OnBeat(p, n) && !Stopped(c, p, n))
  {
    hide Run, TickCount, Scheduled, Stopped, OnBeat, Ahead, Add, Ticks;
    StaysOnSchedule(t, ins, second);
    ScheduledNext(t.base.counter, Channel(t, second).period, TickCount(t, ins));
  }

  lemma AheadNext(c: Word, n: nat)
    ensures Ahead(c, 0) == c && Ahead(c, n + 1) == Inc(Ahead(c, n))
  {
  }

  lemma FirstReload(c: Word, p: Word)
    requires p > 0
    ensures Scheduled(c, p, 1) == Add(c, p)
  {
    if p > 1 { NoStopBefore(c, p, p - 1); }
    assert Target(p, 1) == p;
    assert Stopped(c, p, p) <==> Ahead(c, p) == 0;
  }

  lemma {:induction false} NoStopBefore(c: Word, p: nat, n: nat)
    requires 0 < n < p
    ensures !Stopped(c, p, n)
    decreases n
  {
    if n > 1 { NoStopBefore(c, p, n - 1); }
  }

  /** A match sets its status bit, which stays until cleared. */
  lemma MatchIsLatched(t: State, bus: Bus)
    ensures var v := Step(t, bus);
      && (v.status.match0 <==>
            || (Ticks(t.base) && Matches(t.cmp0, t.base.counter))
            || (t.status.match0 && !(bus.ClearStatus? && bus.mask.match0)))
      && (v.status.match1 <==>
            || (Ticks(t.base) && Matches(t.cmp1, t.base.counter))
            || (t.status.match1 && !(bus.ClearStatus? && bus.mask.match1)))
  {
  }

  // ---- PWM ----

  function PwmOf(t: State, second: bool): Pwm { if second then t.pwm1 else t.pwm0 }

  predicate SparesPwm(b: Bus) { !b.WriteControl? && !b.WritePwmPeriod? && !b.WritePwmDuty? }

  /** How many ticks of the run drive the output high. */
  function HighTicks(t: State, ins: seq<Bus>, second: bool): nat {
    if ins == [] then 0
    else
      var head, s := ins[..|ins| - 1], Run(t, ins[..|ins| - 1]);
      HighTicks(t, head, second) + (if Ticks(s.base) && PwmOf(Step(s, ins[|ins| - 1]), second).out then 1 else 0)
  }

  lemma PwmStep(t: State, bus: Bus, second: bool)
    requires t.base.enable && SparesPwm(bus)
    ensures var v, p := Step(t, bus), PwmOf(t, second);
      && v.base.enable
      && PwmOf(v, second) == if Ticks(t.base) then p.(counter := PwmCount(p), out := PwmHigh(p)) else p
  {
  }

  function Below(x: int, duty: int): int { if x < duty then x else duty }

  /** In any window of `period` ticks, at whatever phase it starts, the output is high on exactly min(duty, period) of
      them; at the end of the window the phase is back. */
  lemma {:induction false} PwmDuty(t: State, ins: seq<Bus>, second: bool)
    requires t.base.enable && PwmOf(t, second).counter < PwmOf(t, second).period
    requires forall i :: 0 <= i < |ins| ==> SparesPwm(ins[i])
    requires TickCount(t, ins) <= PwmOf(t, second).period
    ensures var s, n, p := Run(t, ins), TickCount(t, ins), PwmOf(t, second);
      var a, q := p.counter, PwmOf(s, second);
      && s.base.enable && q.period == p.period && q.duty == p.duty
      && q.counter == (if a + n < p.period then a + n else a + n - p.period)
      && HighTicks(t, ins, second) == (
            if a + n <= p.period then Below(a + n, p.duty) - Below(a, p.duty)
            else Below(p.period, p.duty) - Below(a, p.duty) + Below(a + n - p.period, p.duty))
      && (n == p.period ==> HighTicks(t, ins, second) == Below(p.period, p.duty) && q.counter == p.counter)
    decreases ins
  {
    hide Step, SparesPwm;
    if ins != [] {
      PwmDuty(t, ins[..|ins| - 1], second);
      PwmStep(Run(t, ins[..|ins| - 1]), ins[|ins| - 1], second);
    }
  }

  // ---- the watchdog ----

  predicate SparesWatchdog(b: Bus) {
    !b.WriteControl? && !b.WritePrescale? && !b.WriteLoad? && !b.WatchdogControl? && !b.ClearStatus?
  }

  lemma WatchdogStep(t: State, bus: Bus)
    requires t.base.enable && SparesWatchdog(bus)
    ensures var v := Step(t, bus);
      && v.base.enable && v.base.prescale == t.base.prescale
      && v.base.divided == (if Ticks(t.base) then 0 else Inc(t.base.divided))
      && v.watchdog == (if Ticks(t.base) && Counts(t.watchdog) then t.watchdog.(counter := t.watchdog.counter - 1)
                        else t.watchdog)
      && v.status.expired == (t.status.expired || (Ticks(t.base) && Counts(t.watchdog) && t.watchdog.counter == 1))
  {
  }

  lemma NextPeriod(k: nat, period: nat)
    ensures (k + 1) * period == k * period + period
  {
  }

  /** A running prescaler ticks every prescale + 1 cycles: cycles and ticks convert exactly. */
  lemma {:induction false} TickSchedule(t: State, ins: seq<Bus>)
    requires t.base.enable && t.base.divided <= t.base.prescale && forall i :: 0 <= i < |ins| ==> SparesWatchdog(ins[i])
    ensures var s, period := Run(t, ins), t.base.prescale + 1;
      && s.base.enable && s.base.prescale == t.base.prescale && s.base.divided <= s.base.prescale
      && |ins| + t.base.divided == TickCount(t, ins) * period + s.base.divided
    decreases ins
  {
    hide Step, SparesWatchdog;
    if ins != [] {
      var head := ins[..|ins| - 1];
      TickSchedule(t, head);
      WatchdogStep(Run(t, head), ins[|ins| - 1]);
      NextPeriod(TickCount(t, head), t.base.prescale + 1);
    }
  }

  /** A loaded, running watchdog expires on exactly the tick that counts its load down to zero. */
  lemma {:induction false} ExpiresOnTick(t: State, ins: seq<Bus>)
    requires t.base.enable && t.watchdog.enable && t.watchdog.counter > 0 && !t.status.expired
    requires forall i :: 0 <= i < |ins| ==> SparesWatchdog(ins[i])
    ensures var s, n, l := Run(t, ins), TickCount(t, ins), t.watchdog.counter;
      && s.base.enable && s.watchdog == t.watchdog.(counter := if n < l then l - n else 0)
      && (s.status.expired <==> n >= l)
    decreases ins
  {
    hide Step, SparesWatchdog;
    if ins != [] {
      ExpiresOnTick(t, ins[..|ins| - 1]);
      WatchdogStep(Run(t, ins[..|ins| - 1]), ins[|ins| - 1]);
    }
  }

  /** After the write that enables a disabled watchdog with load L > 0 and prescale P, the expiry bit is set on exactly
      the L-th tick: once the cycles since the write and the prescaler's phase make up L periods of P + 1 cycles, which
      is after (L - 1)(P + 1) and by L(P + 1) cycles. */
  lemma WatchdogExpiry(t: State, kick: bool, ins: seq<Bus>)
    requires t.base.enable && t.base.divided <= t.base.prescale && !t.watchdog.enable && t.watchdog.load > 0
    requires forall i :: 0 <= i < |ins| ==> SparesWatchdog(ins[i])
    ensures var v := Step(t, WatchdogControl(true, kick));
      var l, period, expired := t.watchdog.load, t.base.prescale + 1, Run(v, ins).status.expired;
      && v.base.divided <= t.base.prescale
      && (expired <==> TickCount(v, ins) >= l)
      && (expired <==> |ins| + v.base.divided >= l * period)
      && (|ins| <= (l - 1) * period ==> !expired) && (|ins| >= l * period ==> expired)
  {
    hide Step, SparesWatchdog, WriteStage;
    EnableStep(t, kick);
    var v := Step(t, WatchdogControl(true, kick));
    TickSchedule(v, ins);
    ExpiresOnTick(v, ins);
    var l, period := t.watchdog.load, t.base.prescale + 1;
    PeriodsOrder(TickCount(v, ins), l, period, Run(v, ins).base.divided);
    Distribute(l, 1, period);
  }

  lemma EnableStep(t: State, kick: bool)
    requires t.base.enable && t.base.divided <= t.base.prescale && !t.watchdog.enable
    ensures var v := Step(t, WatchdogControl(true, kick));
      && v.base.enable && v.base.prescale == t.base.prescale && v.base.divided <= v.base.prescale
      && v.watchdog == Watchdog(t.watchdog.load, t.watchdog.load, true) && !v.status.expired
  {
  }

  lemma Distribute(a: int, b: int, c: int)
    ensures (a - b) * c == a * c - b * c
  {
  }

  lemma PeriodsOrder(n: nat, l: nat, period: nat, rest: nat)
    requires rest < period
    ensures n >= l <==> n * period + rest >= l * period
  {
    Distribute(n, l, period);
    Scale(period, n - l);
    var over := (n - l) * period;
    assert over == period * (n - l);
    if n == l { assert over == 0; }
  }

  /** A kick in a cycle that ticks a running watchdog is overridden by the count. So the counter holds the load after a
      kick exactly when there was no such tick, or when counting down happened to give the load. */
  lemma KickTakesEffectIff(t: State, enable: bool)
    ensures var v, counted := Step(t, WatchdogControl(enable, true)), Ticks(t.base) && Counts(t.watchdog);
      && v.watchdog.counter == (if counted then t.watchdog.counter - 1 else t.watchdog.load)
      && (v.watchdog.counter == t.watchdog.load <==> !counted || t.watchdog.counter == t.watchdog.load + 1)
  {
  }

  // ---- the other registers ----

  /** A compare without auto-reload, or with period 0, keeps its value, and while the timer runs it matches on
      exactly the ticks that find the counter, n ticks on from c modulo 2^32, at that value, unless it is 0. */
  lemma {:induction false} OneShotHolds(t: State, ins: seq<Bus>, second: bool)
    requires t.base.enable && forall i :: 0 <= i < |ins| ==> SparesCompare(ins[i])
    requires !Channel(t, second).reload || Channel(t, second).period == 0
    ensures var s, n, c := Run(t, ins), TickCount(t, ins), Channel(t, second);
      && s.base.enable && s.base.counter == (t.base.counter + n) % MODULUS && Channel(s, second) == c
      && (Matches(Channel(s, second), s.base.counter) <==>
            c.value != 0 && (t.base.counter + n) % MODULUS == c.value)
    decreases ins
  {
    hide Step, SparesCompare, Inc, Ticks;
    if ins != [] {
      var head := ins[..|ins| - 1];
      OneShotHolds(t, head, second);
      CompareStep(Run(t, head), ins[|ins| - 1], second);
      AheadNext(t.base.counter, TickCount(t, head));
    }
  }

  /** A stopped timer counts nothing and matches nothing, and a PWM output stands high exactly if its period and
      duty are not 0. */
  lemma StoppedHolds(t: State, bus: Bus)
    requires !t.base.enable && (bus.Quiet? || bus.WriteControl? || bus.WritePrescale?)
    ensures var v := Step(t, bus);
      && v.base.counter == t.base.counter && v.base.divided == 0 && v.watchdog == t.watchdog && v.status == t.status
      && v.cmp0.value == t.cmp0.value && v.cmp1.value == t.cmp1.value
      && v.pwm0 == t.pwm0.(counter := 0, out := t.pwm0.period > 0 && t.pwm0.duty > 0)
      && v.pwm1 == t.pwm1.(counter := 0, out := t.pwm1.period > 0 && t.pwm1.duty > 0)
  {
  }

  /** A disabled or run-down watchdog never expires, in any run that does not touch it. */
  lemma {:induction false} IdleWatchdogHolds(t: State, ins: seq<Bus>)
    requires !t.watchdog.enable || t.watchdog.counter == 0
    requires forall i :: 0 <= i < |ins| ==> SparesWatchdog(ins[i])
    ensures Run(t, ins).watchdog == t.watchdog && Run(t, ins).status.expired == t.status.expired
    decreases ins
  {
    hide Step, SparesWatchdog;
    if ins != [] {
      IdleWatchdogHolds(t, ins[..|ins| - 1]);
      IdleWatchdogStep(Run(t, ins[..|ins| - 1]), ins[|ins| - 1]);
    }
  }

  lemma IdleWatchdogStep(t: State, bus: Bus)
    requires (!t.watchdog.enable || t.watchdog.counter == 0) && SparesWatchdog(bus)
    ensures Step(t, bus).watchdog == t.watchdog && Step(t, bus).status.expired == t.status.expired
  {
  }

  /** Loading a running watchdog restarts it with the new load and clears its expiry bit, unless a tick counts in
      the same cycle; loading a disabled one only sets the load. Disabling keeps the count. */
  lemma LoadRestarts(t: State, v: Word, kick: bool)
    ensures var n, counted := Step(t, WriteLoad(v)), Ticks(t.base) && Counts(t.watchdog);
      && n.watchdog.load == v && n.watchdog.enable == t.watchdog.enable
      && n.watchdog.counter ==
         (if counted then t.watchdog.counter - 1 else if t.watchdog.enable then v else t.watchdog.counter)
      && (n.status.expired <==>
            (counted && t.watchdog.counter == 1) || (t.status.expired && !t.watchdog.enable))
    ensures var n := Step(t, WatchdogControl(false, false));
      && !n.watchdog.enable && n.watchdog.load == t.watchdog.load
      && n.watchdog.counter == t.watchdog.counter - if Ticks(t.base) && Counts(t.watchdog) then 1 else 0
  {
  }

  /** A trigger captures the counter before the tick. */
  lemma CaptureTakesCounter(t: State, bus: Bus)
    ensures var v := Step(t, bus).capture;
      && v.value0 == (if bus.TriggerCapture? && bus.first then t.base.counter else t.capture.value0)
      && v.value1 == (if bus.TriggerCapture? && bus.second then t.base.counter else t.capture.value1)
  {
  }

  /** Each capture sets its flag, which stays until cleared. */
  lemma CaptureIsLatched(t: State, bus: Bus)
    ensures var v, w := t.status, Step(t, bus).status;
      && (w.captured0 <==> (bus.TriggerCapture? && bus.first)
                           || (v.captured0 && !(bus.ClearStatus? && bus.mask.captured0)))
      && (w.captured1 <==> (bus.TriggerCapture? && bus.second)
                           || (v.captured1 && !(bus.ClearStatus? && bus.mask.captured1)))
  {
  }

  /** The expiry bit is set by an expiry, also against a clear in the same cycle, and otherwise only cleared, by the
      status register, a kick, an enabling or a load. */
  lemma ExpiryIsLatched(t: State, bus: Bus)
    ensures Step(t, bus).status.expired <==>
      || (Ticks(t.base) && Counts(t.watchdog) && t.watchdog.counter == 1)
      || (t.status.expired
          && !(bus.ClearStatus? && bus.mask.expired)
          && !(bus.WatchdogControl? && (bus.kick || (bus.enable && !t.watchdog.enable)))
          && !(bus.WriteLoad? && t.watchdog.enable))
  {
  }

  /** Writing a PWM period restarts its count, unless a tick counts in the same cycle; the other channel goes on. */
  lemma PwmPeriodRestarts(t: State, second: bool, v: Word)
    requires t.base.enable
    ensures var n, p, q := Step(t, WritePwmPeriod(second, v)), PwmOf(t, second), PwmOf(t, !second);
      && PwmOf(n, second).period == v && PwmOf(n, second).duty == p.duty
      && PwmOf(n, second).counter == (if Ticks(t.base) then PwmCount(p) else 0)
      && PwmOf(n, !second) == if Ticks(t.base) then q.(counter := PwmCount(q), out := PwmHigh(q)) else q
  {
  }

  /** The register writes that set a timer up, started last. */
  function Setup(t: State): seq<Bus> {
    [WritePrescale(t.base.prescale), WriteCounter(t.base.counter),
     WriteCompare(false, t.cmp0.value), WritePeriod(false, t.cmp0.period),
     WriteCompare(true, t.cmp1.value), WritePeriod(true, t.cmp1.period),
     WritePwmPeriod(false, t.pwm0.period), WritePwmDuty(false, t.pwm0.duty),
     WritePwmPeriod(true, t.pwm1.period), WritePwmDuty(true, t.pwm1.duty),
     WriteLoad(t.watchdog.load), WatchdogControl(t.watchdog.enable, false),
     WriteControl(t.base.enable, t.cmp0.reload, t.cmp1.reload)]
  }

  /** Every setting is reached from reset by them: with the prescaler at 0, the PWM counters at 0, the watchdog at
      its load if enabled, and no status bit set. */
  lemma SetupIsReached(t: State)
    requires t.base.divided == 0 && t.pwm0 == Pwm(t.pwm0.period, t.pwm0.duty, 0, t.pwm0.period > 0 && t.pwm0.duty > 0)
    requires t.pwm1 == Pwm(t.pwm1.period, t.pwm1.duty, 0, t.pwm1.period > 0 && t.pwm1.duty > 0)
    requires t.watchdog.counter == if t.watchdog.enable then t.watchdog.load else 0
    requires t.capture == RESET.capture && t.status == RESET.status
    ensures Run(RESET, Setup(t)) == t
  {
    hide Step, Run, Setup;
    var s, b := Setup(t), t.base.(enable := false);
    FirstWrites(t);
    var c := RESET.(base := b, cmp0 := t.cmp0.(reload := false), cmp1 := t.cmp1.(reload := false));
    PwmWrites(t, c);
    var p := c.(pwm0 := t.pwm0, pwm1 := t.pwm1);
    LastWrites(t, p);
    assert s[..13] == s by { assert |s| == 13 by { SetupLength(t); } }
  }

  lemma SetupLength(t: State)
    ensures |Setup(t)| == 13
  {
  }

  lemma RunNext(t: State, ins: seq<Bus>, k: nat)
    requires k < |ins|
    ensures Run(t, ins[..k + 1]) == Step(Run(t, ins[..k]), ins[k])
  {
    assert ins[..k + 1][..k] == ins[..k];
  }

  lemma FirstWrites(t: State)
    requires t.base.divided == 0
    ensures |Setup(t)| == 13
    ensures Run(RESET, Setup(t)[..6]) == RESET.(base := t.base.(enable := false), cmp0 := t.cmp0.(reload := false),
        cmp1 := t.cmp1.(reload := false))
  {
    hide Run;
    var s := Setup(t);
    assert Run(RESET, s[..0]) == RESET by { EmptyRun(RESET, s[..0]); }
    RunNext(RESET, s, 0); RunNext(RESET, s, 1); RunNext(RESET, s, 2);
    RunNext(RESET, s, 3); RunNext(RESET, s, 4); RunNext(RESET, s, 5);
  }

  lemma EmptyRun(t: State, ins: seq<Bus>)
    requires ins == []
    ensures Run(t, ins) == t
  {
  }

  lemma PwmWrites(t: State, c: State)
    requires |Setup(t)| == 13 && Run(RESET, Setup(t)[..6]) == c && !c.base.enable && c.base.divided == 0
    requires c.pwm0 == c.pwm1 == RESET.pwm0
    requires t.pwm0 == Pwm(t.pwm0.period, t.pwm0.duty, 0, t.pwm0.period > 0 && t.pwm0.duty > 0)
    requires t.pwm1 == Pwm(t.pwm1.period, t.pwm1.duty, 0, t.pwm1.period > 0 && t.pwm1.duty > 0)
    ensures var n := Run(RESET, Setup(t)[..10]);
      n == c.(pwm0 := t.pwm0, pwm1 := n.pwm1) && n.pwm1.(out := t.pwm1.out) == t.pwm1
  {
    hide Run;
    var s := Setup(t);
    RunNext(RESET, s, 6); RunNext(RESET, s, 7); RunNext(RESET, s, 8); RunNext(RESET, s, 9);
  }

  lemma LastWrites(t: State, p: State)
    requires |Setup(t)| == 13 && !p.base.enable && p.base == t.base.(enable := false) && p.base.divided == 0
    requires var n := Run(RESET, Setup(t)[..10]); n == p.(pwm1 := n.pwm1) && n.pwm1.(out := t.pwm1.out) == t.pwm1
    requires p == RESET.(base := p.base, cmp0 := t.cmp0.(reload := false), cmp1 := t.cmp1.(reload := false),
        pwm0 := t.pwm0, pwm1 := t.pwm1)
    requires t.pwm0 == Pwm(t.pwm0.period, t.pwm0.duty, 0, t.pwm0.period > 0 && t.pwm0.duty > 0)
    requires t.pwm1 == Pwm(t.pwm1.period, t.pwm1.duty, 0, t.pwm1.period > 0 && t.pwm1.duty > 0)
    requires t.watchdog.counter == if t.watchdog.enable then t.watchdog.load else 0
    requires t.capture == RESET.capture && t.status == RESET.status
    ensures Run(RESET, Setup(t)[..13]) == t
  {
    hide Run;
    var s := Setup(t);
    RunNext(RESET, s, 10); RunNext(RESET, s, 11); RunNext(RESET, s, 12);
  }

  // ---- the clocked block ----

  class TimerUnit {
    var base: Base
    var cmp0: Compare
    var cmp1: Compare
    var watchdog: Watchdog
    var pwm0: Pwm
    var pwm1: Pwm
    var capture: Capture
    var status: Status

    function Snapshot(): State
      reads this
    {
      State(base, cmp0, cmp1, watchdog, pwm0, pwm1, capture, status)
    }

    constructor ()
      ensures Snapshot() == RESET
    {
      base, cmp0, cmp1, watchdog := RESET.base, RESET.cmp0, RESET.cmp1, RESET.watchdog;
      pwm0, pwm1, capture, status := RESET.pwm0, RESET.pwm1, RESET.capture, RESET.status;
    }

    /** One clock edge: the register write, then the assignments of the counting part, over the old registers. */
    method Tick(bus: Bus)
      modifies this
      ensures Snapshot() == Step(old(Snapshot()), bus)
    {
      hide WriteStage, TickStage;
      var t := Snapshot();
      Write(bus);
      if t.base.enable {
        if t.base.divided >= t.base.prescale {
          Count(t);
        } else {
          base := base.(divided := Inc(t.base.divided));
        }
      } else {
        base := base.(divided := 0);
        pwm0 := pwm0.(counter := 0, out := t.pwm0.period != 0 && t.pwm0.duty != 0);
        pwm1 := pwm1.(counter := 0, out := t.pwm1.period != 0 && t.pwm1.duty != 0);
      }
    }

    /** Register writes. */
    method Write(bus: Bus)
      modifies this
      ensures Snapshot() == WriteStage(old(Snapshot()), bus)
    {
      match bus {
        case Quiet =>
        case WriteControl(e, r0, r1) =>
          base, cmp0, cmp1 := base.(enable := e), cmp0.(reload := r0), cmp1.(reload := r1);
        case WritePrescale(v) => base := base.(prescale := v);
        case WriteCounter(v) => base := base.(counter := v);
        case ClearStatus(m) => status := Cleared(status, m);
        case WriteCompare(second, v) => if second { cmp1 := cmp1.(value := v); } else { cmp0 := cmp0.(value := v); }
        case WritePeriod(second, v) => if second { cmp1 := cmp1.(period := v); } else { cmp0 := cmp0.(period := v); }
        case WriteLoad(v) =>
          watchdog := watchdog.(load := v);
          if watchdog.enable {
            watchdog := watchdog.(counter := v);
            status := status.(expired := false);
          }
        case WatchdogControl(e, kick) => Control(e, kick);
        case WritePwmPeriod(second, v) =>
          if second { pwm1 := pwm1.(period := v, counter := 0); } else { pwm0 := pwm0.(period := v, counter := 0); }
        case WritePwmDuty(second, v) => if second { pwm1 := pwm1.(duty := v); } else { pwm0 := pwm0.(duty := v); }
        case TriggerCapture(first, second) =>
          if first {
            capture := capture.(value0 := base.counter);
            status := status.(captured0 := true);
          }
          if second {
            capture := capture.(value1 := base.counter);
            status := status.(captured1 := true);
          }
      }
    }

    method Control(e: bool, kick: bool)
      modifies `watchdog, `status
      ensures Snapshot() == WriteStage(old(Snapshot()), WatchdogControl(e, kick))
    {
      if !watchdog.enable && e {
        watchdog := watchdog.(counter := watchdog.load);
        status := status.(expired := false);
      }
      if kick {
        watchdog := watchdog.(counter := watchdog.load);
        status := status.(expired := false);
      }
      watchdog := watchdog.(enable := e);
    }

    /** A tick. */
    method Count(t: State)
      modifies this
      ensures Snapshot() == TickStage(t, old(Snapshot()))
    {
      base := base.(divided := 0, counter := Inc(t.base.counter));
      if t.watchdog.enable && t.watchdog.counter != 0 {
        watchdog := watchdog.(counter := t.watchdog.counter - 1);
        if t.watchdog.counter == 1 { status := status.(expired := true); }
      }
      CountCompares(t);
      pwm0 := pwm0.(counter := PwmCount(t.pwm0), out := PwmHigh(t.pwm0));
      pwm1 := pwm1.(counter := PwmCount(t.pwm1), out := PwmHigh(t.pwm1));
    }

    method CountCompares(t: State)
      modifies `cmp0, `cmp1, `status
      ensures cmp0 == CompareNext(t.cmp0, t.base.counter, old(cmp0))
          && cmp1 == CompareNext(t.cmp1, t.base.counter, old(cmp1))
      ensures status == old(status).(match0 := old(status).match0 || Matches(t.cmp0, t.base.counter),
                                     match1 := old(status).match1 || Matches(t.cmp1, t.base.counter))
    {
      if t.cmp0.value != 0 && t.base.counter == t.cmp0.value {
        status := status.(match0 := true);
        if t.cmp0.reload && t.cmp0.period != 0 { cmp0 := cmp0.(value := Add(t.cmp0.value, t.cmp0.period)); }
      }
      if t.cmp1.value != 0 && t.base.counter == t.cmp1.value {
        status := status.(match1 := true);
        if t.cmp1.reload && t.cmp1.period != 0 { cmp1 := cmp1.(value := Add(t.cmp1.value, t.cmp1.period)); }
      }
    }
  }
}
