/**
 The time-of-day clock of the CIA (src/c64/CIA/tod.cpp): counters that carry into each other, the ring counter
 that divides the power-line ticks, and the latch.
 */
module TodCounters {
  import opened Arith

  /** A counter of `width` states that carries when it reaches `base`, on top of the counters it carries into;
      the last are the hours from 1 to 12 with their AM/PM flag. */
  datatype Counters =
    | Digit(value: nat, base: nat, width: nat, above: Counters)
    | Hours(hl: nat, hh: nat, pm: bool)

  /** The counters hold what their bits can hold. */
  predicate InWidth(c: Counters) {
    match c
    case Digit(v, b, w, up) => v < w && 0 < b < w && InWidth(up)
    case Hours(hl, hh, _) => hl < 16 && hh < 2
  }

  function TickHours(hl: nat, hh: nat, pm: bool): Counters {
    if (hl == 2 && hh == 1) || (hl == 9 && hh == 0) then Hours(hh, 1 - hh % 2, pm)
    else
      var up := (hl + 1) % 16;
      Hours(up, hh, if up == 2 && hh == 1 then !pm else pm)
  }

  function Tick(c: Counters): Counters {
    match c
    case Digit(v, b, w, up) =>
      if w > 0 && (v + 1) % w == b then Digit(0, b, w, Tick(up)) else Digit(if w > 0 then (v + 1) % w else v, b, w, up)
    case Hours(hl, hh, pm) => TickHours(hl, hh, pm)
  }

  // ----- What the counters mean -----

  /** Every digit below its base, and an hour from 01 to 12. */
  predicate IsTime(c: Counters) {
    match c
    case Digit(v, b, w, up) => v < b < w && IsTime(up)
    case Hours(hl, hh, _) => (hh == 0 && 1 <= hl <= 9) || (hh == 1 && hl <= 2)
  }

  function Scale(b: nat, x: nat): nat { b * x }

  lemma ScaleNext(b: nat, x: nat)
    ensures Scale(b, x + 1) == Scale(b, x) + b && Scale(b, 0) == 0
  {
  }

  lemma {:induction false} ScaleGrows(b: nat, x: nat, y: nat)
    requires x < y
    ensures Scale(b, x) + b <= Scale(b, y)
    decreases y
  {
    ScaleNext(b, y - 1);
    hide Scale;
    if x < y - 1 {
      ScaleGrows(b, x, y - 1);
    }
  }

  /** The number of units since midnight. */
  function Value(c: Counters): nat {
    match c
    case Digit(v, b, _, up) => v + Scale(b, Value(up))
    case Hours(hl, hh, pm) => (10 * hh + hl) % 12 + if pm then 12 else 0
  }

  /** The number of units in a day. */
  function Day(c: Counters): nat {
    match c
    case Digit(_, b, _, up) => Scale(b, Day(up))
    case Hours(_, _, _) => 24
  }

  lemma {:induction false} ValueInDay(c: Counters)
    requires IsTime(c)
    ensures Value(c) < Day(c)
  {
    hide Scale;
    match c
    case Hours(_, _, _) =>
    case Digit(v, b, _, up) =>
      ValueInDay(up);
      ScaleGrows(b, Value(up), Day(up));
  }

  function NextIn(x: nat, n: nat): nat { if x + 1 == n then 0 else x + 1 }

  lemma HourTicks(hl: nat, hh: nat, pm: bool)
    requires IsTime(Hours(hl, hh, pm))
    ensures IsTime(TickHours(hl, hh, pm))
    ensures Value(TickHours(hl, hh, pm)) == NextIn(Value(Hours(hl, hh, pm)), 24)
  {
  }

  /** A digit over counters that hold x of n. */
  lemma DigitAdvances(v: nat, b: nat, x: nat, n: nat)
    requires v < b && x < n
    ensures NextIn(v + Scale(b, x), Scale(b, n)) == if v + 1 == b then Scale(b, NextIn(x, n)) else v + 1 + Scale(b, x)
  {
    ScaleNext(b, x);
    ScaleNext(b, 0);
    ScaleGrows(b, x, n);
    hide Scale;
    if x + 1 < n {
      ScaleGrows(b, x + 1, n);
    }
  }

  /** Ticking a clock that holds a time adds one unit, and wraps at midnight. */
  lemma {:induction false} TickAdvances(c: Counters)
    requires IsTime(c)
    ensures IsTime(Tick(c)) && Day(Tick(c)) == Day(c) && Value(Tick(c)) == NextIn(Value(c), Day(c))
  {
    hide Scale;
    match c
    case Hours(hl, hh, pm) => HourTicks(hl, hh, pm);
    case Digit(v, b, w, up) =>
      TickAdvances(up);
      ValueInDay(up);
      DivModUnique(v + 1, w, 0, v + 1);
      DigitAdvances(v, b, Value(up), Day(up));
  }

  function Ticks(c: Counters, n: nat): Counters
    decreases n
  {
    if n == 0 then c else Ticks(Tick(c), n - 1)
  }

  lemma {:induction false} TicksAdvance(c: Counters, n: nat)
    requires IsTime(c)
    ensures IsTime(Ticks(c, n)) && Day(Ticks(c, n)) == Day(c) > 0 && Value(Ticks(c, n)) == (Value(c) + n) % Day(c)
    decreases n
  {
    hide Value, Day, IsTime;
    ValueInDay(c);
    if n == 0 {
      DivModUnique(Value(c), Day(c), 0, Value(c));
    } else {
      TickAdvances(c);
      TicksAdvance(Tick(c), n - 1);
      if Value(c) + 1 == Day(c) {
        ModSubtract(Value(c) + n, Day(c));
      }
    }
  }

  // ----- From any contents to a time -----

  lemma {:induction false} TicksCompose(c: Counters, n: nat, m: nat)
    ensures Ticks(Ticks(c, n), m) == Ticks(c, n + m)
    decreases n
  {
    if n > 0 {
      TicksCompose(Tick(c), n - 1, m);
    }
  }

  lemma {:induction false} TickInWidth(c: Counters)
    requires InWidth(c)
    ensures InWidth(Tick(c))
  {
    match c
    case Hours(_, _, _) =>
    case Digit(v, b, w, up) => TickInWidth(up);
  }

  /** How many more ticks until the hours are a time. */
  function HoursToGo(hl: nat, hh: nat): nat
    requires hl < 16
  {
    if hh == 0 then (if hl == 0 then 1 else if hl <= 9 then 0 else 17 - hl)
    else if hl <= 2 then 0 else 16 - hl
  }

  lemma {:induction false} HoursSettle(c: Counters) returns (n: nat)
    requires c.Hours? && InWidth(c)
    ensures IsTime(Ticks(c, n))
    decreases HoursToGo(c.hl, c.hh)
  {
    n := 0;
    if !IsTime(c) {
      n := HoursSettle(Tick(c));
      n := n + 1;
    }
  }

  /** How many ticks a digit takes until it carries. */
  function ToCarry(v: nat, b: nat, w: nat): nat
    requires v < w && b < w
  {
    if v < b then b - v else w + b - v
  }

  lemma DigitMoves(v: nat, b: nat, w: nat)
    requires v < w && 0 < b < w
    ensures (v + 1) % w == b ==> ToCarry(v, b, w) == 1 && v < b
    ensures (v + 1) % w != b ==> (v + 1) % w < w && ToCarry((v + 1) % w, b, w) == ToCarry(v, b, w) - 1
  {
    if v + 1 < w {
      DivModUnique(v + 1, w, 0, v + 1);
    } else {
      DivModUnique(v + 1, w, 1, 0);
    }
  }

  /** A digit lets as many ticks as needed through to the counters above it, and is below its base by then. */
  lemma {:induction false} LetsThrough(c: Counters, n: nat) returns (m: nat)
    requires c.Digit? && InWidth(c)
    ensures var t := Ticks(c, m); t.Digit? && t.above == Ticks(c.above, n) && t.base == c.base && t.width == c.width && t.value < c.base
    decreases n, ToCarry(c.value, c.base, c.width)
  {
    if n == 0 && c.value < c.base {
      m := 0;
    } else {
      TickInWidth(c);
      DigitMoves(c.value, c.base, c.width);
      hide ToCarry, InWidth;
      m := LetsThrough(Tick(c), if (c.value + 1) % c.width == c.base then n - 1 else n);
      m := m + 1;
    }
  }

  /** Whatever the registers hold, the clock shows a time after enough ticks, and from then on. */
  lemma {:induction false} EventuallyATime(c: Counters) returns (n: nat)
    requires InWidth(c)
    ensures IsTime(Ticks(c, n))
  {
    match c
    case Hours(_, _, _) => n := HoursSettle(c);
    case Digit(v, b, w, up) =>
      var k := EventuallyATime(up);
      n := LetsThrough(c, k);
  }
}

/** The registers of the clock, its divider and its latch, on the event scheduler (src/c64/CIA/tod.cpp). */
module TimeOfDay {
  import opened Arith
  import opened EventQueue
  import opened Scheduling
  import opened TodCounters

  type u8 = x: int | 0 <= x < 0x100
  type Register = x: nat | x < 4
  type Registers = s: seq<u8> | |s| == 4 witness [0, 0, 0, 0]

  const TENTHS := 0
  const SECONDS := 1
  const MINUTES := 2
  const HOURS := 3

  /** The counters in the registers: tenths, two digits each of seconds and minutes, and the hours. */
  function Unpack(r: Registers): (c: Counters)
    ensures InWidth(c)
  {
    Chain(r[0] % 16, r[1] % 16, r[1] / 16 % 8, r[2] % 16, r[2] / 16 % 8, r[3] % 16, r[3] / 16 % 2, r[3] >= 0x80)
  }

  function Chain(ts: nat, sl: nat, sh: nat, ml: nat, mh: nat, hl: nat, hh: nat, pm: bool): (c: Counters)
    ensures ts < 16 && sl < 16 && sh < 8 && ml < 16 && mh < 8 && hl < 16 && hh < 2 ==> InWidth(c)
  {
    var minutes := Digit(ml, 10, 16, Digit(mh, 6, 8, Hours(hl, hh, pm)));
    assert ml < 16 && mh < 8 && hl < 16 && hh < 2 ==> InWidth(minutes.above) && InWidth(minutes);
    var seconds := Digit(sl, 10, 16, Digit(sh, 6, 8, minutes));
    assert sl < 16 && sh < 8 && InWidth(minutes) ==> InWidth(seconds.above) && InWidth(seconds);
    Digit(ts, 10, 16, seconds)
  }

  /** Tenths of a second since midnight. */
  function Time(r: Registers): nat { Value(Unpack(r)) }

  const TENTHS_IN_A_DAY := 864000

  lemma DayOfTenths(r: Registers)
    ensures Day(Unpack(r)) == TENTHS_IN_A_DAY
  {
    var seconds := Unpack(r).above;
    var minutes := seconds.above.above;
    assert Day(minutes.above) == 144 && Day(minutes) == 1440;
    assert Day(seconds.above) == 8640 && Day(seconds) == 86400;
  }

  // ----- The divider -----

  /** One step of the ring counter, its bits in mirrored order. */
  function RingNext(ring: nat): nat { ring / 2 + if ring % 2 == 0 then 4 else 0 }

  /** The state in which the next power-line tick is passed on: after five ticks at 50 Hz, after six at 60 Hz. */
  function RingMatch(fifty: bool): nat { if fifty then 3 else 1 }

  /** The states of the ring in their order. */
  const RING: seq<nat> := [0, 4, 6, 7, 3, 1]

  datatype Divided = Divided(ring: nat, counters: Counters)

  function PowerTick(s: Divided, fifty: bool): Divided {
    if s.ring == RingMatch(fifty) then Divided(0, Tick(s.counters)) else s.(ring := RingNext(s.ring))
  }

  function PowerTicks(s: Divided, fifty: bool, n: nat): Divided
    decreases n
  {
    if n == 0 then s else PowerTicks(PowerTick(s, fifty), fifty, n - 1)
  }

  function Division(fifty: bool): nat { if fifty then 5 else 6 }

  lemma RingStep(position: nat, fifty: bool)
    requires position < Division(fifty)
    ensures RING[position] == RingMatch(fifty) <==> position + 1 == Division(fifty)
    ensures position + 1 < Division(fifty) ==> RingNext(RING[position]) == RING[position + 1]
  {
  }

  lemma CarryOver(x: nat, d: nat)
    requires d > 0
    ensures (x + d) / d == x / d + 1 && (x + d) % d == x % d
  {
    DivModUnique(x + d, d, x / d + 1, x % d);
  }

  /** The ring passes on every fifth or sixth power-line tick, wherever in the ring it starts. */
  lemma {:induction false} RingDivides(position: nat, c: Counters, fifty: bool, n: nat)
    requires position < Division(fifty)
    ensures var d := Division(fifty);
            PowerTicks(Divided(RING[position], c), fifty, n) == Divided(RING[(position + n) % d], Ticks(c, (position + n) / d))
    decreases n
  {
    hide RingNext, RingMatch, Tick;
    RingStep(position, fifty);
    if n > 0 {
      if position + 1 < Division(fifty) {
        RingDivides(position + 1, c, fifty, n - 1);
      } else {
        RingDivides(0, Tick(c), fifty, n - 1);
        CarryOver(n - 1, Division(fifty));
      }
    }
  }

  /** After a switch to 50 Hz the ring may stand on the sixth state: it then takes one tick more. */
  lemma SixthState(c: Counters, n: nat)
    requires n > 0
    ensures PowerTicks(Divided(RING[5], c), true, n) == PowerTicks(Divided(RING[0], c), true, n - 1)
  {
  }

  /** A running clock that shows a time is, after n power-line ticks, ahead by a fifth or a sixth of them, modulo
      24 hours. */
  lemma ClockKeepsTime(r: Registers, position: nat, fifty: bool, n: nat)
    requires IsTime(Unpack(r)) && position < Division(fifty)
    ensures var t := PowerTicks(Divided(RING[position], Unpack(r)), fifty, n).counters;
            IsTime(t) && Value(t) == (Time(r) + (position + n) / Division(fifty)) % TENTHS_IN_A_DAY
  {
    RingDivides(position, Unpack(r), fifty, n);
    TicksAdvance(Unpack(r), (position + n) / Division(fifty));
    DayOfTenths(r);
    hide Unpack, PowerTicks, Ticks, IsTime, Day;
  }

  /** Whatever is in the registers, a running clock comes to show a time. */
  lemma ClockSettles(r: Registers, position: nat, fifty: bool) returns (n: nat)
    requires position < Division(fifty)
    ensures IsTime(PowerTicks(Divided(RING[position], Unpack(r)), fifty, n).counters)
  {
    var k := EventuallyATime(Unpack(r));
    var d := Division(fifty);
    n := d * k + d - position;
    RingDivides(position, Unpack(r), fifty, n);
    assert position + n == (k + 1) * d;
    DivModUnique(position + n, d, k + 1, 0);
    hide PowerTicks;
    TicksCompose(Unpack(r), k, 1);
    StaysATime(Ticks(Unpack(r), k));
  }

  lemma StaysATime(c: Counters)
    requires IsTime(c)
    ensures IsTime(Ticks(c, 1))
  {
    TickAdvances(c);
    assert Ticks(Tick(c), 0) == Tick(c);
  }

  // ----- When the ticks come -----

  /** The cycles until the next tick and the fraction, in 128ths, that is carried over. */
  function Delay(fraction: nat, period: nat): nat { (fraction + period) / 128 }
  function Carried(fraction: nat, period: nat): nat { (fraction + period) % 128 }

  function TotalDelay(fraction: nat, period: nat, n: nat): (nat, nat)
    decreases n
  {
    if n == 0 then (0, fraction) else
      var (total, last) := TotalDelay(Carried(fraction, period), period, n - 1);
      (Delay(fraction, period) + total, last)
  }

  /** No fraction of a cycle is lost over any number of ticks. */
  lemma {:induction false} DelaysAddUp(fraction: nat, period: nat, n: nat)
    requires fraction < 128
    ensures TotalDelay(fraction, period, n) == ((fraction + n * period) / 128, (fraction + n * period) % 128)
    decreases n
  {
    if n > 0 {
      var f := Carried(fraction, period);
      DelaysAddUp(f, period, n - 1);
      assert n * period == period + (n - 1) * period;
      var x := f + (n - 1) * period;
      DivModUnique(fraction + n * period, 128, Delay(fraction, period) + x / 128, x % 128);
    }
  }

  // ----- The latch -----

  datatype View = View(clock: Registers, latch: Registers, isLatched: bool)

  /** A read: the view after it, and the value. */
  function ReadFrom(v: View, reg: Register): (View, u8)
  {
    var latch := if v.isLatched then v.latch else v.clock;
    (View(v.clock, latch, if reg == TENTHS then false else if reg == HOURS then true else v.isLatched), latch[reg])
  }

  /** Between the reads the clock may change in any way. */
  datatype Access = Changed(clock: Registers) | Read(reg: Register)

  predicate NotTenths(a: Access) { a.Read? ==> a.reg != TENTHS }

  function Values(v: View, accesses: seq<Access>): seq<u8>
    decreases |accesses|
  {
    if accesses == [] then [] else
      match accesses[0]
      case Changed(clock) => Values(v.(clock := clock), accesses[1..])
      case Read(reg) => [ReadFrom(v, reg).1] + Values(ReadFrom(v, reg).0, accesses[1..])
  }

  function Snapshot(r: Registers, accesses: seq<Access>): seq<u8>
    decreases |accesses|
  {
    if accesses == [] then [] else
      (if accesses[0].Read? then [r[accesses[0].reg]] else []) + Snapshot(r, accesses[1..])
  }

  lemma {:induction false} LatchedReads(v: View, accesses: seq<Access>)
    requires v.isLatched && forall a | a in accesses :: NotTenths(a)
    ensures Values(v, accesses + [Read(TENTHS)]) == Snapshot(v.latch, accesses + [Read(TENTHS)])
    decreases |accesses|
  {
    var all := accesses + [Read(TENTHS)];
    if accesses == [] {
      assert all == [Read(TENTHS)] && all[1..] == [];
    } else {
      var a := accesses[0];
      assert a in accesses && all[0] == a && all[1..] == accesses[1..] + [Read(TENTHS)];
      LatchedReads(if a.Read? then ReadFrom(v, a.reg).0 else v.(clock := a.clock), accesses[1..]);
      if a.Changed? {
        assert [] + Snapshot(v.latch, all[1..]) == Snapshot(v.latch, all[1..]);
      }
    }
  }

  /** Reading the hours, then anything but the tenths, then the tenths, shows one moment: that of the hours, unless
      the registers were latched already. Whatever the clock does meanwhile. */
  lemma OneSnapshot(v: View, accesses: seq<Access>)
    requires forall a | a in accesses :: NotTenths(a)
    ensures var all := [Read(HOURS)] + accesses + [Read(TENTHS)];
            Values(v, all) == Snapshot(if v.isLatched then v.latch else v.clock, all)
  {
    var all := [Read(HOURS)] + accesses + [Read(TENTHS)];
    assert all[1..] == accesses + [Read(TENTHS)];
    LatchedReads(ReadFrom(v, HOURS).0, accesses);
  }

  /** Reading the tenths lets the registers follow the clock again. */
  lemma TenthsRelease(v: View, reg: Register)
    ensures !ReadFrom(v, TENTHS).0.isLatched && ReadFrom(ReadFrom(v, TENTHS).0, reg).1 == v.clock[reg]
  {
  }

  // ----- The clock -----

  /** What a write stores: the bits the register has, and AM/PM flipped on hour 12 unless it is the alarm. */
  function Stored(reg: Register, data: u8, alarm: bool): u8
  {
    if reg == TENTHS then data % 16
    else if reg == SECONDS || reg == MINUTES then data % 128
    else
      var hours := data / 128 * 128 + data % 32;
      if hours % 32 == 0x12 && !alarm then (hours + 0x80) % 0x100 else hours
  }

  /** The bits the registers do not have are 0. */
  predicate Canonical(r: Registers) { r[0] < 16 && r[1] < 128 && r[2] < 128 && r[3] % 128 < 32 }

  class Tod {
    const eventScheduler: EventScheduler
    const self: Event
    var cycles: nat
    var period: nat
    var todtickcounter: nat
    var isLatched: bool
    var isStopped: bool
    const clock: array<u8>
    const latch: array<u8>
    const alarm: array<u8>
    /** How often todInterrupt() was called. */
    var alarms: nat

    ghost predicate Valid()
    {
      clock.Length == 4 && latch.Length == 4 && alarm.Length == 4 && clock != latch && clock != alarm && latch != alarm
    }

    ghost function Shown(): View
      requires Valid()
      reads this, clock, latch
    {
      View(clock[..], latch[..], isLatched)
    }

    constructor (scheduler: EventScheduler)
      ensures Valid() && eventScheduler == scheduler && fresh(self) && fresh(clock) && fresh(latch) && fresh(alarm)
    {
      eventScheduler := scheduler;
      self := new Event();
      clock, latch, alarm := new u8[4], new u8[4], new u8[4];
      cycles, period, todtickcounter, isLatched, isStopped, alarms := 0, 0, 0, false, true, 0;
    }

    /** The whole machine is reset together, so the scheduler no longer holds the event. */
    method Reset()
      requires Valid() && eventScheduler.Valid() && self !in eventScheduler.Chain()
      modifies this, clock, latch, alarm, eventScheduler, eventScheduler.Chain()`next, self
      ensures clock[..] == [0, 0, 0, 1] && latch[..] == clock[..] && alarm[..] == [0, 0, 0, 0]
      ensures !isLatched && isStopped && cycles == 0 && todtickcounter == RING[0]
      ensures eventScheduler.Valid()
      ensures eventScheduler.queue == Add(old(eventScheduler.queue), self, PhasedTime(old(eventScheduler.currentTime), 0, Phi1))
    {
      cycles, todtickcounter, isLatched, isStopped := 0, 0, false, true;
      ClearRegisters();
      eventScheduler.SchedulePhased(self, 0, Phi1);
    }

    method ClearRegisters()
      requires Valid()
      modifies clock, latch, alarm
      ensures clock[..] == [0, 0, 0, 1] && latch[..] == clock[..] && alarm[..] == [0, 0, 0, 0]
    {
      forall k | 0 <= k < 4 { clock[k] := if k == HOURS then 1 else 0; }
      forall k | 0 <= k < 4 { latch[k] := clock[k]; }
      forall k | 0 <= k < 4 { alarm[k] := 0; }
    }

    method CheckAlarm()
      requires Valid()
      modifies this`alarms
      ensures alarms == old(alarms) + if alarm[..] == clock[..] then 1 else 0
    {
      if alarm[..] == clock[..] {
        alarms := alarms + 1;
      }
    }

    method Read(reg: Register) returns (value: u8)
      requires Valid()
      modifies this`isLatched, latch
      ensures (Shown(), value) == ReadFrom(old(Shown()), reg)
    {
      if !isLatched {
        forall k | 0 <= k < 4 { latch[k] := clock[k]; }
        assert latch[..] == clock[..];
      }
      assert clock[..] == old(clock[..]);
      if reg == TENTHS {
        isLatched := false;
      } else if reg == HOURS {
        isLatched := true;
      }
      value := latch[reg];
    }

    /** A write; `crb` says with bit 7 whether it is for the alarm. */
    method Write(reg: Register, data: u8, crb: u8)
      requires Valid()
      modifies this`alarms, this`isStopped, this`todtickcounter, clock, alarm
      ensures var value := Stored(reg, data, crb >= 0x80);
              if crb >= 0x80 then
                && alarm[..] == old(alarm[..])[reg := value] && clock[..] == old(clock[..])
                && isStopped == old(isStopped) && todtickcounter == old(todtickcounter)
              else
                && clock[..] == old(clock[..])[reg := value] && alarm[..] == old(alarm[..])
                && isStopped == (if reg == TENTHS then false else if reg == HOURS then true else old(isStopped))
                && todtickcounter == (if reg == TENTHS && old(isStopped) then RING[0] else old(todtickcounter))
      ensures alarms == old(alarms) + if alarm[..] == clock[..] && !(old(alarm[..]) == alarm[..] && old(clock[..]) == clock[..]) then 1 else 0
    {
      var value := Stored(reg, data, crb >= 0x80);
      var changed := false;
      if crb >= 0x80 {
        if alarm[reg] != value {
          changed := true;
          alarm[reg] := value;
        }
        assert alarm[..] == old(alarm[..])[reg := value];
        assert changed <==> alarm[reg] != old(alarm[reg]);
      } else {
        if reg == TENTHS {
          if isStopped {
            todtickcounter := 0;
            isStopped := false;
          }
        } else if reg == HOURS {
          isStopped := true;
        }
        if clock[reg] != value {
          changed := true;
          clock[reg] := value;
        }
        assert clock[..] == old(clock[..])[reg := value];
        assert changed <==> clock[reg] != old(clock[reg]);
      }
      if changed {
        CheckAlarm();
      }
    }

    /** The handler of the clock's own event, just taken from the queue: a tick of the power line. */
    method Event(cra: u8)
      requires Valid() && eventScheduler.Valid() && self !in eventScheduler.Chain()
      modifies this`cycles, this`todtickcounter, this`alarms, clock, eventScheduler, eventScheduler.Chain()`next, self
      ensures eventScheduler.Valid()
      ensures eventScheduler.queue == Add(old(eventScheduler.queue), self,
                                          PlainTime(old(eventScheduler.currentTime), Delay(old(cycles), period)))
      ensures cycles == Carried(old(cycles), period)
      ensures Divided(todtickcounter, Unpack(clock[..]))
              == if isStopped then Divided(old(todtickcounter), Unpack(old(clock[..])))
                 else PowerTick(Divided(old(todtickcounter), Unpack(old(clock[..]))), cra >= 0x80)
    {
      hide Unpack, Tick, PowerTick, EventQueue.Valid, Add;
      Requeue();
      if !isStopped {
        Divide(cra >= 0x80);
      }
    }

    /** Fixed precision 25.7: the fraction of a cycle is kept for the next time. */
    method Requeue()
      requires eventScheduler.Valid() && self !in eventScheduler.Chain()
      modifies this`cycles, eventScheduler, eventScheduler.Chain()`next, self
      ensures eventScheduler.Valid()
      ensures eventScheduler.queue == Add(old(eventScheduler.queue), self,
                                          PlainTime(old(eventScheduler.currentTime), Delay(old(cycles), period)))
      ensures cycles == Carried(old(cycles), period)
    {
      cycles := cycles + period;
      eventScheduler.Schedule(self, cycles / 128);
      cycles := cycles % 128;
    }

    method Divide(fifty: bool)
      requires Valid()
      modifies this`todtickcounter, this`alarms, clock
      ensures Divided(todtickcounter, Unpack(clock[..])) == PowerTick(Divided(old(todtickcounter), Unpack(old(clock[..]))), fifty)
    {
      hide Unpack, Tick;
      if todtickcounter == RingMatch(fifty) {
        todtickcounter := 0;
        UpdateCounters();
      } else {
        todtickcounter := RingNext(todtickcounter);
      }
    }

    method UpdateCounters()
      requires Valid()
      modifies this`alarms, clock
      ensures Unpack(clock[..]) == Tick(Unpack(old(clock[..]))) && Canonical(clock[..])
      ensures alarms == old(alarms) + if alarm[..] == clock[..] then 1 else 0
    {
      var ts: nat := clock[TENTHS] % 16;
      var sl: nat, sh: nat := clock[SECONDS] % 16, clock[SECONDS] / 16 % 8;
      var ml: nat, mh: nat := clock[MINUTES] % 16, clock[MINUTES] / 16 % 8;
      var hl: nat, hh: nat := clock[HOURS] % 16, clock[HOURS] / 16 % 2;
      var pm := clock[HOURS] >= 0x80;
      ghost var before := clock[..];
      assert Unpack(before) == Chain(ts, sl, sh, ml, mh, hl, hh, pm);
      ts, sl, sh, ml, mh, hl, hh, pm := Advance(ts, sl, sh, ml, mh, hl, hh, pm);
      hide Tick;
      Repack(ts, sl, sh, ml, mh, hl, hh, pm);
      clock[TENTHS] := ts;
      clock[SECONDS] := sl + 16 * sh;
      clock[MINUTES] := ml + 16 * mh;
      clock[HOURS] := hl + 16 * hh + if pm then 0x80 else 0;
      assert clock[..] == [ts, sl + 16 * sh, ml + 16 * mh, hl + 16 * hh + if pm then 0x80 else 0];
      hide Unpack, Chain;
      CheckAlarm();
    }

    /** One tenth of a second on the separate digits. */
    static method Advance(ts0: nat, sl0: nat, sh0: nat, ml0: nat, mh0: nat, hl0: nat, hh0: nat, pm0: bool)
      returns (ts: nat, sl: nat, sh: nat, ml: nat, mh: nat, hl: nat, hh: nat, pm: bool)
      requires ts0 < 16 && sl0 < 16 && sh0 < 8 && ml0 < 16 && mh0 < 8 && hl0 < 16 && hh0 < 2
      ensures ts < 16 && sl < 16 && sh < 8 && ml < 16 && mh < 8 && hl < 16 && hh < 2
      ensures Chain(ts, sl, sh, ml, mh, hl, hh, pm) == Tick(Chain(ts0, sl0, sh0, ml0, mh0, hl0, hh0, pm0))
    {
      ghost var c5 := Hours(hl0, hh0, pm0);
      ghost var c4 := Digit(mh0, 6, 8, c5);
      ghost var c3 := Digit(ml0, 10, 16, c4);
      ghost var c2 := Digit(sh0, 6, 8, c3);
      ghost var c1 := Digit(sl0, 10, 16, c2);
      assert Tick(c4) == if (mh0 + 1) % 8 == 6 then Digit(0, 6, 8, Tick(c5)) else Digit((mh0 + 1) % 8, 6, 8, c5);
      assert Tick(c3) == if (ml0 + 1) % 16 == 10 then Digit(0, 10, 16, Tick(c4)) else Digit((ml0 + 1) % 16, 10, 16, c4);
      assert Tick(c2) == if (sh0 + 1) % 8 == 6 then Digit(0, 6, 8, Tick(c3)) else Digit((sh0 + 1) % 8, 6, 8, c3);
      assert Tick(c1) == if (sl0 + 1) % 16 == 10 then Digit(0, 10, 16, Tick(c2)) else Digit((sl0 + 1) % 16, 10, 16, c2);
      ts, sl, sh, ml, mh, hl, hh, pm := ts0, sl0, sh0, ml0, mh0, hl0, hh0, pm0;
      ts := (ts + 1) % 16;
      if ts == 10 {
        ts := 0;
        sl := (sl + 1) % 16;
        if sl == 10 {
          sl := 0;
          sh := (sh + 1) % 8;
          if sh == 6 {
            sh := 0;
            ml := (ml + 1) % 16;
            if ml == 10 {
              ml := 0;
              mh := (mh + 1) % 8;
              if mh == 6 {
                mh := 0;
                if (hl == 2 && hh == 1) || (hl == 9 && hh == 0) {
                  hl := hh;
                  hh := 1 - hh;
                } else {
                  hl := (hl + 1) % 16;
                  if hl == 2 && hh == 1 {
                    pm := !pm;
                  }
                }
              }
            }
          }
        }
      }
    }
  }

  lemma Repack(ts: nat, sl: nat, sh: nat, ml: nat, mh: nat, hl: nat, hh: nat, pm: bool)
    requires ts < 16 && sl < 16 && sh < 8 && ml < 16 && mh < 8 && hl < 16 && hh < 2
    ensures Unpack([ts, sl + 16 * sh, ml + 16 * mh, hl + 16 * hh + if pm then 0x80 else 0]) == Chain(ts, sl, sh, ml, mh, hl, hh, pm)
    ensures Canonical([ts, sl + 16 * sh, ml + 16 * mh, hl + 16 * hh + if pm then 0x80 else 0])
  {
  }
}
