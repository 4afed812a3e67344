/**
 One CIA timer as a value: the pipelined state machine that is clocked once per PHI1 and the
 register accesses that happen in PHI2 (src/c64/CIA/timer.h, src/c64/CIA/timer.cpp).
 */
module TimerCore {

  type u8 = x: int | 0 <= x < 0x100
  type u16 = x: int | 0 <= x < 0x1_0000

  /** The bits of m_state. */
  datatype Flags = Flags(
    start: bool, step: bool, oneshot: bool, fload: bool, phi2in: bool,
    count2: bool, count3: bool,
    oneshot0: bool, oneshot1: bool, load1: bool, load: bool, out: bool)

  datatype Core = Core(f: Flags, timer: u16, latch: u16, pb: bool, cr: bv8)

  function Wrap16(x: int): u16 { x % 0x1_0000 }

  /** Moves every flag one stage along the pipeline. */
  function Shift(f: Flags): Flags {
    Flags(
      start := f.start, step := false, oneshot := f.oneshot, fload := false, phi2in := f.phi2in,
      count2 := f.start && f.phi2in,
      count3 := f.count2 || (f.step && f.start),
      oneshot0 := f.oneshot, oneshot1 := f.oneshot0,
      load1 := f.fload, load := f.load1, out := false)
  }

  function Counted(c: Core): u16 {
    if c.f.count3 then Wrap16(c.timer - 1) else c.timer
  }

  /** Does the next clock underflow? */
  predicate Underflows(c: Core) {
    Counted(c) == 0 && Shift(c.f).count3
  }

  function Advance(c: Core): Core { c.(f := Shift(c.f), timer := Counted(c)) }

  /** Does the output toggle, rather than pulse? */
  predicate Toggles(cr: bv8) { cr & 6 == 6 }

  function StopOneShot(f: Flags): Flags {
    if f.oneshot0 || f.oneshot1 then f.(start := false, count2 := false) else f
  }

  /** An underflow asks for a reload, shows on the output and stops a one-shot timer. */
  function Signal(c: Core): Core {
    c.(f := StopOneShot(c.f.(load := true, out := true)),
       pb := Toggles(c.cr) && !c.pb)
  }

  function Reload(c: Core): Core {
    if c.f.load then c.(f := c.f.(count3 := false), timer := c.latch) else c
  }

  /** One CIA state transition. */
  function Clock(c: Core): Core {
    Reload(if Underflows(c) then Signal(Advance(c)) else Advance(c))
  }

  /** What the CPU, or an underflow of the other timer, can do to a timer. */
  datatype Access =
    | Read
    | Control(value: bv8, rising: bool)  // rising: the start bit of the register goes from 0 to 1
    | LatchLo(data: u8)
    | LatchHi(data: u8)
    | Cascade

  function WithLo(word: u16, data: u8): u16 { word / 0x100 * 0x100 + data }

  function WithHi(word: u16, data: u8): u16 { data * 0x100 + word % 0x100 }

  predicate On(value: bv8, bit: bv8) { value & bit != 0 }

  function WithControl(f: Flags, start: bool, oneshot: bool, fload: bool, phi2in: bool): Flags {
    f.(start := start, oneshot := oneshot, fload := fload, phi2in := phi2in)
  }

  function SetControl(c: Core, value: bv8): Core {
    c.(f := WithControl(c.f, On(value, 0x01), On(value, 0x08), On(value, 0x10), !On(value, 0x20)), cr := value)
  }

  function Apply(c: Core, a: Access): Core {
    match a
    case Read => c
    case Control(value, rising) => SetControl(if rising then c.(pb := true) else c, value)
    case LatchLo(data) =>
      var latch := WithLo(c.latch, data);
      c.(latch := latch, timer := if c.f.load then latch else c.timer)
    case LatchHi(data) =>
      var latch := WithHi(c.latch, data);
      var pending := c.f.load1 || (!c.f.load && !c.f.start);
      c.(latch := latch, timer := if c.f.load then latch else c.timer, f := c.f.(load1 := pending))
    case Cascade => c.(f := c.f.(step := true))
  }

  /** A write to one half of the latch changes that half and keeps the other. */
  lemma LatchHalves(c: Core, data: u8)
    ensures var t := Apply(c, LatchLo(data)); t.latch % 0x100 == data && t.latch / 0x100 == c.latch / 0x100
    ensures var t := Apply(c, LatchHi(data)); t.latch / 0x100 == data && t.latch % 0x100 == c.latch % 0x100
  {
  }

  /** Two writes, in either order, set the whole latch. */
  lemma LatchWritten(c: Core, lo: u8, hi: u8)
    ensures Apply(Apply(c, LatchLo(lo)), LatchHi(hi)).latch == lo + 0x100 * hi
    ensures Apply(Apply(c, LatchHi(hi)), LatchLo(lo)).latch == lo + 0x100 * hi
  {
    LatchHalves(c, lo);
    LatchHalves(c, hi);
    LatchHalves(Apply(c, LatchLo(lo)), hi);
    LatchHalves(Apply(c, LatchHi(hi)), lo);
    hide Apply;
  }

  const RESET_FLAGS := Flags(false, false, false, false, false, false, false, false, false, false, false, false)
  const RESET_CORE := Core(RESET_FLAGS, 0xffff, 0xffff, false, 0)

  /** Holds in every reachable state: a counting timer is not zero, and a reload stops the count. */
  predicate Sound(c: Core) {
    (c.f.count3 ==> c.timer != 0) && (c.f.load ==> !c.f.count3)
  }

  /** Holds right after every clock. */
  predicate Settled(f: Flags) {
    && f.oneshot0 == f.oneshot
    && !f.step
    && (f.count2 ==> f.start && f.phi2in)
  }

  /** Equal up to the last one-shot stage, which is rewritten before it is ever read. */
  predicate Same(a: Core, b: Core) {
    Masked(a) == Masked(b)
  }

  function Masked(c: Core): Core { c.(f := c.f.(oneshot1 := false)) }

  lemma ClockKeepsSound(c: Core)
    ensures Sound(Clock(c)) && Settled(Clock(c).f)
  {
  }

  lemma ApplyKeepsSound(c: Core, a: Access)
    requires Sound(c)
    ensures Sound(Apply(c, a))
  {
  }

  /** In a sound state the 16-bit decrement never wraps. */
  lemma CountNeverWraps(c: Core)
    requires Sound(c)
    ensures Counted(c) == c.timer - (if c.f.count3 then 1 else 0)
  {
  }

  /** One clock makes machines that differ only in that stage equal. */
  lemma ClockForgets(a: Core, b: Core)
    requires Same(a, b)
    ensures Clock(a) == Clock(b) && Underflows(a) == Underflows(b)
  {
  }

  lemma WithControlMasked(f: Flags, start: bool, oneshot: bool, fload: bool, phi2in: bool)
    ensures WithControl(f.(oneshot1 := false), start, oneshot, fload, phi2in) ==
            WithControl(f, start, oneshot, fload, phi2in).(oneshot1 := false)
  {
  }

  lemma ControlMasked(c: Core, value: bv8, rising: bool)
    ensures Apply(Masked(c), Control(value, rising)) == Masked(Apply(c, Control(value, rising)))
  {
    SetControlMasked(c, value);
    SetControlMasked(c.(pb := true), value);
    assert Masked(c.(pb := true)) == Masked(c).(pb := true);
    hide SetControl, Masked;
  }

  lemma SetControlMasked(c: Core, value: bv8)
    ensures SetControl(Masked(c), value) == Masked(SetControl(c, value))
  {
    hide On;
    WithControlMasked(c.f, On(value, 0x01), On(value, 0x08), On(value, 0x10), !On(value, 0x20));
    hide WithControl;
  }

  lemma LatchMasked(c: Core, data: u8)
    ensures Apply(Masked(c), LatchLo(data)) == Masked(Apply(c, LatchLo(data)))
    ensures Apply(Masked(c), LatchHi(data)) == Masked(Apply(c, LatchHi(data)))
  {
    hide WithLo, WithHi, SetControl;
  }

  lemma CascadeMasked(c: Core)
    ensures Apply(Masked(c), Cascade) == Masked(Apply(c, Cascade))
    ensures Apply(Masked(c), Read) == Masked(Apply(c, Read))
  {
    hide SetControl;
  }

  lemma ApplyMasked(c: Core, acc: Access)
    ensures Apply(Masked(c), acc) == Masked(Apply(c, acc))
  {
    hide Apply, Masked;
    match acc
    case Read => CascadeMasked(c);
    case Control(value, rising) => ControlMasked(c, value, rising);
    case LatchLo(data) => LatchMasked(c, data);
    case LatchHi(data) => LatchMasked(c, data);
    case Cascade => CascadeMasked(c);
  }

  lemma ApplySame(a: Core, b: Core, acc: Access)
    requires Same(a, b)
    ensures Same(Apply(a, acc), Apply(b, acc))
  {
    hide Apply, Masked;
    ApplyMasked(a, acc);
    ApplyMasked(b, acc);
  }
}

/**
 The cycle-skipping timer against the timer that is clocked every cycle.
 */
module TimerSkipping {
  import opened TimerCore

  /** The event the timer has in the queue, with the cycle in whose PHI1 it fires. */
  datatype Pending = Idle | Tick(at: int) | Skip(at: int)

  /** The timer as implemented: ciaEventPauseTime, the pending event and the underflows signalled. */
  datatype Skipper = Skipper(core: Core, pause: int, pending: Pending, underflows: seq<int>)

  /** The timer that is clocked in every PHI1. */
  datatype Naive = Naive(core: Core, underflows: seq<int>)

  predicate InPassing(f: Flags) { f.out || f.fload || f.load1 || f.load }

  predicate Counting(c: Core) {
    c.timer > 2 && c.f.start && c.f.phi2in && c.f.count2 && c.f.count3
  }

  /** Picks the next event after the clock of cycle `now`; no event is pending. */
  function Reschedule(s: Skipper, now: int): Skipper {
    var f := s.core.f;
    if InPassing(f) then s.(pending := Tick(now + 1))
    else if f.count3 then
      if Counting(s.core) then s.(pause := now + 1, pending := Skip(now + s.core.timer - 1))
      else s.(pending := Tick(now + 1))
    else if f.start && (f.phi2in || f.step) then s.(pending := Tick(now + 1))
    else s.(pause := -1, pending := Idle)
  }

  function Clocked(s: Skipper, now: int): Skipper {
    s.(core := Clock(s.core), underflows := s.underflows + if Underflows(s.core) then [now] else [])
  }

  /** The one-cycle event. */
  function TickEvent(s: Skipper, now: int): Skipper {
    Reschedule(Clocked(s.(pending := Idle), now), now)
  }

  /** The event at the end of a skipped stretch. */
  function SkipEvent(s: Skipper, now: int): Skipper {
    var elapsed := now - s.pause;
    TickEvent(s.(pause := 0, core := s.core.(timer := Wrap16(s.core.timer - elapsed))), now)
  }

  /** Catches up with the CPU in PHI2 of cycle `now` and drops all events. */
  function SyncWithCpu(s: Skipper, now: int): Skipper {
    var elapsed := now - s.pause;
    var s' := if s.pause > 0 && elapsed >= 0
              then Clocked(s.(core := s.core.(timer := Wrap16(s.core.timer - elapsed))), now) else s;
    s'.(pending := Idle, pause := -1)
  }

  function WakeUp(s: Skipper, now: int): Skipper {
    s.(pause := 0, pending := Tick(now + 1))
  }

  /** PHI1 of a cycle: the pending event fires if its time has come. */
  function SkipperPhi1(s: Skipper, now: int): Skipper {
    match s.pending
    case Tick(at) => if at == now then TickEvent(s, now) else s
    case Skip(at) => if at == now then SkipEvent(s, now) else s
    case Idle => s
  }

  function SkipperAccess(s: Skipper, now: int, a: Access): Skipper {
    var s' := SyncWithCpu(s, now);
    WakeUp(s'.(core := Apply(s'.core, a)), now)
  }

  function NaivePhi1(n: Naive, now: int): Naive {
    Naive(Clock(n.core), n.underflows + if Underflows(n.core) then [now] else [])
  }

  function NaiveAccess(n: Naive, a: Access): Naive {
    n.(core := Apply(n.core, a))
  }

  /** Everything an access can see: counter, START bit, both sources of the port B output. */
  datatype View = View(timer: u16, started: bool, toggle: bool, pulse: bool)

  function Observe(c: Core): View { View(c.timer, c.f.start, c.pb, c.f.out) }

  // ----- The relation between the two -----

  /** A stretch of pure counting that began with the clock of cycle s.pause - 1. */
  predicate InStretch(s: Skipper, now: int) {
    && s.pause > 0
    && s.pending == Skip(s.pause - 1 + s.core.timer - 1)
    && s.pause - 1 <= now < s.pause - 1 + s.core.timer - 1
    && Counting(s.core) && !InPassing(s.core.f) && Settled(s.core.f)
  }

  predicate AtRest(s: Skipper) {
    && s.pause == -1
    && s.pending == Idle
    && !InPassing(s.core.f) && !s.core.f.count3 && Settled(s.core.f)
    && !(s.core.f.start && s.core.f.phi2in)
  }

  /** The core the skipping timer would have if it had been clocked up to and including cycle `now`. */
  function CaughtUp(s: Skipper, now: int): Core
    requires InStretch(s, now)
  {
    s.core.(timer := s.core.timer - (now - (s.pause - 1)))
  }

  /** How the two timers compare between PHI1 of cycle `now` and PHI1 of the next cycle. */
  predicate Agree(n: Naive, s: Skipper, now: int) {
    && now >= 0
    && n.underflows == s.underflows
    && Sound(s.core)
    && match s.pending
       case Tick(at) => s.pause == 0 && at == now + 1 && Same(n.core, s.core)
       case Skip(_) => InStretch(s, now) && Same(n.core, CaughtUp(s, now))
       case Idle => AtRest(s) && Same(n.core, s.core)
  }

  /** In a stretch of counting a clock only counts down. */
  lemma StretchClock(c: Core)
    requires Counting(c) && !InPassing(c.f) && Settled(c.f)
    ensures !Underflows(c) && Same(Clock(c), c.(timer := c.timer - 1))
  {
  }

  /** At rest a clock changes nothing that matters. */
  lemma RestClock(c: Core)
    requires !InPassing(c.f) && !c.f.count3 && Settled(c.f) && !(c.f.start && c.f.phi2in)
    ensures !Underflows(c) && Same(Clock(c), c)
  {
  }

  lemma RescheduleAgrees(n: Naive, s: Skipper, now: int)
    requires now >= 0 && s.pause == 0 && n.core == s.core && n.underflows == s.underflows
    requires Sound(s.core) && Settled(s.core.f)
    ensures Agree(n, Reschedule(s, now), now)
  {
  }

  /** One clock phase: afterwards the two agree again, exactly so if an event fired. */
  lemma Phi1Agrees(n: Naive, s: Skipper, now: int)
    requires now >= 1 && Agree(n, s, now - 1)
    ensures Agree(NaivePhi1(n, now), SkipperPhi1(s, now), now)
    ensures s.pending == Tick(now) || s.pending == Skip(now) ==> NaivePhi1(n, now).core == SkipperPhi1(s, now).core
  {
    match s.pending
    case Tick(_) =>
      ClockForgets(n.core, s.core);
      ClockKeepsSound(s.core);
      RescheduleAgrees(NaivePhi1(n, now), Clocked(s.(pending := Idle), now), now);
    case Skip(at) =>
      var c := CaughtUp(s, now - 1);
      ClockForgets(n.core, c);
      if at == now {
        ClockKeepsSound(c);
        RescheduleAgrees(NaivePhi1(n, now), Clocked(s.(pause := 0, pending := Idle, core := c), now), now);
      } else {
        StretchClock(c);
      }
    case Idle =>
      ClockForgets(n.core, s.core);
      RestClock(s.core);
  }

  /** Catching up reaches the state of the timer clocked every cycle and crosses no underflow. */
  lemma SyncAgrees(n: Naive, s: Skipper, now: int)
    requires Agree(n, s, now)
    ensures var s' := SyncWithCpu(s, now);
            && Same(n.core, s'.core) && Sound(s'.core)
            && s'.underflows == s.underflows
            && s'.pending == Idle && s'.pause == -1
  {
    if s.pending.Skip? && now >= s.pause {
      var c := CaughtUp(s, now - 1);
      StretchClock(c);
      ClockKeepsSound(c);
    }
  }

  lemma AccessAgrees(n: Naive, s: Skipper, now: int, a: Access)
    requires Agree(n, s, now)
    ensures Agree(NaiveAccess(n, a), SkipperAccess(s, now, a), now)
  {
    SyncAgrees(n, s, now);
    var s' := SyncWithCpu(s, now);
    ApplySame(n.core, s'.core, a);
    ApplyKeepsSound(s'.core, a);
  }

  // ----- Runs -----

  /** The accesses of one PHI2, each with what it sees once it is done. */
  function SkipperPhi2(s: Skipper, now: int, accesses: seq<Access>): (Skipper, seq<View>)
    decreases |accesses|
  {
    if accesses == [] then (s, [])
    else
      var s' := SkipperAccess(s, now, accesses[0]);
      var (end, views) := SkipperPhi2(s', now, accesses[1..]);
      (end, [Observe(s'.core)] + views)
  }

  function NaivePhi2(n: Naive, accesses: seq<Access>): (Naive, seq<View>)
    decreases |accesses|
  {
    if accesses == [] then (n, [])
    else
      var n' := NaiveAccess(n, accesses[0]);
      var (end, views) := NaivePhi2(n', accesses[1..]);
      (end, [Observe(n'.core)] + views)
  }

  /** One whole cycle: the clock phase, then the accesses. */
  function SkipperCycle(s: Skipper, now: int, accesses: seq<Access>): (Skipper, seq<View>) {
    SkipperPhi2(SkipperPhi1(s, now), now, accesses)
  }

  function NaiveCycle(n: Naive, now: int, accesses: seq<Access>): (Naive, seq<View>) {
    NaivePhi2(NaivePhi1(n, now), accesses)
  }

  /** Cycles now, now + 1, ... with the accesses made in each; what every access saw. */
  function SkipperRun(s: Skipper, now: int, cycles: seq<seq<Access>>): (Skipper, seq<seq<View>>)
    decreases |cycles|
  {
    if cycles == [] then (s, [])
    else
      var (s', seen) := SkipperCycle(s, now, cycles[0]);
      var (end, rest) := SkipperRun(s', now + 1, cycles[1..]);
      (end, [seen] + rest)
  }

  function NaiveRun(n: Naive, now: int, cycles: seq<seq<Access>>): (Naive, seq<seq<View>>)
    decreases |cycles|
  {
    if cycles == [] then (n, [])
    else
      var (n', seen) := NaiveCycle(n, now, cycles[0]);
      var (end, rest) := NaiveRun(n', now + 1, cycles[1..]);
      (end, [seen] + rest)
  }

  lemma {:induction false} Phi2Agrees(n: Naive, s: Skipper, now: int, accesses: seq<Access>)
    requires Agree(n, s, now)
    ensures Agree(NaivePhi2(n, accesses).0, SkipperPhi2(s, now, accesses).0, now)
    ensures NaivePhi2(n, accesses).1 == SkipperPhi2(s, now, accesses).1
    decreases |accesses|
  {
    if accesses != [] {
      AccessAgrees(n, s, now, accesses[0]);
      Phi2Agrees(NaiveAccess(n, accesses[0]), SkipperAccess(s, now, accesses[0]), now, accesses[1..]);
    }
  }

  lemma CycleAgrees(n: Naive, s: Skipper, now: int, accesses: seq<Access>)
    requires now >= 1 && Agree(n, s, now - 1)
    ensures Agree(NaiveCycle(n, now, accesses).0, SkipperCycle(s, now, accesses).0, now)
    ensures NaiveCycle(n, now, accesses).1 == SkipperCycle(s, now, accesses).1
  {
    Phi1Agrees(n, s, now);
    Phi2Agrees(NaivePhi1(n, now), SkipperPhi1(s, now), now, accesses);
  }

  /** Under every schedule of accesses the skipping timer shows every access what the timer clocked every
      cycle shows, and underflows in the same cycles. */
  lemma {:induction false} SkippingIsInvisible(n: Naive, s: Skipper, now: int, cycles: seq<seq<Access>>)
    requires now >= 1 && Agree(n, s, now - 1)
    ensures var (n', seenN) := NaiveRun(n, now, cycles);
            var (s', seenS) := SkipperRun(s, now, cycles);
            seenN == seenS && n'.underflows == s'.underflows && Agree(n', s', now + |cycles| - 1)
    decreases |cycles|
  {
    hide NaiveCycle, SkipperCycle;
    if cycles != [] {
      CycleAgrees(n, s, now, cycles[0]);
      SkippingIsInvisible(NaiveCycle(n, now, cycles[0]).0, SkipperCycle(s, now, cycles[0]).0, now + 1, cycles[1..]);
    }
  }

  const RESET_SKIPPER := Skipper(RESET_CORE, 0, Tick(1), [])

  /** The same from reset, with the accesses that cycle 0 may already hold. */
  lemma SkippingFromReset(first: seq<Access>, cycles: seq<seq<Access>>)
    ensures var (n, seenN0) := NaivePhi2(Naive(RESET_CORE, []), first);
            var (s, seenS0) := SkipperPhi2(RESET_SKIPPER, 0, first);
            seenN0 == seenS0 &&
            NaiveRun(n, 1, cycles).1 == SkipperRun(s, 1, cycles).1 &&
            NaiveRun(n, 1, cycles).0.underflows == SkipperRun(s, 1, cycles).0.underflows
  {
    Phi2Agrees(Naive(RESET_CORE, []), RESET_SKIPPER, 0, first);
    SkippingIsInvisible(NaivePhi2(Naive(RESET_CORE, []), first).0, SkipperPhi2(RESET_SKIPPER, 0, first).0, 1, cycles);
  }
}
