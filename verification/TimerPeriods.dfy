/**
 How often a timer underflows when nobody touches it: continuous mode, one-shot mode and timer B
 counting the underflows of timer A (src/c64/CIA/timer.cpp, src/c64/CIA/mos652x.cpp).
 The timers are clocked every cycle here; TimerSkipping shows that skipping cannot be told apart.
 */
module TimerPeriods {
  import opened Arith
  import opened TimerCore

  /** The timer after n clocks without any access. */
  function Clocks(c: Core, n: nat): Core
    decreases n
  {
    if n == 0 then c else Clocks(Clock(c), n - 1)
  }

  lemma {:induction false} ClocksAdd(c: Core, m: nat, n: nat)
    ensures Clocks(c, m + n) == Clocks(Clocks(c, m), n)
    decreases m
  {
    hide Clock;
    if m > 0 {
      ClocksAdd(Clock(c), m - 1, n);
    }
  }

  predicate NoReload(f: Flags) { !f.fload && !f.load1 && !f.step }

  // ----- Continuous mode -----

  predicate Continuous(f: Flags) {
    f.start && f.phi2in && !f.oneshot && !f.oneshot0 && NoReload(f)
  }

  /** Right after an underflow: back at the latch, not counting yet. */
  predicate JustReloaded(c: Core) {
    Continuous(c.f) && c.f.count2 && !c.f.count3 && c.timer == c.latch
  }

  lemma UnderflowReloads(c: Core)
    requires Continuous(c.f) && Underflows(c)
    ensures JustReloaded(Clock(c)) && Clock(c).latch == c.latch
  {
  }

  predicate CountingDown(c: Core) {
    Continuous(c.f) && c.f.count2 && c.f.count3 && !c.f.load && c.timer > 0
  }

  lemma {:induction false} CountDown(c: Core, k: nat)
    requires CountingDown(c) && k < c.timer
    ensures CountingDown(Clocks(c, k)) && Clocks(c, k).latch == c.latch && Clocks(c, k).timer == c.timer - k
    ensures Underflows(Clocks(c, k)) <==> k == c.timer - 1
    decreases k
  {
    if k > 0 {
      CountDown(Clock(c), k - 1);
    }
  }

  /** From one underflow to the next are exactly latch + 1 clocks, a latch of 0 included. */
  lemma {:induction false} ContinuousPeriod(c: Core, k: nat)
    requires JustReloaded(c) && k <= c.latch
    ensures Underflows(Clocks(c, k)) <==> k == c.latch
    ensures JustReloaded(Clocks(c, c.latch + 1)) && Clocks(c, c.latch + 1).latch == c.latch
  {
    var d := Clock(c);
    if k > 0 {
      CountDown(d, k - 1);
    }
    if c.latch > 0 {
      CountDown(d, c.latch - 1);
    }
    ClocksAdd(c, c.latch, 1);
    UnderflowReloads(Clocks(c, c.latch));
  }

  /** Over a whole run: the n-th clock from here underflows iff n is a multiple of latch + 1. */
  lemma {:induction false} ContinuousUnderflows(c: Core, n: nat)
    requires JustReloaded(c)
    ensures Underflows(Clocks(c, n)) <==> (n + 1) % (c.latch + 1) == 0
    decreases n
  {
    var period := c.latch + 1;
    if n >= period {
      ContinuousPeriod(c, 0);
      ClocksAdd(c, period, n - period);
      ContinuousUnderflows(Clocks(c, period), n - period);
      ModSubtract(n + 1, period);
    } else {
      ContinuousPeriod(c, n);
      DivModUnique(n + 1, period, if n == c.latch then 1 else 0, if n == c.latch then 0 else n + 1);
    }
  }

  // ----- From the control write on -----

  /** A stopped timer in whose pipeline nothing moves. */
  predicate Still(f: Flags) {
    !f.start && !f.step && !f.count2 && !f.count3 && !f.fload && !f.load1 && !f.load
  }

  /** The control values that start a timer on the system clock: continuous or one-shot, with or without force load. */
  predicate Starts(value: bv8, oneshot: bool, force: bool) {
    value & 0x39 == 0x01 | (if oneshot then 0x08 else 0) | (if force then 0x10 else 0)
  }

  /** The clock in which a timer first underflows, counted from the start. A counter that stands at 0 underflows
      before a forced load reaches it. */
  function UnderflowClock(c: Core, force: bool): nat {
    if force && c.timer > 0 then c.latch + 2 else c.timer + 1
  }

  lemma StartedFlags(c: Core, value: bv8, rising: bool, oneshot: bool, force: bool)
    requires Starts(value, oneshot, force)
    ensures var d := Apply(c, Control(value, rising));
            && d.f == c.f.(start := true, oneshot := oneshot, fload := force, phi2in := true)
            && d.timer == c.timer && d.latch == c.latch
  {
  }

  lemma ClocksFew(d: Core)
    ensures Clocks(d, 0) == d && Clocks(d, 1) == Clock(d) && Clocks(d, 2) == Clock(Clock(d))
    ensures Clocks(d, 3) == Clock(Clock(Clock(d)))
  {
    hide Clock;
    assert Clocks(d, 1) == Clocks(Clock(d), 0);
    assert Clocks(d, 2) == Clocks(Clock(d), 1) == Clocks(Clock(Clock(d)), 0);
    assert Clocks(d, 3) == Clocks(Clock(d), 2) == Clocks(Clock(Clock(d)), 1) == Clocks(Clock(Clock(Clock(d))), 0);
  }

  /** The first clocks of a continuous timer fill the pipeline: no underflow but that of a counter standing at 0. */
  lemma FirstContinuous(d: Core, force: bool)
    requires Still(d.f.(start := false, fload := false)) && d.f.start && !d.f.oneshot && d.f.phi2in && d.f.fload == force
    ensures !Underflows(d) && Clock(d).latch == d.latch
    ensures var e := Clock(d);
            && (Underflows(e) <==> d.timer == 0)
            && (d.timer == 0 ==> JustReloaded(Clock(e)) && Clock(e).latch == d.latch)
            && (d.timer > 0 && !force ==> CountingDown(Clock(e)) && Clock(e).timer == d.timer && Clock(e).latch == d.latch)
            && (d.timer > 0 && force ==> JustReloaded(Clock(e)) && Clock(e).latch == d.latch)
  {
  }

  /** From the control write that starts it, whatever counter and latch hold: a continuous timer underflows for the
      first time in the clock named, and then in every (latch + 1)-th. */
  lemma ContinuousFromStart(c: Core, value: bv8, rising: bool, force: bool, k: nat)
    requires Still(c.f) && Starts(value, false, force)
    ensures var d, first := Apply(c, Control(value, rising)), UnderflowClock(c, force);
            Underflows(Clocks(d, k)) <==> k >= first && (k - first) % (c.latch + 1) == 0
  {
    var d := Apply(c, Control(value, rising));
    StartedFlags(c, value, rising, false, force);
    FirstContinuous(d, force);
    ClocksFew(d);
    hide Underflows, Clock, Apply, Starts, JustReloaded, CountingDown, Still;
    if c.timer > 0 && !force {
      if k >= 2 {
        ClocksAdd(d, 2, k - 2);
        CountsThenRepeats(Clocks(d, 2), k - 2);
      }
    } else {
      FirstUnderflow(d, c.timer == 0, k);
    }
  }

  /** A timer that is reloaded in its second clock, whether it underflows there or not. */
  lemma FirstUnderflow(d: Core, early: bool, k: nat)
    requires JustReloaded(Clocks(d, 2)) && Clocks(d, 2).latch == d.latch
    requires !Underflows(Clocks(d, 0)) && (Underflows(Clocks(d, 1)) <==> early)
    ensures var first := if early then 1 else d.latch + 2;
            Underflows(Clocks(d, k)) <==> k >= first && (k - first) % (d.latch + 1) == 0
  {
    hide Underflows, Clocks, JustReloaded;
    if k >= 2 {
      ClocksAdd(d, 2, k - 2);
      ContinuousUnderflows(Clocks(d, 2), k - 2);
      ForcedPhase(k, d.latch + 1);
    } else {
      DivModUnique(0, d.latch + 1, 0, 0);
    }
  }

  lemma ForcedPhase(k: nat, n: nat)
    requires k >= 2 && n > 0
    ensures (k - 1) % n == 0 <==> k >= n + 1 && (k - 1 - n) % n == 0
  {
    ModSubtract(k - 1, n);
    if k < n + 1 {
      DivModUnique(k - 1, n, 0, k - 1);
    }
  }

  /** A counting timer underflows when it has counted down, and then once in a period. */
  lemma CountsThenRepeats(c: Core, k: nat)
    requires CountingDown(c)
    ensures Underflows(Clocks(c, k)) <==> k >= c.timer - 1 && (k - (c.timer - 1)) % (c.latch + 1) == 0
  {
    var last: nat := c.timer - 1;
    CountDown(c, last);
    UnderflowReloads(Clocks(c, last));
    hide Underflows, Clock, Clocks, CountingDown, JustReloaded;
    if k <= last {
      CountDown(c, k);
      if k == last {
        DivModUnique(0, c.latch + 1, 0, 0);
      }
    } else {
      ClocksAdd(c, last, 1);
      ClocksFew(Clocks(c, last));
      ClocksAdd(c, last + 1, k - last - 1);
      ContinuousUnderflows(Clocks(c, last + 1), k - last - 1);
    }
  }

  /** A period written in two halves and started in continuous mode: the n-th underflow comes lo + 0x100 * hi + 1
      clocks after the one before, the first after what the counter held. */
  lemma WrittenPeriod(c: Core, lo: u8, hi: u8, value: bv8, rising: bool, force: bool, k: nat)
    requires Still(c.f) && Starts(value, false, force)
    ensures var t := Apply(Apply(c, LatchLo(lo)), LatchHi(hi));
            var d := Clocks(t, 3);
            && d.timer == d.latch == lo + 0x100 * hi && Still(d.f)
            && var first := UnderflowClock(d, force);
               (Underflows(Clocks(Apply(d, Control(value, rising)), k)) <==>
                  k >= first && (k - first) % (lo + 0x100 * hi + 1) == 0)
  {
    var t := Apply(Apply(c, LatchLo(lo)), LatchHi(hi));
    LatchWritten(c, lo, hi);
    StoppedReloads(Apply(c, LatchLo(lo)), hi);
    ClocksFew(t);
    ContinuousFromStart(Clocks(t, 3), value, rising, force, k);
  }

  /** Writing the high half of the latch of a stopped timer loads it within three clocks. */
  lemma StoppedReloads(c: Core, hi: u8)
    requires Still(c.f)
    ensures var t := Apply(c, LatchHi(hi));
            var d := Clock(Clock(Clock(t)));
            d.timer == d.latch == t.latch && Still(d.f)
  {
    hide WithHi;
  }

  // ----- One-shot mode -----

  /** A stopped timer resting at its latch. */
  predicate Resting(c: Core) {
    !c.f.start && !c.f.count2 && !c.f.count3 && c.timer == c.latch
  }

  lemma RestingClock(c: Core)
    requires Resting(c)
    ensures Resting(Clock(c)) && Clock(c).latch == c.latch && !Underflows(c)
  {
  }

  lemma {:induction false} RestingStays(c: Core, n: nat)
    requires Resting(c)
    ensures Resting(Clocks(c, n)) && Clocks(c, n).latch == c.latch && !Underflows(Clocks(c, n))
    decreases n
  {
    RestingClock(c);
    hide Clock, Underflows, Resting;
    if n > 0 {
      RestingStays(Clock(c), n - 1);
    }
  }

  /** Whatever else is in flight, an underflow with the one-shot bit set is the last one. */
  lemma OneShotRests(c: Core, n: nat)
    requires Underflows(c) && (c.f.oneshot || c.f.oneshot0)
    ensures var d := Clocks(Clock(c), n);
            !Underflows(d) && !d.f.start && d.timer == c.latch
  {
    RestingStays(Clock(c), n);
  }

  predicate OneShotRunning(c: Core) {
    && c.f.start && c.f.phi2in && c.f.oneshot && c.f.oneshot0 && NoReload(c.f)
    && c.f.count2 && c.f.count3 && !c.f.load && c.timer > 0
  }

  lemma {:induction false} OneShotCountDown(c: Core, k: nat)
    requires OneShotRunning(c) && k < c.timer
    ensures OneShotRunning(Clocks(c, k)) && Clocks(c, k).latch == c.latch
    ensures Underflows(Clocks(c, k)) <==> k == c.timer - 1
    decreases k
  {
    if k > 0 {
      OneShotCountDown(Clock(c), k - 1);
    }
  }

  /** A running one-shot timer underflows in exactly one clock, and then rests at its latch for good. */
  lemma RunningUnderflowsOnce(c: Core, k: nat)
    requires OneShotRunning(c)
    ensures Underflows(Clocks(c, k)) <==> k == c.timer - 1
    ensures k >= c.timer ==> Clocks(c, k).timer == c.latch && !Clocks(c, k).f.start
  {
    if k < c.timer {
      OneShotCountDown(c, k);
    } else {
      var last := c.timer - 1;
      OneShotCountDown(c, last);
      ClocksAdd(c, last, 1 + (k - c.timer));
      OneShotRests(Clocks(c, last), k - c.timer);
    }
  }

  /** The first clocks fill the pipeline: no underflow but that of a counter standing at 0. */
  lemma FirstClocks(d: Core, force: bool)
    requires Still(d.f.(start := false, fload := false)) && d.f.start && d.f.oneshot && d.f.phi2in && d.f.fload == force
    ensures !Underflows(d) && Clock(d).latch == d.latch && Clock(d).f.oneshot0
    ensures var e := Clock(d);
            && (Underflows(e) <==> d.timer == 0)
            && (d.timer > 0 && !force ==> OneShotRunning(Clock(e)) && Clock(e).timer == d.timer && Clock(e).latch == d.latch)
            && (d.timer > 0 && force ==> Clock(e).f.oneshot && Clock(e).latch == d.latch && (Underflows(Clock(e)) <==> d.latch == 0))
            && (d.timer > 0 && force && d.latch > 0 ==>
                  OneShotRunning(Clock(Clock(e))) && Clock(Clock(e)).timer == Clock(Clock(e)).latch == d.latch)
  {
  }

  /** From the control write that starts it, whatever counter and latch hold: a one-shot timer underflows in
      exactly one clock, and then it is stopped and rests at its latch for good. */
  lemma OneShotUnderflowsOnce(c: Core, value: bv8, rising: bool, force: bool, k: nat)
    requires Still(c.f) && Starts(value, true, force)
    ensures var d := Apply(c, Control(value, rising));
            && (Underflows(Clocks(d, k)) <==> k == UnderflowClock(c, force))
            && (k > UnderflowClock(c, force) ==> Clocks(d, k).timer == c.latch && !Clocks(d, k).f.start)
  {
    var d := Apply(c, Control(value, rising));
    StartedFlags(c, value, rising, true, force);
    FirstClocks(d, force);
    ClocksFew(d);
    var at := UnderflowClock(c, force);
    var filled := if force then 3 else 2;
    hide Underflows, Clock, Apply, OneShotRunning, Starts;
    if k >= filled && at >= filled {
      ClocksAdd(d, filled, k - filled);
      RunningUnderflowsOnce(Clocks(d, filled), k - filled);
    } else if k > at {
      ClocksAdd(d, at, 1 + (k - at - 1));
      OneShotRests(Clocks(d, at), k - at - 1);
    }
  }

  lemma ClockKeepsOneShot(c: Core)
    requires c.f.oneshot
    ensures Clock(c).f.oneshot
  {
    hide Signal, Reload, Advance, Underflows;
    StagesKeepOneShot(c);
    StagesKeepOneShot(Advance(c));
    StagesKeepOneShot(Signal(Advance(c)));
  }

  lemma StagesKeepOneShot(c: Core)
    requires c.f.oneshot
    ensures Advance(c).f.oneshot && Signal(c).f.oneshot && Reload(c).f.oneshot
  {
    hide Counted, Toggles;
  }

  lemma {:induction false} OneShotStaysSet(c: Core, n: nat)
    requires c.f.oneshot
    ensures Clocks(c, n).f.oneshot
    decreases n
  {
    ClockKeepsOneShot(c);
    hide Clock;
    if n > 0 {
      OneShotStaysSet(Clock(c), n - 1);
    }
  }

  /** From any state at all: an untouched timer with the one-shot bit set has at most one underflow left. */
  lemma OneShotAtMostOnce(c: Core, i: nat, j: nat)
    requires c.f.oneshot && Underflows(Clocks(c, i)) && Underflows(Clocks(c, j))
    ensures i == j
  {
    var first, second := if i < j then i else j, if i < j then j else i;
    if first < second {
      OneShotStaysSet(c, first);
      ClocksAdd(c, first, 1 + (second - first - 1));
      OneShotRests(Clocks(c, first), second - first - 1);
    }
  }

  // ----- The output -----

  /** The pulse output is up exactly in the clocks that underflow; with bits 1 and 2 of the control register set the
      toggle output changes sides there, and otherwise an underflow pulls it down. */
  lemma OutputShowsUnderflow(c: Core)
    ensures Clock(c).f.out == Underflows(c)
    ensures Clock(c).pb == if !Underflows(c) then c.pb else if c.cr & 0x02 != 0 && c.cr & 0x04 != 0 then !c.pb else false
    ensures Clock(c).cr == c.cr
  {
  }

  function UnderflowsIn(c: Core, n: nat): nat
    decreases n
  {
    if n == 0 then 0 else (if Underflows(c) then 1 else 0) + UnderflowsIn(Clock(c), n - 1)
  }

  /** Over a whole run in toggle mode the output has changed sides as often as the timer has underflowed. */
  lemma {:induction false} ToggleCountsUnderflows(c: Core, n: nat)
    requires c.cr & 0x02 != 0 && c.cr & 0x04 != 0
    ensures Clocks(c, n).pb == (c.pb != (UnderflowsIn(c, n) % 2 == 1))
    decreases n
  {
    OutputShowsUnderflow(c);
    hide Clock, Underflows;
    if n > 0 {
      ToggleCountsUnderflows(Clock(c), n - 1);
    }
  }

  // ----- Timer B counts the underflows of timer A -----

  datatype Pair = Pair(a: Core, b: Core)

  /** One cycle: both timers are clocked in PHI1, and in PHI2 an underflow of A steps a started B. */
  function PairCycle(p: Pair): Pair {
    var b := Clock(p.b);
    Pair(Clock(p.a), if Underflows(p.a) && p.b.f.start then Apply(b, Cascade) else b)
  }

  function PairCycles(p: Pair, n: nat): Pair
    decreases n
  {
    if n == 0 then p else PairCycles(PairCycle(p), n - 1)
  }

  lemma {:induction false} PairCyclesAdd(p: Pair, m: nat, n: nat)
    ensures PairCycles(p, m + n) == PairCycles(PairCycles(p, m), n)
    decreases m
  {
    hide PairCycle;
    if m > 0 {
      PairCyclesAdd(PairCycle(p), m - 1, n);
    }
  }

  /** B in cascade mode, apart from the step and count bits. */
  predicate Cascaded(f: Flags) {
    f.start && !f.phi2in && !f.count2 && !f.oneshot && !f.oneshot0 && !f.fload && !f.load1
  }

  /** What B has left to count once the step in flight is done. */
  function Left(b: Core): int { b.timer - (if b.f.count3 then 1 else 0) }

  /** Right after an underflow of A: B has been stepped and has v more to count. */
  predicate InPhase(p: Pair, v: int) {
    && JustReloaded(p.a)
    && Cascaded(p.b.f) && p.b.f.step
    && Left(p.b) == v && v >= 0
  }

  /** Between underflows of A, i cycles after the last one: B holds its count. */
  predicate BetweenSteps(p: Pair, a: u16, v: int) {
    && CountingDown(p.a) && p.a.timer == a
    && Cascaded(p.b.f) && !p.b.f.step
    && Left(p.b) == v && v >= 0
  }

  function Next(v: int, latch: u16): int { if v == 0 then latch else v - 1 }

  /** A quiet stretch of i cycles changes nothing B will show, and B does not underflow in it. */
  lemma {:induction false} BHolds(p: Pair, a: u16, v: int, i: nat)
    requires BetweenSteps(p, a, v) && i < a
    ensures BetweenSteps(PairCycles(p, i), a - i, v)
    ensures PairCycles(p, i).a.latch == p.a.latch && PairCycles(p, i).b.latch == p.b.latch
    ensures !Underflows(PairCycles(p, i).b)
    decreases i
  {
    if i > 0 {
      BHolds(PairCycle(p), a - 1, v, i - 1);
    }
  }

  lemma FirstCycle(p: Pair, v: int)
    requires InPhase(p, v)
    ensures Underflows(p.b) <==> v == 0
    ensures var q := PairCycle(p);
            && q.a.latch == p.a.latch && q.b.latch == p.b.latch
            && if p.a.latch == 0 then InPhase(q, Next(v, p.b.latch)) else BetweenSteps(q, p.a.latch, Next(v, p.b.latch))
  {
  }

  lemma LastCycle(p: Pair, v: int)
    requires BetweenSteps(p, 1, v)
    ensures InPhase(PairCycle(p), v)
    ensures PairCycle(p).a.latch == p.a.latch && PairCycle(p).b.latch == p.b.latch
  {
    CountDown(p.a, 0);
    UnderflowReloads(p.a);
    SteppedAgain(p.b);
    hide Clock, Underflows, JustReloaded, CountingDown;
  }

  /** A started timer B that is at rest between steps. */
  lemma SteppedAgain(b: Core)
    requires Cascaded(b.f) && !b.f.step && Left(b) >= 0
    ensures var t := Apply(Clock(b), Cascade);
            Cascaded(t.f) && t.f.step && Left(t) == Left(b) && t.latch == b.latch
  {
  }

  /** One period of A: B underflows iff it had nothing left, and only in the first cycle. */
  lemma {:induction false} OnePeriodOfA(p: Pair, v: int, i: nat)
    requires InPhase(p, v) && i <= p.a.latch
    ensures Underflows(PairCycles(p, i).b) <==> i == 0 && v == 0
    ensures var q := PairCycles(p, p.a.latch + 1);
            InPhase(q, Next(v, p.b.latch)) && q.a.latch == p.a.latch && q.b.latch == p.b.latch
  {
    FirstCycle(p, v);
    if p.a.latch > 0 {
      PeriodEnd(PairCycle(p), p.a.latch, Next(v, p.b.latch));
      if i > 0 {
        BHolds(PairCycle(p), p.a.latch, Next(v, p.b.latch), i - 1);
      }
    } else {
      assert PairCycles(PairCycle(p), 0) == PairCycle(p);
    }
  }

  lemma {:induction false} PeriodEnd(p: Pair, a: u16, v: int)
    requires BetweenSteps(p, a, v)
    ensures var q := PairCycles(p, a);
            InPhase(q, v) && q.a.latch == p.a.latch && q.b.latch == p.b.latch
  {
    BHolds(p, a, v, a - 1);
    PairCyclesAdd(p, a - 1, 1);
    var r := PairCycles(p, a - 1);
    LastCycle(r, v);
    assert PairCycles(r, 1) == PairCycles(PairCycle(r), 0) == PairCycle(r);
  }

  /** j periods of A in which B has enough left: B counts down by j and does not underflow. */
  lemma {:induction false} PeriodsOfA(p: Pair, v: int, n: nat, j: nat, i: nat)
    requires InPhase(p, v) && j <= v && n == p.a.latch + 1 && i <= Times(n, j)
    ensures i < Times(n, j) ==> !Underflows(PairCycles(p, i).b)
    ensures var q := PairCycles(p, Times(n, j));
            InPhase(q, v - j) && q.a.latch == p.a.latch && q.b.latch == p.b.latch
    decreases j
  {
    if j > 0 {
      OnePeriodOfA(p, v, if i < n then i else 0);
      PairCyclesAdd(p, n, Times(n, j - 1));
      var q := PairCycles(p, n);
      if i >= n {
        PairCyclesAdd(p, n, i - n);
        PeriodsOfA(q, v - 1, n, j - 1, i - n);
      } else {
        PeriodsOfA(q, v - 1, n, j - 1, 0);
      }
    }
  }

  /** B counting A underflows once in (latchA + 1) * (latchB + 1) cycles, and is then back where it was. */
  lemma CascadePeriod(p: Pair, period: nat, i: nat)
    requires InPhase(p, 0) && period == (p.a.latch + 1) * (p.b.latch + 1) && i <= period
    ensures Underflows(PairCycles(p, i).b) <==> i == 0 || i == period
    ensures InPhase(PairCycles(p, period), 0)
    ensures PairCycles(p, period).a.latch == p.a.latch && PairCycles(p, period).b.latch == p.b.latch
  {
    var n: nat, m: nat := p.a.latch + 1, p.b.latch;
    TimesIsProduct(n, m + 1);
    OnePeriodOfA(p, 0, if i < n then i else 0);
    PairCyclesAdd(p, n, Times(n, m));
    var q := PairCycles(p, n);
    if i >= n {
      PairCyclesAdd(p, n, i - n);
      PeriodsOfA(q, m, n, m, i - n);
    } else {
      PeriodsOfA(q, m, n, m, 0);
    }
    OnePeriodOfA(PairCycles(p, period), 0, 0);
  }

  lemma PeriodIsPositive(a: nat, b: nat)
    ensures (a + 1) * (b + 1) > 0
  {
    assert (a + 1) * (b + 1) == a * b + a + b + 1;
  }

  /** Over a whole run: B underflows exactly in every (latchA + 1) * (latchB + 1)-th cycle. */
  lemma {:induction false} CascadeUnderflows(p: Pair, period: nat, n: nat)
    requires InPhase(p, 0) && period == (p.a.latch + 1) * (p.b.latch + 1)
    ensures period > 0 && (Underflows(PairCycles(p, n).b) <==> n % period == 0)
    decreases n
  {
    PeriodIsPositive(p.a.latch, p.b.latch);
    CascadePeriod(p, period, if n < period then n else 0);
    hide InPhase, Underflows;
    if n >= period {
      PairCyclesAdd(p, period, n - period);
      CascadeUnderflows(PairCycles(p, period), period, n - period);
      ModSubtract(n, period);
    } else {
      DivModUnique(n, period, 0, n);
    }
  }
}
