/**
 The timer object (src/c64/CIA/timer.h, src/c64/CIA/timer.cpp): m_state as a word of bits, the two
 events it owns and the shared scheduler, proved against the skipping timer on values.
 */
module TimerBits {
  import opened TimerCore

  // The bits of m_state.
  const START: bv32 := 0x01
  const STEP: bv32 := 0x04
  const CR_ONESHOT: bv32 := 0x08
  const FLOAD: bv32 := 0x10
  const PHI2IN: bv32 := 0x20
  const COUNT2: bv32 := 0x100
  const COUNT3: bv32 := 0x200
  const ONESHOT0: bv32 := 0x800
  const ONESHOT: bv32 := 0x8_0000
  const LOAD1: bv32 := 0x1000
  const LOAD: bv32 := 0x10_0000
  const OUT: bv32 := 0x8000_0000
  const CR_MASK: bv32 := START | CR_ONESHOT | FLOAD | PHI2IN
  const UNDERFLOW: bv32 := LOAD | OUT
  const EITHER_ONESHOT: bv32 := ONESHOT | ONESHOT0
  const COUNTING: bv32 := START | COUNT2

  predicate Any(m: bv32, bits: bv32) { m & bits != 0 }

  predicate All(m: bv32, bits: bv32) { m & bits == bits }

  function Set(m: bv32, bits: bv32): bv32 { m | bits }

  function Clear(m: bv32, bits: bv32): bv32 { m & !bits }

  function Decode(m: bv32): Flags {
    Flags(
      Any(m, START), Any(m, STEP), Any(m, CR_ONESHOT), Any(m, FLOAD), Any(m, PHI2IN),
      Any(m, COUNT2), Any(m, COUNT3),
      Any(m, ONESHOT0), Any(m, ONESHOT), Any(m, LOAD1), Any(m, LOAD), Any(m, OUT))
  }

  function ShiftBits(m: bv32): bv32 {
    (m & (START | CR_ONESHOT | PHI2IN))
    | (if All(m, START | PHI2IN) then COUNT2 else 0)
    | (if Any(m, COUNT2) || All(m, STEP | START) then COUNT3 else 0)
    | ((m & (FLOAD | CR_ONESHOT | LOAD1 | ONESHOT0)) << 8)
  }

  function ControlBits(m: bv32, value: bv8): bv32 {
    (m & !CR_MASK) | (((value as bv32) & CR_MASK) ^ PHI2IN)
  }

  lemma DecodeShift(m: bv32)
    ensures Decode(ShiftBits(m)) == Shift(Decode(m))
  {
  }

  lemma DecodeControl(m: bv32, value: bv8)
    ensures Decode(ControlBits(m, value)) ==
            Decode(m).(start := value & 0x01 != 0, oneshot := value & 0x08 != 0,
                       fload := value & 0x10 != 0, phi2in := value & 0x20 == 0)
  {
  }

  lemma DecodeUnderflow(m: bv32)
    ensures Decode(Set(m, UNDERFLOW)) == Decode(m).(load := true, out := true)
  {
  }

  lemma DecodeStop(m: bv32)
    ensures Decode(Clear(m, COUNTING)) == Decode(m).(start := false, count2 := false)
  {
  }

  lemma DecodeLoaded(m: bv32)
    ensures Decode(Clear(m, COUNT3)) == Decode(m).(count3 := false)
  {
  }

  lemma DecodeReload(m: bv32)
    ensures Decode(Set(m, LOAD1)) == Decode(m).(load1 := true)
  {
  }

  lemma DecodeReset()
    ensures Decode(0) == RESET_FLAGS
  {
  }

  /** Both one-shot stages are tested at once. */
  lemma AnyOneShot(m: bv32)
    ensures Any(m, EITHER_ONESHOT) == (Decode(m).oneshot0 || Decode(m).oneshot1)
  {
  }

  lemma DecodeStep(m: bv32)
    ensures Decode(Set(m, STEP)) == Decode(m).(step := true)
  {
  }
}

module TimerChip {
  import opened EventQueue
  import opened Scheduling
  import opened TimerBits
  import opened TimerCore
  import TimerSkipping

  class Timer {
    const scheduler: EventScheduler
    const tick: Event  // the timer itself as an event
    const skip: Event  // m_cycleSkippingEvent
    var m_state: bv32  // the word TimerBits decodes
    var timer: u16
    var latch: u16
    var pbToggle: bool
    var lastControlValue: bv8
    var ciaEventPauseTime: int
    ghost var underflows: seq<int>  // the cycles in which underFlow() was called

    ghost function Core(): Core
      reads this
    {
      TimerCore.Core(Decode(m_state), timer, latch, pbToggle, lastControlValue)
    }

    ghost function Queued(): TimerSkipping.Pending
      reads this, scheduler, tick, skip
    {
      if tick in scheduler.Chain() then TimerSkipping.Tick(tick.triggerTime / 2)
      else if skip in scheduler.Chain() then TimerSkipping.Skip(skip.triggerTime / 2)
      else TimerSkipping.Idle
    }

    ghost function State(): TimerSkipping.Skipper
      reads this, scheduler, tick, skip
    {
      TimerSkipping.Skipper(Core(), ciaEventPauseTime, Queued(), underflows)
    }

    /** Neither of the timer's own events is queued. */
    ghost predicate Quiet()
      reads this, scheduler, scheduler.Chain()
    {
      scheduler.Valid() && tick != skip && tick !in scheduler.Chain() && skip !in scheduler.Chain()
    }

    /** Between handlers ciaEventPauseTime says exactly which of the two events is queued. */
    ghost predicate Valid()
      reads this, scheduler, scheduler.Chain(), tick, skip
    {
      && scheduler.Valid() && tick != skip
      && (tick in scheduler.Chain() <==> ciaEventPauseTime == 0)
      && (skip in scheduler.Chain() <==> ciaEventPauseTime > 0)
      && ciaEventPauseTime >= -1
    }

    constructor (scheduler: EventScheduler)
      requires scheduler.Valid()
      ensures this.scheduler == scheduler && fresh(tick) && fresh(skip) && Quiet()
    {
      this.scheduler := scheduler;
      var e0 := new Event();
      var e1 := new Event();
      tick, skip := e0, e1;
      m_state, timer, latch, pbToggle, lastControlValue, ciaEventPauseTime := 0, 0, 0, false, 0, -1;
      underflows := [];
    }

    /** The whole machine is reset together, so the scheduler no longer holds the skip event. */
    method Reset()
      requires scheduler.Valid() && tick != skip && skip !in scheduler.Chain()
      modifies this, scheduler, scheduler.Chain()`next, tick
      ensures Valid()
      ensures State() == TimerSkipping.Skipper(RESET_CORE, 0, TimerSkipping.Tick(PhasedTime(scheduler.currentTime, 1, Phi1) / 2), [])
    {
      hide Decode;
      scheduler.Cancel(tick);
      ResetCore();
      ciaEventPauseTime := 0;
      underflows := [];
      scheduler.SchedulePhased(tick, 1, Phi1);
    }

    method ResetCore()
      modifies this`timer, this`latch, this`pbToggle, this`m_state, this`lastControlValue
      ensures Core() == RESET_CORE
    {
      DecodeReset();
      hide Decode;
      timer, latch, pbToggle, m_state, lastControlValue := 0xffff, 0xffff, false, 0, 0;
    }

    /** The first half of a transition: count, and move the flags along. */
    method Advance()
      modifies this`m_state, this`timer
      ensures Core() == TimerCore.Advance(old(Core()))
    {
      DecodeShift(m_state);
      hide ShiftBits, Shift, Any;
      if Any(m_state, COUNT3) {
        timer := Wrap16(timer - 1);
      }
      m_state := Adjusted(m_state);
    }

    /** The state word with every flag moved one stage along. */
    static method Adjusted(m: bv32) returns (adj: bv32)
      ensures adj == ShiftBits(m)
    {
      adj := m & (START | CR_ONESHOT | PHI2IN);
      if All(m, START | PHI2IN) {
        adj := adj | COUNT2;
      }
      if Any(m, COUNT2) || All(m, STEP | START) {
        adj := adj | COUNT3;
      }
      adj := adj | ((m & (FLOAD | CR_ONESHOT | LOAD1 | ONESHOT0)) << 8);
    }

    method Signal(ghost now: int)
      modifies this`m_state, this`pbToggle, this`underflows
      ensures Core() == TimerCore.Signal(old(Core()))
      ensures underflows == old(underflows) + [now]
    {
      hide Decode, Toggles, TimerCore.StopOneShot;
      RaiseOutput();
      StopOneShot();
      pbToggle := Toggles(lastControlValue) && !pbToggle;
      underflows := underflows + [now];
    }

    method RaiseOutput()
      modifies this`m_state
      ensures Decode(m_state) == old(Decode(m_state)).(load := true, out := true)
    {
      DecodeUnderflow(m_state);
      hide Decode, Set;
      m_state := Set(m_state, UNDERFLOW);
    }

    /** An underflow stops a one-shot timer. */
    method StopOneShot()
      modifies this`m_state
      ensures Decode(m_state) == TimerCore.StopOneShot(old(Decode(m_state)))
    {
      hide Decode, Any, Clear;
      AnyOneShot(m_state);
      DecodeStop(m_state);
      if Any(m_state, EITHER_ONESHOT) {
        m_state := Clear(m_state, COUNTING);
      }
    }

    method Reload()
      modifies this`m_state, this`timer
      ensures Core() == TimerCore.Reload(old(Core()))
    {
      DecodeLoaded(m_state);
      hide Any, Clear;
      if Any(m_state, LOAD) {
        timer := latch;
        m_state := Clear(m_state, COUNT3);
      }
    }

    /** One CIA state transition. */
    method Clock(ghost now: int) returns (underflow: bool)
      modifies this`m_state, this`timer, this`pbToggle, this`underflows
      ensures Core() == TimerCore.Clock(old(Core()))
      ensures underflow == Underflows(old(Core()))
      ensures underflows == old(underflows) + if underflow then [now] else []
    {
      Advance();
      hide Any, TimerCore.Advance, TimerCore.Signal, TimerCore.Reload;
      underflow := timer == 0 && Any(m_state, COUNT3);
      if underflow {
        Signal(now);
      }
      Reload();
    }

    /** Queues the event that is due next, if any. */
    method Reschedule()
      requires Quiet() && scheduler.currentTime % 2 == 0 && ciaEventPauseTime == 0
      modifies this`ciaEventPauseTime, scheduler, scheduler.Chain()`next, tick, skip
      ensures Valid()
      ensures State() == TimerSkipping.Reschedule(old(State()), GetTime(old(scheduler.currentTime), Phi1))
      ensures scheduler.currentTime == old(scheduler.currentTime)
    {
      hide Any;
      if Any(m_state, OUT) || Any(m_state, FLOAD) || Any(m_state, LOAD1) || Any(m_state, LOAD) {
        scheduler.Schedule(tick, 1);
        return;
      }
      if Any(m_state, COUNT3) {
        if timer > 2 && Any(m_state, START) && Any(m_state, PHI2IN) && Any(m_state, COUNT2) {
          ciaEventPauseTime := GetTime(scheduler.currentTime, Phi1) + 1;
          scheduler.Schedule(skip, timer - 1);
          return;
        }
        scheduler.Schedule(tick, 1);
      } else {
        if Any(m_state, START) && (Any(m_state, PHI2IN) || Any(m_state, STEP)) {
          scheduler.Schedule(tick, 1);
          return;
        }
        ciaEventPauseTime := -1;
      }
    }

    /** The one-cycle event, just taken from the queue. */
    method TickEvent()
      requires Quiet() && scheduler.currentTime % 2 == 0 && ciaEventPauseTime == 0
      modifies this, scheduler, scheduler.Chain()`next, tick, skip
      ensures Valid()
      ensures State() == TimerSkipping.TickEvent(old(State()), GetTime(old(scheduler.currentTime), Phi1))
      ensures scheduler.currentTime == old(scheduler.currentTime)
    {
      var _ := Clock(GetTime(scheduler.currentTime, Phi1));
      Reschedule();
    }

    /** The end of a skipped stretch, just taken from the queue. */
    method CycleSkippingEvent()
      requires Quiet() && scheduler.currentTime % 2 == 0
      modifies this, scheduler, scheduler.Chain()`next, tick, skip
      ensures Valid()
      ensures State() == TimerSkipping.SkipEvent(old(State()), GetTime(old(scheduler.currentTime), Phi1))
      ensures scheduler.currentTime == old(scheduler.currentTime)
    {
      hide Decode, TimerSkipping.TickEvent;
      var elapsed := GetTime(scheduler.currentTime, Phi1) - ciaEventPauseTime;
      ciaEventPauseTime := 0;
      timer := Wrap16(timer - elapsed);
      TickEvent();
    }

    /** Runs the clocks that were skipped, up to and including the one of this cycle. */
    method CatchUp(now: int)
      modifies this`m_state, this`timer, this`pbToggle, this`underflows
      ensures var elapsed := now - ciaEventPauseTime;
              var c := old(Core()).(timer := Wrap16(old(timer) - elapsed));
              if elapsed < 0 then Core() == old(Core()) && underflows == old(underflows)
              else Core() == TimerCore.Clock(c) && underflows == old(underflows) + if Underflows(c) then [now] else []
    {
      var elapsed := now - ciaEventPauseTime;
      if elapsed >= 0 {
        timer := Wrap16(timer - elapsed);
        var _ := Clock(now);
      }
    }

    method SyncWithCpu()
      requires Valid()
      modifies this, scheduler, scheduler.Chain()`next
      ensures Valid() && Quiet() && scheduler.Chain() <= old(scheduler.Chain())
      ensures State() == TimerSkipping.SyncWithCpu(old(State()), GetTime(old(scheduler.currentTime), Phi2))
      ensures scheduler.currentTime == old(scheduler.currentTime)
    {
      hide Decode, TimerCore.Clock;
      if ciaEventPauseTime > 0 {
        scheduler.Cancel(skip);
        CatchUp(GetTime(scheduler.currentTime, Phi2));
      }
      if ciaEventPauseTime == 0 {
        scheduler.Cancel(tick);
      }
      ciaEventPauseTime := -1;
    }

    /** Called in PHI2: the next tick is in the PHI1 that follows. */
    method WakeUpAfterSyncWithCpu()
      requires Quiet() && scheduler.currentTime % 2 == 1
      modifies this`ciaEventPauseTime, scheduler, scheduler.Chain()`next, tick
      ensures Valid()
      ensures State() == TimerSkipping.WakeUp(old(State()), GetTime(old(scheduler.currentTime), Phi2))
      ensures scheduler.currentTime == old(scheduler.currentTime)
    {
      ciaEventPauseTime := 0;
      scheduler.SchedulePhased(tick, 0, Phi1);
    }

    method SetControlRegister(cr: bv8)
      modifies this`m_state, this`lastControlValue
      ensures Core() == SetControl(old(Core()), cr)
    {
      DecodeControl(m_state, cr);
      hide Decode, ControlBits;
      m_state := ControlBits(m_state, cr);
      lastControlValue := cr;
    }

    method SetLatchLo(data: u8)
      modifies this`latch, this`timer
      ensures Core() == Apply(old(Core()), LatchLo(data))
      ensures latch % 0x100 == data && latch / 0x100 == old(latch) / 0x100
    {
      LatchHalves(Core(), data);
      hide Any;
      latch := WithLo(latch, data);
      if Any(m_state, LOAD) {
        timer := latch;
      }
    }

    method SetLatchHi(data: u8)
      modifies this`latch, this`timer, this`m_state
      ensures Core() == Apply(old(Core()), LatchHi(data))
      ensures latch / 0x100 == data && latch % 0x100 == old(latch) % 0x100
    {
      LatchHalves(Core(), data);
      DecodeReload(m_state);
      hide Any, Set, WithHi;
      latch := WithHi(latch, data);
      if Any(m_state, LOAD) {
        timer := latch;
      } else if !Any(m_state, START) {
        m_state := Set(m_state, LOAD1);
      }
    }

    /** An underflow of timer A, between catch-up and resumption. */
    method Cascade()
      modifies this`m_state
      ensures Core() == Apply(old(Core()), TimerCore.Cascade)
    {
      DecodeStep(m_state);
      hide Decode, Set;
      m_state := Set(m_state, STEP);
    }

    /** What MOS652X::read, MOS652X::write and TimerB::cascade do to one timer: catch up, act, resume. */
    method Access(a: TimerCore.Access)
      requires Valid() && scheduler.currentTime % 2 == 1
      modifies this, scheduler, scheduler.Chain()`next, tick
      ensures Valid()
      ensures State() == TimerSkipping.SkipperAccess(old(State()), GetTime(old(scheduler.currentTime), Phi2), a)
      ensures scheduler.currentTime == old(scheduler.currentTime)
    {
      hide Decode;
      SyncWithCpu();
      match a {
        case Read =>
        case Control(value, rising) =>
          if rising {
            pbToggle := true;
          }
          SetControlRegister(value);
        case LatchLo(data) => SetLatchLo(data);
        case LatchHi(data) => SetLatchHi(data);
        case Cascade =>
          Cascade();
      }
      WakeUpAfterSyncWithCpu();
    }
  }
}
