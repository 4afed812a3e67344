/**
 The interrupt data register of the 8521 (src/c64/CIA/interrupt.cpp, src/c64/CIA/interrupt.h): what a read
 returns, and when the bits it returned go away.
 */
module CiaFlags {
  const NEVER := -1

  /** `update` is the cycle in whose PHI1 updateIdr() runs next, if it is queued. */
  datatype Source = Source(idr: bv8, idrTemp: bv8, lastClear: int, update: int)

  function Or(a: bv8, b: bv8): bv8 { a | b }

  /** A source raises bits, in any phase; so does the request bit when an interrupt is signalled. */
  function Raise(s: Source, bits: bv8): Source {
    s.(idr := Or(s.idr, bits), idrTemp := Or(s.idrTemp, bits))
  }

  /** updateIdr(), in PHI1 of the cycle it is queued for. */
  function UpdateIdr(s: Source, now: int): Source {
    if now == s.lastClear + 1 then Source(s.idrTemp, 0, s.lastClear, now + 1)
    else Source(s.idrTemp, s.idrTemp, s.lastClear, NEVER)
  }

  /** A read of the register, in PHI2; it returns the register as it stands. */
  function Clear(s: Source, now: int): Source {
    if s.update == NEVER then Source(s.idr, 0, now, now + 2) else s.(lastClear := now)
  }

  /** One cycle: bits raised before updateIdr() in PHI1, bits raised after it but before the CPU, a read or none,
      and bits raised after the CPU. */
  datatype Cycle = Cycle(before: bv8, after: bv8, read: bool, late: bv8)

  function Phi1(s: Source, now: int, c: Cycle): Source {
    var t := Raise(s, c.before);
    Raise(if t.update == now then UpdateIdr(t, now) else t, c.after)
  }

  function CycleStep(s: Source, now: int, c: Cycle): Source {
    var t := Phi1(s, now, c);
    Raise(if c.read then Clear(t, now) else t, c.late)
  }

  function Reads(s: Source, now: int, cycles: seq<Cycle>): seq<bv8>
    decreases |cycles|
  {
    if cycles == [] then [] else
      (if cycles[0].read then [Phi1(s, now, cycles[0]).idr] else []) + Reads(CycleStep(s, now, cycles[0]), now + 1, cycles[1..])
  }

  // ----- The reference: a register that a read empties -----

  /** `pending` holds what has been raised since the last read. */
  function Collected(pending: bv8, cycles: seq<Cycle>): seq<bv8>
    decreases |cycles|
  {
    if cycles == [] then [] else
      var c := cycles[0];
      var p := Or(Or(pending, c.before), c.after);
      if c.read then [p] + Collected(Or(0, c.late), cycles[1..]) else Collected(Or(p, c.late), cycles[1..])
  }

  /** No read in the cycle after a read. */
  predicate Spaced(cycles: seq<Cycle>) {
    forall i | 0 <= i && i + 1 < |cycles| :: cycles[i].read ==> !cycles[i + 1].read
  }

  /** Between cycles: either the register holds what is pending, or it still holds what the last read returned
      and idrTemp what is pending. */
  predicate Holds(s: Source, now: int, pending: bv8) {
    if s.update == NEVER then s.idr == pending && s.lastClear < now - 1
    else s.idrTemp == pending && (s.update == now || s.update == now + 1) && s.lastClear == s.update - 2
  }

  /** The last read was in the previous cycle. */
  predicate JustRead(s: Source, now: int) { s.update == now + 1 }

  lemma CycleHolds(s: Source, now: int, pending: bv8, c: Cycle)
    requires Holds(s, now, pending) && now >= 0 && (JustRead(s, now) ==> !c.read)
    ensures c.read ==> Phi1(s, now, c).idr == Or(Or(pending, c.before), c.after)
    ensures Holds(CycleStep(s, now, c), now + 1, if c.read then Or(0, c.late) else Or(Or(Or(pending, c.before), c.after), c.late))
    ensures JustRead(CycleStep(s, now, c), now + 1) <==> c.read
  {
    hide Or;
  }

  /** On the 8521 with reads at least two cycles apart, every read returns exactly the bits raised since the read
      before it, in whichever order a source and updateIdr() share a PHI1: no bit is lost and none reported twice. */
  lemma {:induction false} ReadsCollect(s: Source, now: int, pending: bv8, cycles: seq<Cycle>)
    requires Holds(s, now, pending) && now >= 0 && Spaced(cycles)
    requires cycles != [] && JustRead(s, now) ==> !cycles[0].read
    ensures Reads(s, now, cycles) == Collected(pending, cycles)
    decreases |cycles|
  {
    hide Holds, Phi1, CycleStep, JustRead, Or;
    if cycles != [] {
      var c := cycles[0];
      CycleHolds(s, now, pending, c);
      var left := if c.read then Or(0, c.late) else Or(Or(Or(pending, c.before), c.after), c.late);
      ReadsCollect(CycleStep(s, now, c), now + 1, left, cycles[1..]);
    }
  }

  const RESET := Source(0, 0, -2, NEVER)

  // ----- Nothing is lost -----

  function Union(bits: seq<bv8>): bv8
    decreases |bits|
  {
    if bits == [] then 0 else Or(bits[0], Union(bits[1..]))
  }

  function Raised(cycles: seq<Cycle>): bv8
    decreases |cycles|
  {
    if cycles == [] then 0 else Or(Or(Or(cycles[0].before, cycles[0].after), cycles[0].late), Raised(cycles[1..]))
  }

  function Run(s: Source, now: int, cycles: seq<Cycle>): Source
    decreases |cycles|
  {
    if cycles == [] then s else Run(CycleStep(s, now, cycles[0]), now + 1, cycles[1..])
  }

  /** What the next read will report. */
  function Held(s: Source): bv8 { if s.update == NEVER then s.idr else s.idrTemp }

  lemma OrIsUnion(a: bv8, b: bv8, c: bv8)
    ensures Or(Or(a, b), c) == Or(a, Or(b, c)) && Or(a, b) == Or(b, a) && Or(0, a) == a && Or(a, 0) == a
  {
  }

  lemma Regroup(p: bv8, b: bv8, a: bv8, l: bv8, rest: bv8)
    ensures Or(Or(Or(Or(p, b), a), l), rest) == Or(p, Or(Or(Or(b, a), l), rest))
    ensures Or(Or(Or(p, b), a), Or(Or(0, l), rest)) == Or(p, Or(Or(Or(b, a), l), rest))
  {
  }

  lemma UnionOfMore(x: bv8, bits: seq<bv8>)
    ensures Union([x] + bits) == Or(x, Union(bits))
  {
    hide Or;
    assert ([x] + bits)[1..] == bits;
  }

  /** Every bit that is ever raised is returned by a read or still held, and nothing else is. */
  lemma {:induction false} NothingIsLost(s: Source, now: int, pending: bv8, cycles: seq<Cycle>)
    requires Holds(s, now, pending) && now >= 0 && Spaced(cycles)
    requires cycles != [] && JustRead(s, now) ==> !cycles[0].read
    ensures Or(Union(Reads(s, now, cycles)), Held(Run(s, now, cycles))) == Or(pending, Raised(cycles))
    decreases |cycles|
  {
    hide Phi1, CycleStep, JustRead, Or;
    if cycles == [] {
      OrIsUnion(0, pending, 0);
      OrIsUnion(pending, 0, 0);
    } else {
      var c, rest := cycles[0], cycles[1..];
      CycleHolds(s, now, pending, c);
      var t := CycleStep(s, now, c);
      var p := Or(Or(pending, c.before), c.after);
      NothingIsLost(t, now + 1, if c.read then Or(0, c.late) else Or(p, c.late), rest);
      Regroup(pending, c.before, c.after, c.late, Raised(rest));
      var later, held := Reads(t, now + 1, rest), Held(Run(t, now + 1, rest));
      if c.read {
        UnionOfMore(p, later);
        OrIsUnion(p, Union(later), held);
      } else {
        assert [] + later == later;
      }
    }
  }

  // ----- Reads in consecutive cycles -----

  /** A read in the cycle after a read returns what that one returned, together with what has been raised since;
      this is what a fresh register would return exactly if everything was raised again. */
  lemma SecondRead(s: Source, now: int, pending: bv8, c: Cycle, d: Cycle)
    requires Holds(s, now, pending) && now >= 0 && !JustRead(s, now) && c.read && d.read
    ensures var first := Phi1(s, now, c).idr;
            var since := Or(Or(c.late, d.before), d.after);
            var second := Phi1(CycleStep(s, now, c), now + 1, d).idr;
            second == Or(first, since) && (second == since <==> Or(first, since) == since)
  {
    hide Or;
    var first := Phi1(s, now, c).idr;
    assert Phi1(CycleStep(s, now, c), now + 1, d).idr == Or(Or(Or(first, c.late), d.before), d.after);
    OrIsUnion(Or(first, c.late), d.before, d.after);
    OrIsUnion(first, c.late, Or(d.before, d.after));
    OrIsUnion(c.late, d.before, d.after);
  }

  /** The cycles of a schedule of polls in which one bit is raised, in cycle `at`. */
  function OneRaise(polls: seq<bool>, at: int): seq<Cycle>
    decreases |polls|
  {
    if polls == [] then [] else [Cycle(0, if at == 0 then 1 else 0, polls[0], 0)] + OneRaise(polls[1..], at - 1)
  }

  predicate IsSpaced(polls: seq<bool>) { forall i | 0 <= i && i + 1 < |polls| :: polls[i] ==> !polls[i + 1] }

  predicate HasReads(cycles: seq<Cycle>, polls: seq<bool>) {
    |cycles| == |polls| && forall i | 0 <= i < |polls| :: cycles[i].read == polls[i]
  }

  lemma {:induction false} OneRaiseReads(polls: seq<bool>, at: int)
    ensures HasReads(OneRaise(polls, at), polls)
    decreases |polls|
  {
    if polls != [] {
      OneRaiseReads(polls[1..], at - 1);
    }
  }

  /** A bit raised just before the first of two consecutive polls is reported by both. */
  lemma {:induction false} RaiseIsRepeated(s: Source, now: int, polls: seq<bool>, at: nat)
    requires Holds(s, now, 0) && now >= 0 && at + 1 < |polls| && polls[at] && polls[at + 1]
    requires forall j | 0 <= j < at :: !(polls[j] && polls[j + 1])
    requires JustRead(s, now) ==> !polls[0]
    ensures Reads(s, now, OneRaise(polls, at)) != Collected(0, OneRaise(polls, at))
    decreases |polls|
  {
    var cycles := OneRaise(polls, at);
    var c := cycles[0];
    assert cycles[1..] == OneRaise(polls[1..], at - 1);
    CycleHolds(s, now, 0, c);
    assert Or(0, 0) == 0 && Or(0, 1) == 1 && Or(1, 0) == 1;
    if at == 0 {
      var t := CycleStep(s, now, c);
      var d := cycles[1];
      assert d == OneRaise(polls[1..], -1)[0] == Cycle(0, 0, true, 0);
      SecondRead(s, now, 0, c, d);
      assert Reads(s, now, cycles)[1] == Reads(t, now + 1, cycles[1..])[0] == 1;
      assert Collected(0, cycles)[1] == Collected(0, cycles[1..])[0] == 0;
    } else {
      hide Holds, Phi1, CycleStep, JustRead, Or;
      RaiseIsRepeated(CycleStep(s, now, c), now + 1, polls[1..], at - 1);
      var x, y := Reads(CycleStep(s, now, c), now + 1, cycles[1..]), Collected(0, cycles[1..]);
      if c.read {
        assert ([0 as bv8] + x)[1..] == x && ([0 as bv8] + y)[1..] == y;
      } else {
        assert [] + x == x;
      }
    }
  }

  /** Reading in consecutive cycles is exactly what a program must avoid. */
  lemma SpacingIsExact(polls: seq<bool>)
    ensures (forall cycles | HasReads(cycles, polls) :: Reads(RESET, 0, cycles) == Collected(0, cycles)) <==> IsSpaced(polls)
  {
    hide Reads, Collected, Or;
    if IsSpaced(polls) {
      forall cycles | HasReads(cycles, polls) ensures Reads(RESET, 0, cycles) == Collected(0, cycles) {
        ReadsCollect(RESET, 0, 0, cycles);
      }
    } else {
      var at := FirstPair(polls);
      OneRaiseReads(polls, at);
      RaiseIsRepeated(RESET, 0, polls, at);
    }
  }

  lemma {:induction false} FirstPair(polls: seq<bool>) returns (at: nat)
    requires !IsSpaced(polls)
    ensures at + 1 < |polls| && polls[at] && polls[at + 1] && forall j | 0 <= j < at :: !(polls[j] && polls[j + 1])
    decreases |polls|
  {
    at := 0;
    if !(polls[0] && polls[1]) {
      at := FirstPair(polls[1..]);
      at := at + 1;
    }
  }
}

/** The interrupt source of the 8521 on the event scheduler (src/c64/CIA/interrupt.cpp, src/c64/CIA/mos652x.h). */
module CiaInterrupt {
  import opened EventQueue
  import opened Scheduling
  import CiaFlags
  import IrqLine

  const INTERRUPT_NONE: bv8 := 0
  const INTERRUPT_REQUEST: bv8 := 0x80

  /** Is the source, or with no source anything that is pending, enabled? */
  predicate InterruptMasked(interruptMask: bv8, idr: bv8, icr: bv8) {
    (if interruptMask != INTERRUPT_NONE then interruptMask else idr) & icr != 0
  }

  /** The mask after a write: bit 7 says whether the bits named are set or cleared. */
  function MaskWritten(icr: bv8, data: bv8): bv8 {
    if data & INTERRUPT_REQUEST != 0 then icr | (data & !INTERRUPT_REQUEST) else icr & !data
  }

  class InterruptSource8521 {
    const parent: IrqLine.C64
    const eventScheduler: EventScheduler
    const interruptEvent: Event
    const updateIdrEvent: Event
    const setIrqEvent: Event
    const clearIrqEvent: Event
    var lastClear: int
    var lastSet: int
    var icr: bv8
    var idr: bv8
    var idrTemp: bv8
    var scheduled: bool
    var asserted: bool

    ghost function Source(): CiaFlags.Source
      reads this, eventScheduler, updateIdrEvent
    {
      CiaFlags.Source(idr, idrTemp, lastClear,
                      if updateIdrEvent in eventScheduler.Chain() then updateIdrEvent.triggerTime / 2 else CiaFlags.NEVER)
    }

    ghost predicate Events()
      reads this
    {
      && interruptEvent != updateIdrEvent && interruptEvent != setIrqEvent && interruptEvent != clearIrqEvent
      && updateIdrEvent != setIrqEvent && updateIdrEvent != clearIrqEvent && setIrqEvent != clearIrqEvent
    }

    /** `scheduled` says whether the interrupt event is queued. */
    ghost predicate Valid()
      reads this, eventScheduler, eventScheduler.Chain()
    {
      eventScheduler.Valid() && Events() && (scheduled <==> interruptEvent in eventScheduler.Chain())
    }

    constructor (parent: IrqLine.C64, scheduler: EventScheduler)
      requires scheduler.Valid()
      ensures Valid() && this.parent == parent && eventScheduler == scheduler && Source() == CiaFlags.RESET && !asserted
    {
      this.parent, eventScheduler := parent, scheduler;
      var e0 := new Event();
      var e1 := new Event();
      var e2 := new Event();
      var e3 := new Event();
      interruptEvent, updateIdrEvent, setIrqEvent, clearIrqEvent := e0, e1, e2, e3;
      lastClear, lastSet, icr, idr, idrTemp, scheduled, asserted := CiaFlags.RESET.lastClear, -2, 0, 0, 0, false, false;
    }

    function Ack0(): bool
      reads this`lastClear, eventScheduler`currentTime
    {
      GetTime(eventScheduler.currentTime, Phi2) == lastClear + 1
    }

    function Write0(): bool
      reads this`lastSet, eventScheduler`currentTime
    {
      GetTime(eventScheduler.currentTime, Phi2) == lastSet + 1
    }

    /** The handler of updateIdrEvent, which has just been taken from the queue. */
    method UpdateIdr()
      requires Valid() && eventScheduler.currentTime % 2 == 0 && updateIdrEvent !in eventScheduler.Chain()
      modifies this`idr, this`idrTemp, eventScheduler, eventScheduler.Chain()`next, updateIdrEvent
      ensures Valid() && eventScheduler.currentTime == old(eventScheduler.currentTime)
      ensures Source() == CiaFlags.UpdateIdr(old(Source()), GetTime(old(eventScheduler.currentTime), Phi2))
    {
      idr := idrTemp;
      if Ack0() {
        eventScheduler.SchedulePhased(updateIdrEvent, 1, Phi1);
        idrTemp := 0;
      }
    }

    method SetIrq()
      modifies this`asserted, parent
      ensures (asserted, parent.Pin()) == IrqLine.SetIrq(old(asserted), old(Ack0()), old(parent.Pin()))
    {
      if !Ack0() {
        if !asserted {
          parent.InterruptIRQ(true);
          asserted := true;
        }
      }
    }

    method ClearIrq()
      modifies this`asserted, parent
      ensures (asserted, parent.Pin()) == IrqLine.ClearIrq(old(asserted), old(parent.Pin()))
    {
      if asserted {
        parent.InterruptIRQ(false);
        asserted := false;
      }
    }

    /** A read of the register in PHI2; there is at most one in a cycle. */
    method Clear() returns (value: bv8)
      requires Valid() && eventScheduler.currentTime % 2 == 1 && clearIrqEvent !in eventScheduler.Chain()
      modifies this`lastClear, this`idrTemp, eventScheduler, eventScheduler.Chain()`next, clearIrqEvent, updateIdrEvent
      ensures Valid() && eventScheduler.currentTime == old(eventScheduler.currentTime)
      ensures value == old(idr) && clearIrqEvent in eventScheduler.Chain()
      ensures Source() == CiaFlags.Clear(old(Source()), GetTime(old(eventScheduler.currentTime), Phi2))
    {
      lastClear := GetTime(eventScheduler.currentTime, Phi2);
      eventScheduler.SchedulePhased(clearIrqEvent, 0, Phi1);
      QueueUpdate();
      value := idr;
    }

    method QueueUpdate()
      requires Valid() && eventScheduler.currentTime % 2 == 1
      modifies this`idrTemp, eventScheduler, eventScheduler.Chain()`next, updateIdrEvent
      ensures Valid() && eventScheduler.currentTime == old(eventScheduler.currentTime)
      ensures eventScheduler.Chain() == old(eventScheduler.Chain()) + {updateIdrEvent}
      ensures Source() == if old(Source()).update == CiaFlags.NEVER
                          then old(Source()).(idrTemp := 0, update := GetTime(old(eventScheduler.currentTime), Phi2) + 2)
                          else old(Source())
    {
      var pending := eventScheduler.IsPending(updateIdrEvent);
      if !pending {
        eventScheduler.SchedulePhased(updateIdrEvent, 1, Phi1);
        idrTemp := 0;
      }
    }

    /** Raises the bits; the result says whether an interrupt is to be signalled. */
    method IsTriggered(interruptMask: bv8) returns (triggered: bool)
      requires Valid()
      modifies this`idr, this`idrTemp, this`scheduled, eventScheduler, eventScheduler.Chain()`next
      ensures Valid() && Source() == CiaFlags.Raise(old(Source()), interruptMask)
      ensures triggered <==> InterruptMasked(interruptMask, idr, icr)
      ensures scheduled == (old(scheduled) && (triggered || interruptMask != INTERRUPT_NONE || !old(Write0())))
      ensures eventScheduler.currentTime == old(eventScheduler.currentTime)
      ensures eventScheduler.Chain() <= old(eventScheduler.Chain())
    {
      hide InterruptMasked;
      RaiseBits(interruptMask);
      if InterruptMasked(interruptMask, idr, icr) {
        return true;
      }
      if interruptMask == INTERRUPT_NONE && Write0() {
        CancelInterrupt();
      }
      triggered := false;
    }

    method RaiseBits(bits: bv8)
      modifies this`idr, this`idrTemp
      ensures Source() == CiaFlags.Raise(old(Source()), bits)
    {
      hide CiaFlags.Or;
      idr := CiaFlags.Or(idr, bits);
      idrTemp := CiaFlags.Or(idrTemp, bits);
    }

    method CancelInterrupt()
      requires Valid()
      modifies this`scheduled, eventScheduler, eventScheduler.Chain()`next
      ensures Valid() && !scheduled && Source() == old(Source())
      ensures eventScheduler.currentTime == old(eventScheduler.currentTime)
      ensures eventScheduler.Chain() <= old(eventScheduler.Chain())
    {
      if scheduled {
        eventScheduler.Cancel(interruptEvent);
        scheduled := false;
      }
    }

    method Trigger(interruptMask: bv8)
      requires Valid()
      modifies this`idr, this`idrTemp, this`scheduled, eventScheduler, eventScheduler.Chain()`next, interruptEvent
      ensures Valid() && Source() == CiaFlags.Raise(old(Source()), interruptMask)
      ensures scheduled == if InterruptMasked(interruptMask, idr, icr) then true
                           else old(scheduled) && (interruptMask != INTERRUPT_NONE || !old(Write0()))
      ensures scheduled ==> interruptEvent.triggerTime ==
                            if old(scheduled) then old(interruptEvent.triggerTime) else PhasedTime(eventScheduler.currentTime, 0, Phi1)
      ensures eventScheduler.currentTime == old(eventScheduler.currentTime)
    {
      hide InterruptMasked, CiaFlags.Raise;
      var triggered := IsTriggered(interruptMask);
      if triggered {
        if !scheduled {
          eventScheduler.SchedulePhased(interruptEvent, 0, Phi1);
          scheduled := true;
        }
      }
    }

    method WriteMask(interruptMask: bv8)
      modifies this`icr
      ensures icr == MaskWritten(old(icr), interruptMask)
    {
      if interruptMask & INTERRUPT_REQUEST != 0 {
        icr := icr | (interruptMask & !INTERRUPT_REQUEST);
      } else {
        icr := icr & !interruptMask;
      }
    }

    /** A write to the interrupt mask, in PHI2: it sets the named bits or clears them. */
    method Set(interruptMask: bv8)
      requires Valid()
      modifies this`icr, this`lastSet, this`idr, this`idrTemp, this`scheduled,
               eventScheduler, eventScheduler.Chain()`next, interruptEvent
      ensures Valid() && lastSet == GetTime(eventScheduler.currentTime, Phi2)
      ensures icr == MaskWritten(old(icr), interruptMask)
      ensures Source() == CiaFlags.Raise(old(Source()), INTERRUPT_NONE)
      ensures scheduled == if old(Ack0()) then old(scheduled) else if InterruptMasked(INTERRUPT_NONE, idr, icr) then true
                           else old(scheduled) && !old(Write0())
      ensures scheduled ==> interruptEvent.triggerTime ==
                            if old(scheduled) then old(interruptEvent.triggerTime) else PhasedTime(eventScheduler.currentTime, 0, Phi1)
      ensures eventScheduler.currentTime == old(eventScheduler.currentTime)
    {
      hide MaskWritten, InterruptMasked;
      WriteMask(interruptMask);
      NothingRaised(idr, idrTemp);
      if !Ack0() {
        Trigger(INTERRUPT_NONE);
      }
      lastSet := GetTime(eventScheduler.currentTime, Phi2);
    }

    /** The handler of interruptEvent, which has just been taken from the queue. */
    method Interrupt()
      requires eventScheduler.Valid() && Events() && scheduled && interruptEvent !in eventScheduler.Chain()
      requires setIrqEvent !in eventScheduler.Chain()
      modifies this`idr, this`idrTemp, this`scheduled, this`asserted, parent, eventScheduler,
               eventScheduler.Chain()`next, setIrqEvent
      ensures Valid()
      ensures var requested := old(idr) & INTERRUPT_REQUEST != 0;
              && Source() == (if requested then old(Source()) else CiaFlags.Raise(old(Source()), INTERRUPT_REQUEST))
              && (asserted, parent.Pin()) == (if requested then (old(asserted), old(parent.Pin()))
                                              else IrqLine.SetIrq(old(asserted), old(Ack0()), old(parent.Pin())))
              && (setIrqEvent in eventScheduler.Chain() <==> !requested && old(Ack0()))
    {
      if idr & INTERRUPT_REQUEST == 0 {
        TriggerInterrupt();
        SetIrq();
      }
      scheduled := false;
    }

    method TriggerInterrupt()
      requires eventScheduler.Valid() && Events() && setIrqEvent !in eventScheduler.Chain()
      modifies this`idr, this`idrTemp, eventScheduler, eventScheduler.Chain()`next, setIrqEvent
      ensures eventScheduler.Valid() && eventScheduler.currentTime == old(eventScheduler.currentTime)
      ensures Source() == CiaFlags.Raise(old(Source()), INTERRUPT_REQUEST)
      ensures eventScheduler.Chain() == old(eventScheduler.Chain()) + if old(Ack0()) then {setIrqEvent} else {}
    {
      RaiseBits(INTERRUPT_REQUEST);
      if Ack0() {
        eventScheduler.SchedulePhased(setIrqEvent, 1, Phi1);
      }
    }
  }

  lemma NothingRaised(idr: bv8, idrTemp: bv8)
    ensures CiaFlags.Or(idr, INTERRUPT_NONE) == idr && CiaFlags.Or(idrTemp, INTERRUPT_NONE) == idrTemp
  {
  }

  // ----- Which sources interrupt -----

  function BitMask(k: nat): bv8
    requires k < 7
  {
    match k
    case 0 => 0x01
    case 1 => 0x02
    case 2 => 0x04
    case 3 => 0x08
    case 4 => 0x10
    case 5 => 0x20
    case 6 => 0x40
  }

  predicate HasBit(x: bv8, k: nat)
    requires k < 7
  {
    x & BitMask(k) != 0
  }

  /** The mask that a sequence of writes leaves after a reset. */
  function Mask(writes: seq<bv8>): bv8 {
    if writes == [] then 0 else MaskWritten(Mask(writes[..|writes| - 1]), writes[|writes| - 1])
  }

  /** A bit is enabled if the last write that named it had bit 7 set. */
  predicate EnabledBy(writes: seq<bv8>, k: nat)
    requires k < 7
  {
    if writes == [] then false
    else
      var data := writes[|writes| - 1];
      if HasBit(data, k) then data & INTERRUPT_REQUEST != 0 else EnabledBy(writes[..|writes| - 1], k)
  }

  lemma WriteBit(icr: bv8, data: bv8, k: nat)
    requires k < 7
    ensures HasBit(MaskWritten(icr, data), k) == if HasBit(data, k) then data & INTERRUPT_REQUEST != 0 else HasBit(icr, k)
    ensures icr & INTERRUPT_REQUEST == 0 ==> MaskWritten(icr, data) & INTERRUPT_REQUEST == 0
  {
  }

  lemma {:induction false} MaskBits(writes: seq<bv8>, k: nat)
    requires k < 7
    ensures HasBit(Mask(writes), k) <==> EnabledBy(writes, k)
    ensures Mask(writes) & INTERRUPT_REQUEST == 0
    decreases |writes|
  {
    hide HasBit, MaskWritten;
    if writes != [] {
      var before := writes[..|writes| - 1];
      MaskBits(before, k);
      WriteBit(Mask(before), writes[|writes| - 1], k);
    } else {
      NothingSet(k);
    }
  }

  lemma NothingSet(k: nat)
    requires k < 7
    ensures !HasBit(0, k)
  {
  }

  lemma SharedBit(x: bv8, y: bv8)
    requires y & INTERRUPT_REQUEST == 0
    ensures x & y != 0 <==> exists k: nat :: k < 7 && HasBit(x, k) && HasBit(y, k)
  {
    if x & y != 0 {
      var k := if x & y & 0x01 != 0 then 0 else if x & y & 0x02 != 0 then 1 else if x & y & 0x04 != 0 then 2
               else if x & y & 0x08 != 0 then 3 else if x & y & 0x10 != 0 then 4 else if x & y & 0x20 != 0 then 5 else 6;
      assert HasBit(x, k) && HasBit(y, k);
    }
  }

  /** An interrupt is due exactly if some pending source is enabled: the last write to the mask that named it set it. */
  lemma DueWhenEnabled(writes: seq<bv8>, idr: bv8)
    ensures InterruptMasked(INTERRUPT_NONE, idr, Mask(writes)) <==>
            exists k: nat :: k < 7 && HasBit(idr, k) && EnabledBy(writes, k)
  {
    hide HasBit, EnabledBy, Mask;
    MaskBits(writes, 0);
    SharedBit(idr, Mask(writes));
    forall k: nat | k < 7 ensures HasBit(Mask(writes), k) <==> EnabledBy(writes, k) {
      MaskBits(writes, k);
    }
  }

  /** A source that triggers signals an interrupt exactly if it is enabled, whatever else is pending. */
  lemma SignalsWhenEnabled(writes: seq<bv8>, k: nat, idr: bv8)
    requires k < 7
    ensures InterruptMasked(BitMask(k), idr, Mask(writes)) <==> EnabledBy(writes, k)
  {
    hide EnabledBy, Mask;
    MaskBits(writes, k);
    AndCommutes(BitMask(k), Mask(writes));
  }

  lemma AndCommutes(x: bv8, y: bv8)
    ensures x & y == y & x
  {
  }
}
