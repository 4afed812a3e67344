/**
 The shared IRQ line and the BA line of the machine (src/c64/c64.h): CIA 1 and the VIC pull the same line,
 and the CPU sees it low as long as either does (src/c64/CIA/interrupt.cpp, src/c64/VIC_II/mos656x.cpp,
 src/c64/CPU/mos6510.cpp).
 */
module IrqLine {
  import opened VicCore

  function Count(on: bool): int { if on then 1 else 0 }

  /** The reference count, and what the CPU has been told. */
  datatype Shared = Shared(irqCount: int, pin: bool)

  /** interruptIRQ() with triggerIRQ() and clearIRQ(). */
  function Interrupt(l: Shared, state: bool): Shared {
    if state then Shared(l.irqCount + 1, l.pin || l.irqCount == 0)
    else Shared(l.irqCount - 1, l.pin && l.irqCount - 1 != 0)
  }

  /** Both sources with the line between them and the CPU. */
  datatype Sources = Sources(asserted: bool, irqFlags: bv8, irqMask: bv8, line: Shared)

  datatype Event =
    | CiaSetIrq(acknowledged: bool) // in the cycle after a read of the interrupt register nothing is asserted
    | CiaClearIrq
    | VicFlag(flag: bv8)            // raster, sprite collision or light pen
    | VicAcknowledge(data: bv8)     // write to $D019
    | VicEnable(data: bv8)          // write to $D01A

  function SetIrq(asserted: bool, acknowledged: bool, l: Shared): (bool, Shared) {
    if acknowledged || asserted then (asserted, l) else (true, Interrupt(l, true))
  }

  function ClearIrq(asserted: bool, l: Shared): (bool, Shared) {
    if asserted then (false, Interrupt(l, false)) else (asserted, l)
  }

  predicate Requests(flags: bv8) { flags & 0x80 != 0 }

  /** handleIrqState() signals exactly when bit 7 of the flags changes. */
  function VicUpdate(s: Sources, flags: bv8, mask: bv8): Sources {
    var after := IrqState(flags, mask);
    s.(irqFlags := after, irqMask := mask,
       line := if Requests(after) == Requests(flags) then s.line else Interrupt(s.line, Requests(after)))
  }

  function Next(s: Sources, e: Event): Sources {
    match e
    case CiaSetIrq(ack) => var (a, l) := SetIrq(s.asserted, ack, s.line); s.(asserted := a, line := l)
    case CiaClearIrq => var (a, l) := ClearIrq(s.asserted, s.line); s.(asserted := a, line := l)
    case VicFlag(flag) => VicUpdate(s, s.irqFlags | (flag & 0x0f), s.irqMask)
    case VicAcknowledge(data) => VicUpdate(s, Acknowledged(s.irqFlags, data), s.irqMask)
    case VicEnable(data) => VicUpdate(s, s.irqFlags, data & 0x0f)
  }

  const RESET := Sources(false, 0, 0, Shared(0, false))

  /** The count is the number of sources that pull the line, the CPU is told exactly when there is one, and the
      VIC pulls it exactly while an enabled flag is pending. */
  predicate Consistent(s: Sources) {
    && s.line.irqCount == Count(s.asserted) + Count(Requests(s.irqFlags))
    && s.line.pin == (s.line.irqCount > 0)
    && Requests(s.irqFlags) == (s.irqFlags & s.irqMask & 0x0f != 0)
  }

  lemma BitSeven(flags: bv8, mask: bv8)
    ensures Requests(IrqState(flags, mask)) == (IrqState(flags, mask) & mask & 0x0f != 0)
  {
  }

  lemma OtherBits(flags: bv8, flag: bv8, data: bv8)
    ensures Requests(flags | (flag & 0x0f)) == Requests(flags)
    ensures Requests(Acknowledged(flags, data)) == Requests(flags)
  {
  }

  lemma VicUpdateKeepsCount(s: Sources, flags: bv8, mask: bv8)
    requires Consistent(s) && Requests(flags) == Requests(s.irqFlags)
    ensures Consistent(VicUpdate(s, flags, mask))
  {
    BitSeven(flags, mask);
    hide IrqState, Requests;
  }

  lemma CiaKeepsCount(s: Sources, ack: bool)
    requires Consistent(s)
    ensures Consistent(Next(s, CiaSetIrq(ack))) && Consistent(Next(s, CiaClearIrq))
  {
    hide Requests, VicUpdate;
  }

  lemma NextKeepsCount(s: Sources, e: Event)
    requires Consistent(s)
    ensures Consistent(Next(s, e))
  {
    CiaKeepsCount(s, if e.CiaSetIrq? then e.acknowledged else false);
    OtherBits(s.irqFlags, if e.VicFlag? then e.flag else 0, if e.VicAcknowledge? then e.data else 0);
    hide Requests, VicUpdate, SetIrq, ClearIrq, IrqState, Acknowledged;
    if e.VicFlag? {
      VicUpdateKeepsCount(s, s.irqFlags | (e.flag & 0x0f), s.irqMask);
    } else if e.VicAcknowledge? {
      VicUpdateKeepsCount(s, Acknowledged(s.irqFlags, e.data), s.irqMask);
    } else if e.VicEnable? {
      VicUpdateKeepsCount(s, s.irqFlags, e.data & 0x0f);
    }
  }

  function Run(s: Sources, events: seq<Event>): Sources
    decreases |events|
  {
    if events == [] then s else Run(Next(s, events[0]), events[1..])
  }

  lemma {:induction false} RunKeepsCount(s: Sources, events: seq<Event>)
    requires Consistent(s)
    ensures Consistent(Run(s, events))
    decreases |events|
  {
    hide Consistent, Next;
    if events != [] {
      NextKeepsCount(s, events[0]);
      RunKeepsCount(Next(s, events[0]), events[1..]);
    }
  }

  /** After a reset, whatever the two chips do: the count is 0, 1 or 2, never negative, and the CPU pin is
      asserted exactly while CIA 1 or the VIC asserts. */
  lemma LineIsWiredOr(events: seq<Event>)
    ensures var s := Run(RESET, events);
            && 0 <= s.line.irqCount <= 2
            && s.line.irqCount == Count(s.asserted) + Count(Requests(s.irqFlags))
            && (s.line.pin <==> s.asserted || Requests(s.irqFlags))
            && (Requests(s.irqFlags) <==> s.irqFlags & s.irqMask & 0x0f != 0)
  {
    assert Consistent(RESET);
    RunKeepsCount(RESET, events);
    hide Requests, Run;
  }

  // ----- The machine -----

  class C64 {
    var irqCount: int
    /** The CPU's irqAssertedOnPin. */
    var irqAssertedOnPin: bool
    var oldBAState: bool
    /** The CPU's rdy, and how often it has been told. */
    var rdy: bool
    var rdyChanges: nat

    function Pin(): Shared
      reads this`irqCount, this`irqAssertedOnPin
    {
      Shared(irqCount, irqAssertedOnPin)
    }

    constructor ()
      ensures Pin() == RESET.line && oldBAState && rdy && rdyChanges == 0
    {
      irqCount, irqAssertedOnPin, oldBAState, rdy, rdyChanges := 0, false, true, true, 0;
    }

    method InterruptIRQ(state: bool)
      modifies this`irqCount, this`irqAssertedOnPin
      ensures Pin() == Interrupt(old(Pin()), state)
    {
      if state {
        if irqCount == 0 {
          irqAssertedOnPin := true;
        }
        irqCount := irqCount + 1;
      } else {
        irqCount := irqCount - 1;
        if irqCount == 0 {
          irqAssertedOnPin := false;
        }
      }
    }

    /** The CPU hears of the BA line only when it changes, and so always knows it. */
    method SetBA(state: bool)
      requires oldBAState == rdy
      modifies this`oldBAState, this`rdy, this`rdyChanges
      ensures oldBAState == rdy == state
      ensures rdyChanges == old(rdyChanges) + Count(old(rdy) != state)
    {
      if state == oldBAState {
        return;
      }
      oldBAState := state;
      rdy, rdyChanges := state, rdyChanges + 1;
    }
  }
}
