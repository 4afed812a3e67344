/**
 Runs of the 6510 among the other chips: CPU cycles, cycles the VIC wants to steal, and the interrupt lines
 moving at any time (src/c64/CPU/mos6510.cpp).
 */
module CpuRuns {
  import opened CpuTable
  import opened CpuCore
  import opened CpuSequencer

  datatype Event =
    | Cycle              // eventWithoutSteals
    | Stolen             // eventWithSteals
    | TriggerIRQ
    | ClearIRQ
    | RemoveIRQ          // two cycles after ClearIRQ
    | TriggerNMI
    | Memory(mem: Memory) // somebody else writes

  function LineEvent(c: Ctl, e: Event): Ctl {
    match e
    case TriggerIRQ => CalculateInterruptTriggerCycle(c.(irq := true))
    case ClearIRQ => c.(irq := false)
    case RemoveIRQ => if !c.rst && !c.nmi then c.(interruptCycle := MAX) else c
    case TriggerNMI => CalculateInterruptTriggerCycle(c.(nmi := true))
    case _ => c
  }

  /** Does the event run a micro-operation? */
  predicate Executes(c: Ctl, e: Event)
    requires InTable(c)
  {
    e.Cycle? || (e.Stolen? && SlotAt(c).nosteal)
  }

  function React(s: Cpu, e: Event): Cpu
    requires Running(s.c)
  {
    match e
    case Cycle => Step(s)
    case Stolen => if SlotAt(s.c).nosteal then Step(s) else s.(c := Stall(s.c))
    case Memory(mem) => s.(mem := mem)
    case _ => s.(c := LineEvent(s.c, e))
  }

  /** Up to a halt opcode, which ends the emulation. */
  predicate IsRun(s: Cpu, events: seq<Event>)
    decreases |events|
  {
    events == [] || (Running(s.c) && IsRun(React(s, events[0]), events[1..]))
  }

  function Run(s: Cpu, events: seq<Event>): Cpu
    requires IsRun(s, events)
    decreases |events|
  {
    if events == [] then s else Run(React(s, events[0]), events[1..])
  }

  /** Outside the executed cycles the sequencer does not move. */
  lemma QuietEvent(s: Cpu, e: Event)
    requires Running(s.c) && !Executes(s.c, e)
    ensures React(s, e).c.cycleCount == s.c.cycleCount && React(s, e).r == s.r
    ensures !e.Memory? ==> React(s, e).mem == s.mem
  {
    QuietCycle(s.c, e);
    hide Slots, Step, Exec, LineEvent, Stall;
  }

  lemma QuietCycle(c: Ctl, e: Event)
    ensures LineEvent(c, e).cycleCount == c.cycleCount && Stall(c).cycleCount == c.cycleCount
  {
  }

  lemma ReactStaysInTable(s: Cpu, e: Event)
    requires Running(s.c)
    ensures InTable(React(s, e).c)
  {
    hide Slots, CtlStep, Step, SignalsOf, Ends;
    if Executes(s.c, e) {
      StepCtl(s);
      StaysInTable(s.c, SignalsOf(SlotAt(s.c).op, s));
    } else {
      QuietEvent(s, e);
    }
  }

  /** Over every run and every memory content the sub-cycle index names a filled slot. */
  lemma {:induction false} RunStaysInTable(s: Cpu, events: seq<Event>)
    requires InTable(s.c) && IsRun(s, events)
    ensures InTable(Run(s, events).c)
    decreases |events|
  {
    if events != [] {
      ReactStaysInTable(s, events[0]);
      RunStaysInTable(React(s, events[0]), events[1..]);
    }
  }

  // ----- Every instruction ends -----

  predicate EndsInstruction(s: Cpu)
    requires Running(s.c)
  {
    Ends(SlotAt(s.c).op, SignalsOf(SlotAt(s.c).op, s).taken)
  }

  function Steps(s: Cpu, n: nat): Cpu
    requires CanStep(s, n)
    decreases n
  {
    hide Exec, Slots;
    if n == 0 then s else Steps(Step(s), n - 1)
  }

  predicate CanStep(s: Cpu, n: nat)
    decreases n
  {
    n == 0 || (Running(s.c) && CanStep(Step(s), n - 1))
  }

  lemma StepAdvances(s: Cpu)
    requires Running(s.c) && !EndsInstruction(s)
    ensures InTable(Step(s).c) && Step(s).c.cycleCount / 8 == s.c.cycleCount / 8 && Step(s).c.cycleCount > s.c.cycleCount
  {
    hide Slots, CtlStep, Step, SignalsOf, Ends;
    StepCtl(s);
    StaysInTable(s.c, SignalsOf(SlotAt(s.c).op, s));
  }

  /** From any slot the instruction ends, or the CPU halts, before its eight slots are used up. */
  lemma {:induction false} InstructionEnds(s: Cpu) returns (n: nat)
    requires InTable(s.c)
    ensures s.c.cycleCount % 8 + n < 8
    ensures CanStep(s, n) && InTable(Steps(s, n).c)
    ensures Running(Steps(s, n).c) ==> EndsInstruction(Steps(s, n))
    ensures Steps(s, n).c.cycleCount / 8 == s.c.cycleCount / 8
    decreases 8 - s.c.cycleCount % 8
  {
    hide Step, Slots, SlotAt, EndsInstruction;
    n := 0;
    if Running(s.c) && !EndsInstruction(s) {
      StepAdvances(s);
      var m := InstructionEnds(Step(s));
      n := m + 1;
    }
  }

  // ----- RDY low -----

  /** How many cycles in a row, from here, are kept from the VIC. */
  function KeptAhead(c: Ctl): nat
    requires InTable(c)
  {
    KeptFrom(Slots(c.cycleCount / 8), c.cycleCount % 8)
  }

  function KeptFrom(t: seq<Slot>, k: nat): (n: nat)
    requires k <= |t|
    ensures n <= |t| - k
    decreases |t| - k
  {
    if k < |t| && t[k].nosteal then 1 + KeptFrom(t, k + 1) else 0
  }

  lemma AtMostThreeFrom(t: seq<Slot>, k: nat)
    requires AtMostThreeKept(t) && k <= |t|
    ensures KeptFrom(t, k) <= 3
  {
    if k + 3 < |t| && t[k].nosteal && t[k + 1].nosteal {
      if t[k + 2].nosteal {
        assert KeptFrom(t, k + 3) == 0;
        assert KeptFrom(t, k + 2) == 1;
      } else {
        assert KeptFrom(t, k + 2) == 0;
      }
      assert KeptFrom(t, k + 1) <= 2;
    }
  }

  lemma AtMostThreeAhead(c: Ctl)
    requires InTable(c)
    ensures KeptAhead(c) <= 3
  {
    RowShape(c.cycleCount / 8);
    hide Slots, KeptFrom;
    AtMostThreeFrom(Slots(c.cycleCount / 8), c.cycleCount % 8);
  }

  /** A kept cycle is a write, so it neither ends the instruction nor skips a slot. */
  lemma KeptStep(s: Cpu)
    requires Running(s.c) && SlotAt(s.c).nosteal
    ensures InTable(Step(s).c) && KeptAhead(Step(s).c) == KeptAhead(s.c) - 1
  {
    hide InstrOf, ModeOf, ReadsOperand, Addressing, Working, DataStep, BusOf;
    var op := SlotAt(s.c).op;
    var sig := SignalsOf(op, s);
    RowShape(s.c.cycleCount / 8);
    KeptMovesByOne(op, sig);
    StepCtl(s);
    CtlProgress(op, s.c.(cycleCount := s.c.cycleCount + 1), sig);
    StaysInTable(s.c, sig);
    hide Slots, Step, CtlStep, SignalsOf, Writes;
    SlotOnward(s.c, 1);
  }

  lemma KeptMovesByOne(op: Op, sig: Signals)
    requires Writes(op)
    ensures !Ends(op, sig.taken) && !SkipsSlot(op, sig)
  {
  }

  /** The events that can happen while RDY is held low: no free cycle, and nobody else on the bus. */
  predicate RdyLow(events: seq<Event>) { forall e | e in events :: !e.Cycle? && !e.Memory? }

  function Executed(s: Cpu, events: seq<Event>): nat
    requires IsRun(s, events)
    decreases |events|
  {
    if events == [] then 0
    else (if Executes(s.c, events[0]) then 1 else 0) + Executed(React(s, events[0]), events[1..])
  }

  /** With RDY held low the CPU performs at most three more cycles, and once it has reached a cycle that can
      be stolen it changes no memory and no register but the interrupt flag. */
  lemma {:induction false} RdyStopsTheCpu(s: Cpu, events: seq<Event>)
    requires InTable(s.c) && IsRun(s, events) && RdyLow(events)
    ensures Executed(s, events) <= KeptAhead(s.c) <= 3
    ensures KeptAhead(s.c) == 0 ==> Run(s, events).r == s.r && Run(s, events).mem == s.mem
    decreases |events|
  {
    AtMostThreeAhead(s.c);
    if events != [] {
      var e := events[0];
      assert e in events;
      if Executes(s.c, e) {
        KeptStep(s);
      } else {
        QuietEvent(s, e);
        ReactStaysInTable(s, e);
      }
      RdyStopsTheCpu(React(s, e), events[1..]);
    }
  }
}
