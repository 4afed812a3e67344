/**
 A triggered NMI is never lost (src/c64/CPU/mos6510.cpp): whatever happens on the IRQ and RDY lines, and
 through SEI, CLI and taken branches, it is served no later than the end of the instruction that follows
 the one in progress. Only a reset may swallow it.
 */
module CpuInterrupts {
  import opened CpuTable
  import opened CpuCore
  import opened CpuSequencer
  import opened CpuRuns

  /** An interrupt sequence, or a BRK, that has yet to choose its vector. */
  predicate EarlyBrk(c: Ctl) { 8 * BRKn <= c.cycleCount <= 8 * BRKn + 2 }

  /** A pending NMI has its trigger cycle noted, unless an interrupt sequence is about to pick it up. */
  predicate NmiNoted(c: Ctl) {
    && (c.interruptCycle == MAX || c.interruptCycle <= 0x1000)
    && (c.nmi ==> c.interruptCycle != MAX || EarlyBrk(c))
  }

  predicate NmiPending(c: Ctl) { c.nmi && !c.rst && NmiNoted(c) }

  /** 0: the vector is about to be chosen; 1: at the end of this instruction; 2: at the end of the next. */
  function Stage(c: Ctl): nat {
    if EarlyBrk(c) then 0 else if c.interruptCycle == -MAX && c.cycleCount >= 8 then 1 else 2
  }

  /** An upper bound on the cycles until the vector is chosen. */
  function CyclesLeft(c: Ctl): int {
    match Stage(c)
    case 0 => 3 - c.cycleCount
    case 1 => 11 - c.cycleCount % 8
    case _ => 19 - c.cycleCount % 8
  }

  // ----- Where the table chooses vectors and fetches without looking at interrupts -----

  predicate BrkOnly(op: Op) { op.BrkPushLowPC? || op.FetchNextOpcode? }

  lemma AddressingIsOrdinary(mode: Mode)
    ensures forall k | 0 <= k < |Addressing(mode)| :: !BrkOnly(Addressing(mode)[k].op)
  {
  }

  lemma WorkingIsOrdinary(instr: Instr)
    requires !instr.BrkI?
    ensures forall k | 0 <= k < |Working(instr)| :: !BrkOnly(Working(instr)[k].op)
  {
  }

  lemma BrkIsOpcodeZero(i: u8)
    requires InstrOf(i) == BrkI
    ensures i == BRKn
  {
  }

  lemma OrdinaryRow(i: u8)
    requires i != BRKn
    ensures forall k | 0 <= k < |Slots(i)| :: !BrkOnly(Slots(i)[k].op)
  {
    if InstrOf(i) == BrkI {
      BrkIsOpcodeZero(i);
    }
    AddressingIsOrdinary(ModeOf(i));
    WorkingIsOrdinary(InstrOf(i));
    hide ModeOf, InstrOf, ReadsOperand, Addressing, Working, IsIllegal;
  }

  lemma BrkSlots(c: Ctl)
    requires InTable(c)
    ensures SlotAt(c).op.BrkPushLowPC? <==> c.cycleCount == 2
    ensures SlotAt(c).op.FetchNextOpcode? <==> c.cycleCount == 6
    ensures c.cycleCount == 0 ==> SlotAt(c).op == FetchDataByte
    ensures c.cycleCount == 1 ==> SlotAt(c).op == PushHighPC
  {
    var i := c.cycleCount / 8;
    if i == BRKn {
      BrkRow();
    } else {
      OrdinaryRow(i);
      hide Slots;
      assert !BrkOnly(SlotAt(c).op);
    }
  }

  // ----- One micro-operation -----

  /** Does this micro-operation fetch an opcode rather than enter the interrupt sequence? */
  predicate Fetches(op: Op, c: Ctl, sig: Signals) {
    Ends(op, sig.taken) && !(SeeksOpcode(op, sig.taken) && Recognised(BeforeNext(op, c)))
  }

  /** The decision at the end of an instruction: with an NMI noted it is either taken now or remembered. */
  lemma DecisionKeepsNmi(c: Ctl, opcode: u8)
    requires c.nmi && !c.rst && c.interruptCycle != MAX
    ensures var t := NextOpcode(c, opcode);
            && NmiPending(t) && CyclesLeft(t) <= 11
            && (Recognised(c) ==> Stage(t) == 0)
            && (!Recognised(c) ==> Stage(t) <= 1)
  {
  }

  lemma FetchKeepsNmi(c: Ctl, opcode: u8)
    requires c.nmi && !c.rst && c.interruptCycle != MAX
    ensures var t := FetchNext(c, opcode);
            NmiPending(t) && CyclesLeft(t) <= 11 && Stage(t) <= 1
  {
  }

  /** The state in which the decision is made. */
  lemma SeekStep(op: Op, c: Ctl, sig: Signals) returns (d: Ctl)
    requires c.nmi && !c.rst && c.interruptCycle != MAX && SeeksOpcode(op, sig.taken)
    ensures CtlStep(op, c.(cycleCount := c.cycleCount + 1), sig) == NextOpcode(d, sig.opcode)
    ensures d.nmi && !d.rst && d.interruptCycle == c.interruptCycle
    ensures Recognised(d) <==> Recognised(BeforeNext(op, c))
  {
    d := c.(cycleCount := c.cycleCount + 1);
    hide NextOpcode, Recognised;
    if op == Alu(Sei) {
      SeiStep(d, sig);
      d := d.(i := true);
      RecognisedAnyway(d);
    } else if op == Alu(Cli) {
      d := d.(i := false);
    } else {
      SeekOtherwise(op, d, sig);
    }
  }

  lemma SeiStep(c: Ctl, sig: Signals)
    requires c.nmi
    ensures CtlStep(Alu(Sei), c, sig) == NextOpcode(c.(i := true), sig.opcode)
  {
    NextKeepsNmi(c.(i := true), sig.opcode);
    hide NextOpcode;
  }

  lemma RecognisedAnyway(c: Ctl)
    ensures Recognised(c) == Recognised(c.(i := false)) == Recognised(c.(i := true))
  {
  }

  lemma SeekOtherwise(op: Op, c: Ctl, sig: Signals)
    requires SeeksOpcode(op, sig.taken) && op != Alu(Cli) && op != Alu(Sei)
    ensures CtlStep(op, c, sig) == NextOpcode(c, sig.opcode)
  {
    hide NextOpcode;
  }

  lemma NextKeepsNmi(c: Ctl, opcode: u8)
    ensures NextOpcode(c, opcode).nmi == c.nmi && NextOpcode(c, opcode).rst == c.rst
  {
  }

  /** The end of an instruction. */
  lemma EndKeepsNmi(op: Op, c: Ctl, sig: Signals)
    requires c.nmi && !c.rst && c.interruptCycle != MAX && Ends(op, sig.taken)
    ensures var t := CtlStep(op, c.(cycleCount := c.cycleCount + 1), sig);
            && NmiPending(t) && CyclesLeft(t) <= 11
            && (if Fetches(op, c, sig) then Stage(t) <= 1 else Stage(t) == 0)
  {
    if op.FetchNextOpcode? {
      FetchKeepsNmi(c.(cycleCount := c.cycleCount + 1), sig.opcode);
    } else {
      var d := SeekStep(op, c, sig);
      DecisionKeepsNmi(d, sig.opcode);
      hide CtlStep, NextOpcode, BeforeNext, Recognised;
    }
  }

  /** Inside an instruction the trigger cycle stays noted; a taken branch may move it by two. */
  lemma MiddleKeepsNmi(op: Op, c: Ctl, sig: Signals)
    requires 0 <= c.cycleCount < 0x800 && NmiPending(c) && !Ends(op, sig.taken) && !BrkOnly(op)
    ensures var t := CtlStep(op, c.(cycleCount := c.cycleCount + 1), sig);
            && t.nmi && !t.rst && (t.interruptCycle == MAX || t.interruptCycle <= 0x1000)
            && (c.interruptCycle != MAX ==> t.interruptCycle != MAX)
            && (c.interruptCycle == -MAX ==> t.interruptCycle == -MAX)
  {
    hide NextOpcode, FetchNext;
  }

  /** What one micro-operation does for a pending NMI. */
  predicate Nearer(c: Ctl, t: Ctl, fetched: bool) {
    && NmiPending(t) && Stage(t) <= Stage(c) && CyclesLeft(t) < CyclesLeft(c)
    && (fetched ==> Stage(t) < Stage(c) == 2)
  }

  lemma EndIsNearer(c: Ctl, op: Op, sig: Signals, t: Ctl)
    requires Running(c) && op == SlotAt(c).op && NmiPending(c) && c.cycleCount > 2 && Ends(op, sig.taken)
    requires t == CtlStep(op, c.(cycleCount := c.cycleCount + 1), sig) && InTable(t)
    ensures Nearer(c, t, Fetches(op, c, sig))
  {
    hide Slots, CtlStep, Ends;
    BrkSlots(c);
    EndKeepsNmi(op, c, sig);
    if Stage(c) == 1 {
      StageOneIsTaken(op, c, sig);
    }
    StageBounds(c);
    StageBounds(t);
    hide Fetches, SlotAt;
  }

  lemma MiddleIsNearer(c: Ctl, op: Op, sig: Signals, t: Ctl)
    requires 0 <= c.cycleCount < 0x800 && c.cycleCount != 2 && NmiPending(c)
    requires !Ends(op, sig.taken) && !op.BrkPushLowPC?
    requires c.cycleCount <= 1 ==> op == FetchDataByte || op == PushHighPC
    requires t == CtlStep(op, c.(cycleCount := c.cycleCount + 1), sig)
    requires t.cycleCount / 8 == c.cycleCount / 8 && t.cycleCount > c.cycleCount
    ensures Nearer(c, t, false)
  {
    hide CtlStep;
    if c.cycleCount <= 1 {
      EarlyMoves(op, c, sig);
    } else {
      MiddleKeepsNmi(op, c, sig);
      StageInRow(c, t);
    }
  }

  /** Every micro-operation but the one that chooses the vector leaves the NMI pending and nearer. */
  lemma MicroOpKeepsNmi(c: Ctl, sig: Signals)
    requires Running(c) && NmiPending(c) && c.cycleCount != 2
    ensures var op := SlotAt(c).op;
            Nearer(c, CtlStep(op, c.(cycleCount := c.cycleCount + 1), sig), Fetches(op, c, sig))
  {
    var op := SlotAt(c).op;
    var t := CtlStep(op, c.(cycleCount := c.cycleCount + 1), sig);
    BrkSlots(c);
    StaysInTable(c, sig);
    hide Slots, CtlStep, Nearer;
    if Ends(op, sig.taken) {
      EndIsNearer(c, op, sig, t);
    } else {
      MiddleIsNearer(c, op, sig, t);
    }
  }

  lemma StageBounds(c: Ctl)
    requires InTable(c)
    ensures 1 <= CyclesLeft(c) <= 19
    ensures Stage(c) == 0 ==> CyclesLeft(c) <= 3
    ensures Stage(c) == 1 ==> 4 <= CyclesLeft(c) <= 11
    ensures Stage(c) == 2 ==> 12 <= CyclesLeft(c)
  {
    hide Slots;
  }

  /** Moving on in the row keeps the stage, or betters it, and shortens the wait. */
  lemma StageInRow(c: Ctl, t: Ctl)
    requires t.cycleCount > c.cycleCount > 2 && t.cycleCount / 8 == c.cycleCount / 8
    requires c.interruptCycle == -MAX ==> t.interruptCycle == -MAX
    ensures Stage(t) <= Stage(c) && CyclesLeft(t) < CyclesLeft(c)
  {
  }

  lemma StageOneIsTaken(op: Op, c: Ctl, sig: Signals)
    requires c.interruptCycle == -MAX && c.cycleCount >= 8 && Ends(op, sig.taken) && !op.FetchNextOpcode?
    ensures !Fetches(op, c, sig)
  {
  }

  lemma EarlyMoves(op: Op, c: Ctl, sig: Signals)
    requires op == FetchDataByte || op == PushHighPC
    ensures CtlStep(op, c.(cycleCount := c.cycleCount + 1), sig) == c.(cycleCount := c.cycleCount + 1)
  {
  }

  // ----- Every other event -----

  /** The interrupt and RDY lines cannot make a pending NMI wait longer. */
  lemma LinesKeepNmi(c: Ctl, e: Event)
    requires NmiPending(c) && 0 <= c.cycleCount < 0x800
    ensures var t := LineEvent(c, e);
            NmiPending(t) && Stage(t) <= Stage(c) && CyclesLeft(t) <= CyclesLeft(c)
  {
  }

  lemma StallKeepsNmi(c: Ctl)
    requires NmiPending(c) && 0 <= c.cycleCount < 0x800
    ensures var t := Stall(c);
            NmiPending(t) && Stage(t) <= Stage(c) && CyclesLeft(t) <= CyclesLeft(c)
  {
  }

  /** A trigger is noted in every state. */
  lemma TriggerIsNoted(c: Ctl)
    requires NmiNoted(c) && !c.rst && 0 <= c.cycleCount < 0x800
    ensures NmiPending(LineEvent(c, TriggerNMI))
  {
  }

  // ----- Runs -----

  /** The event chooses a vector. */
  predicate Serves(s: Cpu, e: Event)
    requires Running(s.c)
  {
    Executes(s.c, e) && s.c.cycleCount == 8 * BRKn + 2
  }

  /** The event takes a pending NMI: the vector is $FFFA, and the request is gone. */
  predicate TakesNmi(s: Cpu, e: Event)
    requires Running(s.c)
  {
    Serves(s, e) && s.c.nmi && React(s, e).r.ea == 0xfffa && !React(s, e).c.nmi
  }

  predicate ServedIn(s: Cpu, events: seq<Event>)
    requires IsRun(s, events)
    decreases |events|
  {
    events != [] && (TakesNmi(s, events[0]) || ServedIn(React(s, events[0]), events[1..]))
  }

  /** How many instructions are begun in the run. */
  function Fetched(s: Cpu, events: seq<Event>): nat
    requires IsRun(s, events)
    decreases |events|
  {
    if events == [] then 0
    else (if FetchesIn(s, events[0]) then 1 else 0) + Fetched(React(s, events[0]), events[1..])
  }

  predicate FetchesIn(s: Cpu, e: Event)
    requires Running(s.c)
  {
    Executes(s.c, e) && Fetches(SlotAt(s.c).op, s.c, SignalsOf(SlotAt(s.c).op, s))
  }

  /** The micro-operation that chooses the vector. */
  lemma VectorChoice(s: Cpu)
    ensures var t := Exec(BrkPushLowPC, s).0;
            t.r.ea == Vector(s.c) && !t.c.nmi
  {
    hide Lo, Byte, StackAddr, Vector;
  }

  lemma VectorStep(s: Cpu)
    requires Running(s.c) && s.c.cycleCount == 8 * BRKn + 2
    ensures Step(s).r.ea == Vector(s.c) && !Step(s).c.nmi
  {
    hide Slots, Exec, Vector;
    BrkSlots(s.c);
    VectorChoice(s);
  }

  /** Choosing the vector with an NMI pending means going through $FFFA, and ends the request. */
  lemma ServingNmi(s: Cpu, e: Event)
    requires Running(s.c) && Serves(s, e) && s.c.nmi && !s.c.rst
    ensures TakesNmi(s, e)
  {
    hide Slots, Step;
    VectorStep(s);
    assert React(s, e) == Step(s);
  }

  lemma EventKeepsNmi(s: Cpu, e: Event)
    requires Running(s.c) && NmiPending(s.c) && !Serves(s, e)
    ensures var t := React(s, e).c;
            && NmiPending(t) && InTable(t) && Stage(t) <= Stage(s.c)
            && CyclesLeft(t) <= CyclesLeft(s.c) - (if Executes(s.c, e) then 1 else 0)
            && (FetchesIn(s, e) ==> Stage(t) < Stage(s.c) == 2)
  {
    hide Slots, CtlStep, Step, SignalsOf, Fetches, NmiPending, Stage, CyclesLeft, LineEvent, Stall;
    ReactStaysInTable(s, e);
    if Executes(s.c, e) {
      StepCtl(s);
      MicroOpKeepsNmi(s.c, SignalsOf(SlotAt(s.c).op, s));
    } else {
      assert 0 <= s.c.cycleCount < 0x800;
      LinesKeepNmi(s.c, e);
      StallKeepsNmi(s.c);
    }
  }

  /** A pending NMI that has not been served yet has waited for fewer than 19 executed cycles, and at most
      one more instruction has begun since. */
  lemma {:induction false} NmiIsServedInTime(s: Cpu, events: seq<Event>)
    requires InTable(s.c) && NmiPending(s.c) && IsRun(s, events) && !ServedIn(s, events)
    ensures Executed(s, events) < CyclesLeft(s.c) <= 19
    ensures Fetched(s, events) <= (if Stage(s.c) == 2 then 1 else 0)
    ensures NmiPending(Run(s, events).c)
    decreases |events|
  {
    StageBounds(s.c);
    if events != [] {
      if Serves(s, events[0]) {
        ServingNmi(s, events[0]);
      }
      EventKeepsNmi(s, events[0]);
      NmiIsServedInTime(React(s, events[0]), events[1..]);
    }
  }

  /** From the trigger on: a run in which 19 cycles are executed, or two instructions begun, goes through $FFFA with
      the NMI still pending, and ends the request. */
  lemma TriggeredNmiIsServed(s: Cpu, events: seq<Event>)
    requires Running(s.c) && NmiNoted(s.c) && !s.c.rst
    requires IsRun(React(s, TriggerNMI), events)
    requires Executed(React(s, TriggerNMI), events) >= 19 || Fetched(React(s, TriggerNMI), events) >= 2
    ensures ServedIn(React(s, TriggerNMI), events)
  {
    TriggerIsNoted(s.c);
    ReactStaysInTable(s, TriggerNMI);
    if !ServedIn(React(s, TriggerNMI), events) {
      NmiIsServedInTime(React(s, TriggerNMI), events);
    }
  }

  /** The bookkeeping a trigger relies on holds in every run without a reset. */
  lemma {:induction false} RunKeepsNoted(s: Cpu, events: seq<Event>)
    requires InTable(s.c) && NmiNoted(s.c) && !s.c.rst && IsRun(s, events)
    ensures NmiNoted(Run(s, events).c) && !Run(s, events).c.rst
    decreases |events|
  {
    if events != [] {
      EventKeepsNoted(s, events[0]);
      RunKeepsNoted(React(s, events[0]), events[1..]);
    }
  }

  lemma EventKeepsNoted(s: Cpu, e: Event)
    requires Running(s.c) && NmiNoted(s.c) && !s.c.rst
    ensures var t := React(s, e).c; InTable(t) && NmiNoted(t) && !t.rst
  {
    hide Slots, Step, LineEvent, Stall, NmiNoted;
    ReactStaysInTable(s, e);
    if !Executes(s.c, e) {
      LinesKeepNoted(s.c, e);
    } else if s.c.nmi && !Serves(s, e) {
      EventKeepsNmi(s, e);
    } else {
      StepKeepsNoted(s);
    }
  }

  lemma LinesKeepNoted(c: Ctl, e: Event)
    requires NmiNoted(c) && !c.rst && 0 <= c.cycleCount < 0x800
    ensures NmiNoted(LineEvent(c, e)) && !LineEvent(c, e).rst
    ensures NmiNoted(Stall(c)) && !Stall(c).rst
  {
  }

  lemma StepKeepsNoted(s: Cpu)
    requires Running(s.c) && NmiNoted(s.c) && !s.c.rst && (s.c.nmi ==> s.c.cycleCount == 8 * BRKn + 2)
    ensures NmiNoted(Step(s).c) && !Step(s).c.rst
  {
    StepCtl(s);
    BrkSlots(s.c);
    hide Slots, Step, SignalsOf;
    BoundIsKept(SlotAt(s.c).op, s.c.(cycleCount := s.c.cycleCount + 1), SignalsOf(SlotAt(s.c).op, s));
    hide CtlStep;
  }

  lemma BoundIsKept(op: Op, c: Ctl, sig: Signals)
    requires c.interruptCycle == MAX || c.interruptCycle <= 0x1000
    requires !c.rst && 0 <= c.cycleCount <= 0x800 && (c.nmi ==> op.BrkPushLowPC?)
    ensures var t := CtlStep(op, c, sig);
            (t.interruptCycle == MAX || t.interruptCycle <= 0x1000) && !t.rst && !t.nmi
  {
    NextKeepsBound(c, sig.opcode);
    NextKeepsBound(c.(i := true), sig.opcode);
    NextKeepsBound(CalculateInterruptTriggerCycle(c.(i := false)), sig.opcode);
    hide NextOpcode;
  }

  lemma NextKeepsBound(c: Ctl, opcode: u8)
    requires c.interruptCycle == MAX || c.interruptCycle <= 0x1000
    ensures var t := NextOpcode(c, opcode);
            (t.interruptCycle == MAX || t.interruptCycle <= 0x1000) && t.rst == c.rst && t.nmi == c.nmi
  {
  }

  /** With a reset pending the vector is the reset vector, and the NMI request is dropped with it. */
  lemma ResetSwallowsNmi(s: Cpu)
    requires Running(s.c) && s.c.cycleCount == 8 * BRKn + 2 && s.c.nmi
    ensures Step(s).r.ea == 0xfffa <==> !s.c.rst
    ensures !Step(s).c.nmi
  {
    hide Slots, Step;
    VectorStep(s);
  }
}
