/**
 IRQs (src/c64/CPU/mos6510.cpp, src/c64/CPU/mos6510.h), told by the line and the interrupt flag: with I set none is
 taken; with I clear one is, as soon as an NMI would be; and one is forgotten, although the line is held, if the
 removal of an earlier one comes late.
 */
module CpuIrq {
  import opened CpuTable
  import opened CpuCore
  import opened CpuSequencer
  import opened CpuRuns
  import opened CpuInterrupts
  import CpuStack
  import CpuChip

  // ----- Not taken -----

  /** No interrupt is noted, and no reset or NMI is pending; no interrupt sequence is under way. */
  predicate Unnoticed(c: Ctl) { c.interruptCycle == MAX && !c.nmi && !c.rst && !c.d1x1 }

  /** The PC from which an ending micro-operation goes on: JMP and RTI load it. */
  function NextPc(op: Op, s: Cpu): u16 { if op.Jmp? || op.Rti? then s.r.ea else s.r.pc }

  /** If the event ends an instruction, the CPU goes on with the opcode at its PC. */
  predicate GoesOn(s: Cpu, e: Event)
    requires Running(s.c)
  {
    var op := SlotAt(s.c).op;
    Executes(s.c, e) && Ends(op, SignalsOf(op, s).taken) ==>
      && React(s, e).c.cycleCount == 8 * s.mem[NextPc(op, s)] as int
      && React(s, e).r.pc == Word(NextPc(op, s) + 1)
  }

  predicate AllGoOn(s: Cpu, events: seq<Event>)
    requires IsRun(s, events)
    decreases |events|
  {
    events == [] || (GoesOn(s, events[0]) && AllGoOn(React(s, events[0]), events[1..]))
  }

  /** The CPU looks at its interrupt lines when one of them is pulled, in CLI, when the flags are pulled and when the
      vector is chosen. */
  predicate Looks(s: Cpu, e: Event)
    requires Running(s.c)
  {
    || e == TriggerIRQ
    || (e == Stolen && s.c.cycleCount == 8 * CLIn)
    || (Executes(s.c, e) && (SlotAt(s.c).op == Alu(Cli) || SlotAt(s.c).op.PopSR? || SlotAt(s.c).op.BrkPushLowPC?))
  }

  lemma NothingToEnter(c: Ctl, opcode: u8)
    requires Unnoticed(c) && 0 <= c.cycleCount <= 0x800
    ensures !Recognised(c) && NextOpcode(c, opcode).cycleCount == 8 * opcode && Unnoticed(NextOpcode(c, opcode))
    ensures Unnoticed(FetchNext(c, opcode)) && FetchNext(c, opcode).cycleCount == 8 * opcode
  {
  }

  /** The end of an instruction. */
  lemma GoneOnGoesOn(r: Regs, c: Ctl, mem: Memory)
    requires Unnoticed(c) && 0 <= c.cycleCount <= 0x800
    ensures var t := CpuChip.GoneOn(r, c, mem);
            Unnoticed(t.c) && t.c.cycleCount == 8 * mem[r.pc] as int && t.r.pc == Word(r.pc + 1)
  {
    NothingToEnter(c, mem[r.pc]);
    hide NextOpcode, Recognised, Word;
  }

  lemma SeekGoesOn(op: Op, s: Cpu)
    requires Unnoticed(s.c) && 0 <= s.c.cycleCount < 0x800
    requires op.Jmp? || op.Rti? || op.InterruptsAndNextOpcode? || op.FetchNextOpcode?
    ensures var t := Exec(op, s).0;
            Unnoticed(t.c) && t.c.cycleCount == 8 * s.mem[NextPc(op, s)] as int && t.r.pc == Word(NextPc(op, s) + 1)
  {
    var c := s.c.(cycleCount := s.c.cycleCount + 1);
    hide Exec, CpuChip.GoneOn, FetchNext, Word;
    if op.FetchNextOpcode? {
      NothingToEnter(c, s.mem[s.r.pc]);
      CpuChip.FetchExec(s);
    } else if op.InterruptsAndNextOpcode? {
      GoneOnGoesOn(s.r, c, s.mem);
      CpuChip.NextExec(s);
    } else {
      GoneOnGoesOn(s.r.(pc := s.r.ea), c, s.mem);
      CpuChip.JumpExec(op, s);
    }
  }

  lemma AluGoesOn(alu: AluOp, s: Cpu)
    requires Unnoticed(s.c) && 0 <= s.c.cycleCount < 0x800 && alu != Cli
    ensures var t := Exec(Alu(alu), s).0;
            Unnoticed(t.c) && t.c.cycleCount == 8 * s.mem[s.r.pc] as int && t.r.pc == Word(s.r.pc + 1)
  {
    var c := s.c.(cycleCount := s.c.cycleCount + 1);
    hide Exec, CpuChip.GoneOn, AluStep, Word;
    if alu == Sei {
      GoneOnGoesOn(s.r, c.(i := true), s.mem);
      CpuChip.SeiExec(s);
    } else {
      GoneOnGoesOn(AluStep(alu, s.r), c, s.mem);
      CpuChip.AluExec(alu, s);
    }
  }

  /** An ending of an instruction that does not look, or looks with I set. */
  lemma EndGoesOn(op: Op, s: Cpu)
    requires Unnoticed(s.c) && 0 <= s.c.cycleCount < 0x800
    requires op.Alu? || op.Jmp? || op.Rti? || op.InterruptsAndNextOpcode? || op.FetchNextOpcode?
    requires op != Alu(Cli)
    ensures var t := Exec(op, s).0;
            Unnoticed(t.c) && t.c.cycleCount == 8 * s.mem[NextPc(op, s)] as int && t.r.pc == Word(NextPc(op, s) + 1)
  {
    hide Exec, Word, Unnoticed;
    if op.Alu? {
      AluGoesOn(op.alu, s);
    } else {
      SeekGoesOn(op, s);
    }
  }

  lemma BranchGoesOn(condition: Condition, s: Cpu)
    requires Unnoticed(s.c) && 0 <= s.c.cycleCount < 0x800
    ensures var t := Exec(Branch(condition), s).0;
            && Unnoticed(t.c)
            && (!Holds(condition, s.r.f) ==> t.c.cycleCount == 8 * s.mem[s.r.pc] as int && t.r.pc == Word(s.r.pc + 1))
  {
    var c := s.c.(cycleCount := s.c.cycleCount + 1);
    NothingToEnter(c, s.mem[s.r.pc]);
    CpuChip.BranchExec(condition, s);
    hide Exec, NextOpcode, Word, BranchStep, Holds;
  }

  /** A micro-operation in the middle of an instruction; if it looks, I is set. */
  lemma MiddleStaysUnnoticed(op: Op, c: Ctl, sig: Signals)
    requires Unnoticed(c) && 0 <= c.cycleCount <= 0x800 && !Ends(op, sig.taken) && !op.Branch?
    requires op.PopSR? || op.BrkPushLowPC? ==> CtlStep(op, c, sig).i
    ensures Unnoticed(CtlStep(op, c, sig))
  {
    hide NextOpcode, FetchNext;
  }

  lemma CliClears(s: Cpu)
    ensures !Exec(Alu(Cli), s).0.c.i
  {
    CpuChip.CliExec(s);
    hide Exec;
  }

  lemma StepUnnoticed(s: Cpu)
    requires Running(s.c) && Unnoticed(s.c)
    requires Looks(s, Cycle) ==> Step(s).c.i
    ensures Unnoticed(Step(s).c)
    ensures var op := SlotAt(s.c).op;
            Ends(op, SignalsOf(op, s).taken) ==>
              Step(s).c.cycleCount == 8 * s.mem[NextPc(op, s)] as int && Step(s).r.pc == Word(NextPc(op, s) + 1)
  {
    hide Slots, Exec, CtlStep;
    var op := SlotAt(s.c).op;
    var sig := SignalsOf(op, s);
    assert 0 <= s.c.cycleCount < 0x800;
    if op == Alu(Cli) {
      CliClears(s);
    } else if op.Branch? {
      BranchGoesOn(op.condition, s);
    } else if Ends(op, sig.taken) {
      EndGoesOn(op, s);
    } else {
      StepCtl(s);
      MovedOn(s.c);
      MiddleStaysUnnoticed(op, s.c.(cycleCount := s.c.cycleCount + 1), sig);
    }
    hide SignalsOf;
  }

  lemma MovedOn(c: Ctl)
    requires Unnoticed(c)
    ensures Unnoticed(c.(cycleCount := c.cycleCount + 1))
  {
  }

  lemma QuietStaysUnnoticed(c: Ctl, e: Event)
    requires Unnoticed(c) && 0 <= c.cycleCount < 0x800 && e != TriggerNMI
    requires e == TriggerIRQ ==> c.i
    ensures Unnoticed(LineEvent(c, e))
    ensures c.cycleCount != 8 * CLIn ==> Unnoticed(Stall(c))
    ensures c.cycleCount == 8 * CLIn ==> !Stall(c).i
  {
  }

  lemma EventUnnoticed(s: Cpu, e: Event)
    requires Running(s.c) && Unnoticed(s.c) && e != TriggerNMI
    requires Looks(s, e) ==> s.c.i && React(s, e).c.i
    ensures Unnoticed(React(s, e).c) && GoesOn(s, e)
  {
    hide Slots, Step, LineEvent, Stall, Unnoticed, SignalsOf, Ends;
    if Executes(s.c, e) {
      assert React(s, e) == Step(s);
      StepUnnoticed(s);
    } else {
      assert 0 <= s.c.cycleCount < 0x800;
      QuietStaysUnnoticed(s.c, e);
    }
  }

  /** I stays set, and no NMI comes. */
  predicate StaysMasked(s: Cpu, events: seq<Event>)
    requires IsRun(s, events)
    decreases |events|
  {
    s.c.i && (events == [] || (events[0] != TriggerNMI && StaysMasked(React(s, events[0]), events[1..])))
  }

  /** As long as I is set no IRQ is taken, whatever the line does: every instruction is followed by the one at the PC,
      so the row of BRK is entered by fetching opcode 0 alone, and not as an interrupt. */
  lemma {:induction false} MaskedIrqIsIgnored(s: Cpu, events: seq<Event>)
    requires Unnoticed(s.c) && IsRun(s, events) && StaysMasked(s, events)
    ensures AllGoOn(s, events)
    ensures Unnoticed(Run(s, events).c) && !Run(s, events).c.d1x1
    decreases |events|
  {
    hide GoesOn, Looks;
    if events != [] {
      EventUnnoticed(s, events[0]);
      MaskedIrqIsIgnored(React(s, events[0]), events[1..]);
    }
  }

  // ----- Taken -----

  /** The line is held, I is clear and nothing goes before; it stays so until a vector is chosen. */
  predicate Held(c: Ctl) { c.irq && !c.i && !c.nmi && !c.rst }

  predicate HeldUntilServed(s: Cpu, events: seq<Event>)
    requires IsRun(s, events)
    decreases |events|
  {
    && Held(s.c)
    && (events == [] || Serves(s, events[0]) ||
        (&& events[0] != ClearIRQ && events[0] != RemoveIRQ && events[0] != TriggerNMI
         && HeldUntilServed(React(s, events[0]), events[1..])))
  }

  /** The event chooses the vector of IRQ and BRK. */
  predicate TakesIrq(s: Cpu, e: Event)
    requires Running(s.c)
  {
    Serves(s, e) && React(s, e).r.ea == 0xfffe
  }

  predicate IrqServedIn(s: Cpu, events: seq<Event>)
    requires IsRun(s, events)
    decreases |events|
  {
    events != [] && (TakesIrq(s, events[0]) || IrqServedIn(React(s, events[0]), events[1..]))
  }

  /** The same CPU with an NMI in place of the IRQ. */
  function AsNmi(s: Cpu): Cpu { s.(c := s.c.(nmi := true)) }

  lemma CtlAsNmi(op: Op, c: Ctl, sig: Signals)
    requires Held(c) && !op.BrkPushLowPC? && !CtlStep(op, c, sig).i
    ensures CtlStep(op, c.(nmi := true), sig) == CtlStep(op, c, sig).(nmi := true)
  {
    NextAsNmi(c, sig.opcode);
    if op.Alu? {
      AluAsNmi(op.alu, c, sig);
    } else if op.Branch? {
      BranchAsNmi(op.condition, c, sig);
    } else if SeeksOpcode(op, sig.taken) || op.FetchNextOpcode? {
      SeekAsNmi(op, c, sig);
    } else {
      MiddleAsNmi(op, c, sig);
    }
    hide CtlStep;
  }

  lemma AluAsNmi(alu: AluOp, c: Ctl, sig: Signals)
    requires Held(c) && !CtlStep(Alu(alu), c, sig).i
    ensures CtlStep(Alu(alu), c.(nmi := true), sig) == CtlStep(Alu(alu), c, sig).(nmi := true)
  {
    NextAsNmi(c, sig.opcode);
    NextAsNmi(c.(i := true), sig.opcode);
    assert c.(i := false) == c && c.(nmi := true).(i := false) == c.(nmi := true);
    hide NextOpcode, FetchNext, CalculateInterruptTriggerCycle;
  }

  lemma BranchAsNmi(condition: Condition, c: Ctl, sig: Signals)
    requires Held(c)
    ensures CtlStep(Branch(condition), c.(nmi := true), sig) == CtlStep(Branch(condition), c, sig).(nmi := true)
  {
    NextAsNmi(c, sig.opcode);
    hide NextOpcode, FetchNext;
  }

  lemma SeekAsNmi(op: Op, c: Ctl, sig: Signals)
    requires Held(c) && (op.Jmp? || op.Rti? || op.InterruptsAndNextOpcode? || op.FetchNextOpcode?)
    ensures CtlStep(op, c.(nmi := true), sig) == CtlStep(op, c, sig).(nmi := true)
  {
    NextAsNmi(c, sig.opcode);
    hide NextOpcode, FetchNext;
  }

  lemma MiddleAsNmi(op: Op, c: Ctl, sig: Signals)
    requires Held(c) && !op.BrkPushLowPC? && !op.Alu? && !op.Branch? && !SeeksOpcode(op, sig.taken) && !op.FetchNextOpcode?
    requires !CtlStep(op, c, sig).i
    ensures CtlStep(op, c.(nmi := true), sig) == CtlStep(op, c, sig).(nmi := true)
  {
    NextAsNmi(c, sig.opcode);
    assert c.(i := false) == c && c.(nmi := true).(i := false) == c.(nmi := true);
    LookKeepsI(c.(i := true));
    hide NextOpcode, FetchNext, CalculateInterruptTriggerCycle;
  }

  lemma LookKeepsI(c: Ctl)
    ensures CalculateInterruptTriggerCycle(c).i == c.i
  {
  }

  lemma NextAsNmi(c: Ctl, opcode: u8)
    ensures NextOpcode(c, opcode).i == c.i
    ensures c.irq && !c.i ==>
              && NextOpcode(c.(nmi := true), opcode) == NextOpcode(c, opcode).(nmi := true)
              && FetchNext(c.(nmi := true), opcode) == FetchNext(c, opcode).(nmi := true)
              && CalculateInterruptTriggerCycle(c.(nmi := true)) == CalculateInterruptTriggerCycle(c).(nmi := true)
              && NextOpcode(CalculateInterruptTriggerCycle(c.(nmi := true)), opcode)
                 == NextOpcode(CalculateInterruptTriggerCycle(c), opcode).(nmi := true)
  {
  }

  lemma DataAsNmi(op: Op, s: Cpu)
    requires !op.BrkPushLowPC?
    ensures BusOf(op, s.r, AsNmi(s).c) == BusOf(op, s.r, s.c)
    ensures forall b: u8 :: DataStep(op, s.r, AsNmi(s).c, b) == DataStep(op, s.r, s.c, b)
  {
    hide StoreStep, AluStep, RmwStep, BranchStep, Word, Byte, WithLo, WithHi, Lo, Hi, PackFlags, UnpackFlags;
  }

  lemma BeforeAsNmi(op: Op, c: Ctl)
    requires Held(c)
    ensures Recognised(BeforeNext(op, c.(nmi := true))) == Recognised(BeforeNext(op, c))
  {
  }

  lemma ExecAsNmi(op: Op, s: Cpu)
    requires Held(s.c) && !op.BrkPushLowPC? && !Exec(op, s).0.c.i
    ensures Exec(op, AsNmi(s)).0 == AsNmi(Exec(op, s).0)
    ensures SignalsOf(op, AsNmi(s)) == SignalsOf(op, s)
  {
    hide Exec, CtlStep, SignalsOf, Held;
    SignalsAsNmi(op, s);
    ExecCtl(op, s);
    ExecCtl(op, AsNmi(s));
    Later(s.c);
    CtlAsNmi(op, s.c.(cycleCount := s.c.cycleCount + 1), SignalsOf(op, s));
    ExecDataAsNmi(op, s);
    SameParts(Exec(op, AsNmi(s)).0, AsNmi(Exec(op, s).0));
  }

  lemma Later(c: Ctl)
    requires Held(c)
    ensures Held(c.(cycleCount := c.cycleCount + 1))
    ensures c.(nmi := true).(cycleCount := c.cycleCount + 1) == c.(cycleCount := c.cycleCount + 1).(nmi := true)
  {
  }

  lemma SameParts(s: Cpu, t: Cpu)
    requires s.r == t.r && s.c == t.c && s.mem == t.mem
    ensures s == t
  {
  }

  lemma ExecCtl(op: Op, s: Cpu)
    ensures Exec(op, s).0.c == CtlStep(op, s.c.(cycleCount := s.c.cycleCount + 1), SignalsOf(op, s))
  {
    hide CtlStep, DataStep, BusOf, Answer;
  }

  lemma SignalsAsNmi(op: Op, s: Cpu)
    requires !op.BrkPushLowPC?
    ensures SignalsOf(op, AsNmi(s)) == SignalsOf(op, s)
  {
    DataAsNmi(op, s);
    hide DataStep, BusOf, Answer;
  }

  /** Does the cycle fetch the next opcode? */
  predicate FetchesNext(op: Op, s: Cpu) {
    op.FetchNextOpcode? || (SeeksOpcode(op, op.Branch? && Holds(op.condition, s.r.f)) && !Recognised(BeforeNext(op, s.c)))
  }

  lemma ExecData(op: Op, s: Cpu)
    ensures var r := DataOf(op, s);
            Exec(op, s).0.r == if FetchesNext(op, s) then r.(pc := Word(r.pc + 1)) else r
    ensures Exec(op, s).0.mem == MemoryAfter(s.mem, BusOf(op, s.r, s.c))
  {
    hide CtlStep, DataStep, BusOf, BeforeNext, Recognised, Answer, MemoryAfter, Word, Holds;
  }

  lemma DataOfAsNmi(op: Op, s: Cpu)
    requires Held(s.c) && !op.BrkPushLowPC?
    ensures DataOf(op, AsNmi(s)) == DataOf(op, s) && FetchesNext(op, AsNmi(s)) == FetchesNext(op, s)
    ensures BusOf(op, AsNmi(s).r, AsNmi(s).c) == BusOf(op, s.r, s.c)
  {
    DataAsNmi(op, s);
    BeforeAsNmi(op, s.c);
    hide DataStep, BusOf, BeforeNext, Recognised, SeeksOpcode, Answer, Holds;
  }

  lemma ExecDataAsNmi(op: Op, s: Cpu)
    requires Held(s.c) && !op.BrkPushLowPC?
    ensures Exec(op, AsNmi(s)).0.r == Exec(op, s).0.r && Exec(op, AsNmi(s)).0.mem == Exec(op, s).0.mem
  {
    ExecData(op, s);
    ExecData(op, AsNmi(s));
    DataOfAsNmi(op, s);
    hide Exec, DataOf, FetchesNext, MemoryAfter, BusOf, Word;
  }

  lemma QuietAsNmi(c: Ctl, e: Event)
    requires Held(c) && e != ClearIRQ && e != RemoveIRQ && e != TriggerNMI
    ensures LineEvent(c.(nmi := true), e) == LineEvent(c, e).(nmi := true)
    ensures !Stall(c).i ==> Stall(c.(nmi := true)) == Stall(c).(nmi := true)
  {
  }

  lemma SameSlot(c: Ctl)
    requires Running(c)
    ensures Running(c.(nmi := true)) && SlotAt(c.(nmi := true)) == SlotAt(c)
  {
    hide Slots;
  }

  /** Until the vector is chosen the two run alike. */
  lemma ReactAsNmi(s: Cpu, e: Event)
    requires Running(s.c) && Held(s.c) && !Serves(s, e) && e != ClearIRQ && e != RemoveIRQ && e != TriggerNMI
    requires Held(React(s, e).c)
    ensures Running(AsNmi(s).c) && !Serves(AsNmi(s), e) && React(AsNmi(s), e) == AsNmi(React(s, e))
    ensures Executes(AsNmi(s).c, e) == Executes(s.c, e) && FetchesIn(AsNmi(s), e) == FetchesIn(s, e)
  {
    SameSlot(s.c);
    BrkSlots(s.c);
    hide Slots, Exec, SlotAt, SignalsOf, LineEvent, Stall, Ends, BeforeNext, Recognised;
    var op := SlotAt(s.c).op;
    BeforeAsNmi(op, s.c);
    if Executes(s.c, e) {
      assert React(s, e) == Exec(op, s).0;
      ExecAsNmi(op, s);
    } else {
      QuietAsNmi(s.c, e);
    }
  }

  lemma VectorIsIrq(s: Cpu, e: Event)
    requires Running(s.c) && Serves(s, e) && Held(s.c)
    ensures TakesIrq(s, e)
  {
    hide Slots, Step;
    VectorStep(s);
    assert React(s, e) == Step(s);
  }

  /** A held IRQ that is noted has waited for fewer than 19 executed cycles as long as no vector has been chosen, and
      at most one more instruction has begun. */
  lemma {:induction false} IrqIsServedInTime(s: Cpu, events: seq<Event>)
    requires InTable(s.c) && NmiPending(AsNmi(s).c) && IsRun(s, events)
    requires HeldUntilServed(s, events) && !IrqServedIn(s, events)
    ensures Executed(s, events) < CyclesLeft(s.c) <= 19
    ensures Fetched(s, events) <= (if Stage(s.c) == 2 then 1 else 0)
    decreases |events|
  {
    StageBounds(s.c);
    if events != [] {
      var e := events[0];
      if Serves(s, e) {
        VectorIsIrq(s, e);
      }
      ReactAsNmi(s, e) by { StillHeld(s, events); }
      EventKeepsNmi(AsNmi(s), e);
      ReactStaysInTable(s, e);
      SameStage(s.c);
      SameStage(React(s, e).c);
      hide Stage, CyclesLeft, NmiPending, FetchesIn, Executes, Serves, TakesIrq;
      IrqIsServedInTime(React(s, e), events[1..]);
    }
  }

  lemma StillHeld(s: Cpu, events: seq<Event>)
    requires IsRun(s, events) && events != [] && HeldUntilServed(s, events) && !Serves(s, events[0])
    ensures Held(React(s, events[0]).c)
  {
  }

  lemma SameStage(c: Ctl)
    ensures Stage(c.(nmi := true)) == Stage(c) && CyclesLeft(c.(nmi := true)) == CyclesLeft(c)
  {
  }

  /** With I clear an IRQ that is held is taken within the bounds that hold for an NMI, through $FFFE. */
  lemma TriggeredIrqIsServed(s: Cpu, events: seq<Event>)
    requires Running(s.c) && NmiNoted(s.c) && !s.c.i && !s.c.nmi && !s.c.rst
    requires IsRun(React(s, TriggerIRQ), events) && HeldUntilServed(React(s, TriggerIRQ), events)
    requires Executed(React(s, TriggerIRQ), events) >= 19 || Fetched(React(s, TriggerIRQ), events) >= 2
    ensures IrqServedIn(React(s, TriggerIRQ), events)
  {
    IrqIsNoted(s.c);
    ReactStaysInTable(s, TriggerIRQ);
    if !IrqServedIn(React(s, TriggerIRQ), events) {
      IrqIsServedInTime(React(s, TriggerIRQ), events);
    }
  }

  lemma IrqIsNoted(c: Ctl)
    requires NmiNoted(c) && !c.i && !c.rst && 0 <= c.cycleCount < 0x800
    ensures NmiPending(LineEvent(c, TriggerIRQ).(nmi := true))
  {
  }

  // ----- Forgotten -----

  /** The removal that a release has queued comes after the line has been pulled again: the line is held, but the CPU
      has forgotten it. */
  lemma LateRemovalForgets(c: Ctl)
    requires !c.nmi && !c.rst && !c.d1x1
    ensures var t := LineEvent(LineEvent(LineEvent(c, ClearIRQ), TriggerIRQ), RemoveIRQ);
            t.irq && t.i == c.i && Unnoticed(t)
  {
  }

  predicate NeverLooks(s: Cpu, events: seq<Event>)
    requires IsRun(s, events)
    decreases |events|
  {
    events == [] || (!Looks(s, events[0]) && events[0] != TriggerNMI && NeverLooks(React(s, events[0]), events[1..]))
  }

  /** Held or not, masked or not: an IRQ that is not noted is not taken until the CPU looks again. */
  lemma {:induction false} ForgottenIrqIsIgnored(s: Cpu, events: seq<Event>)
    requires Unnoticed(s.c) && IsRun(s, events) && NeverLooks(s, events)
    ensures AllGoOn(s, events) && Unnoticed(Run(s, events).c)
    decreases |events|
  {
    hide GoesOn, Looks;
    if events != [] {
      EventUnnoticed(s, events[0]);
      ForgottenIrqIsIgnored(React(s, events[0]), events[1..]);
    }
  }

  // ----- Through the vector -----

  /** The two cycles behind the vector choice load the PC from the vector, low byte first, set I and end the mark of an
      interrupt. */
  lemma VectorIsLoaded(s: Cpu)
    requires s.r.ea < 0xffff
    ensures var t := Exec(IrqHiRequest, Exec(IrqLoRequest, s).0).0;
            && t.r.pc == s.mem[s.r.ea] + 0x100 * s.mem[s.r.ea + 1] as int
            && t.c.i && !t.c.d1x1 && t.r.s == s.r.s && t.mem == s.mem
  {
    hide Exec, WithLo, WithHi, Word, DataStep, BusOf, CtlStep;
    var lo, hi := s.mem[s.r.ea], s.mem[s.r.ea + 1];
    NextWord(s.r.ea);
    WordFromBytes(s.r.pc, lo, hi);
    CpuChip.VectorExec(IrqLoRequest, s);
    var t := Exec(IrqLoRequest, s).0;
    assert t.r.ea == s.r.ea && t.mem == s.mem && !t.c.d1x1 && t.r.pc == WithLo(s.r.pc, lo) && t.r.s == s.r.s;
    CpuChip.VectorExec(IrqHiRequest, t);
  }

  lemma NextWord(w: u16)
    requires w < 0xffff
    ensures Word(w + 1) == w + 1
  {
  }

  lemma WordFromBytes(w: u16, lo: u8, hi: u8)
    ensures WithHi(WithLo(w, lo), hi) == lo + 0x100 * hi as int
  {
  }

  /** Reset, NMI, and IRQ or BRK, in this order. */
  lemma VectorOrder(s: Cpu)
    requires Running(s.c) && s.c.cycleCount == 8 * BRKn + 2
    ensures Step(s).r.ea == if s.c.rst then 0xfffc else if s.c.nmi then 0xfffa else 0xfffe
    ensures !Step(s).c.rst && !Step(s).c.nmi
  {
    hide Slots, Exec;
    BrkSlots(s.c);
    CpuChip.BrkExec(s);
  }

  // ----- How early an interrupt must come -----

  /** The next n slots neither end the instruction nor skip one. */
  predicate MovesOn(s: Cpu, n: nat)
    decreases n
  {
    n == 0 || (Running(s.c) && CpuStack.Plain(SlotAt(s.c).op) && MovesOn(Step(s), n - 1))
  }

  lemma PlainKeepsNote(op: Op, s: Cpu)
    requires CpuStack.Plain(op) && s.c.interruptCycle != MAX
    ensures var t := Exec(op, s).0.c; t.interruptCycle == s.c.interruptCycle && t.cycleCount == s.c.cycleCount + 1
  {
    hide DataStep, BusOf;
  }

  lemma {:induction false} NoteStays(s: Cpu, n: nat)
    requires MovesOn(s, n) && s.c.interruptCycle != MAX
    ensures CanStep(s, n)
    ensures var t := Steps(s, n).c; t.interruptCycle == s.c.interruptCycle && t.cycleCount == s.c.cycleCount + n
    decreases n
  {
    hide Exec, Slots, SlotAt, CpuStack.Plain;
    if n > 0 {
      PlainKeepsNote(SlotAt(s.c).op, s);
      assert Step(s) == Exec(SlotAt(s.c).op, s).0;
      NoteStays(Step(s), n - 1);
    }
  }

  /** Does the slot let an interrupt in instead of the next instruction? */
  predicate LetsIn(s: Cpu)
    requires Running(s.c)
  {
    Recognised(BeforeNext(SlotAt(s.c).op, s.c))
  }

  lemma NotedInTime(op: Op, c: Ctl)
    requires c.interruptCycle != MAX
    ensures Recognised(BeforeNext(op, c)) <==> c.cycleCount >= c.interruptCycle + 2
  {
  }

  /** An interrupt noted in some slot is let in by a slot that ends the instruction n steps later exactly if n is 2 or
      more. */
  lemma TwoCycleRule(s: Cpu, n: nat)
    requires s.c.interruptCycle == s.c.cycleCount != MAX && MovesOn(s, n)
    ensures CanStep(s, n)
    ensures Running(Steps(s, n).c) ==> (LetsIn(Steps(s, n)) <==> n >= 2)
  {
    hide Exec, Slots, SlotAt, Recognised, BeforeNext, MovesOn;
    NoteStays(s, n);
    var t := Steps(s, n);
    if Running(t.c) {
      NotedInTime(SlotAt(t.c).op, t.c);
    }
  }

  /** NMI, and an IRQ that is not masked, are noted in the slot in which they come, if nothing was noted before; a cycle
      stolen there counts as one of the two. */
  lemma NotedWhereItComes(c: Ctl)
    requires c.interruptCycle == MAX && InTable(c)
    ensures LineEvent(c, TriggerNMI).interruptCycle == c.cycleCount
    ensures !c.i || c.nmi || c.rst ==> LineEvent(c, TriggerIRQ).interruptCycle == c.cycleCount
    ensures c.i && !c.nmi && !c.rst ==> LineEvent(c, TriggerIRQ).interruptCycle == MAX
    ensures c.cycleCount != 8 * CLIn && c.cycleCount != 8 * SEIn ==>
            Stall(LineEvent(c, TriggerNMI)).interruptCycle == c.cycleCount - 1
  {
  }

  // ----- Unmasking -----

  /** An interrupt remembered from an earlier instruction is let in by the next slot that can. */
  lemma RememberedIsLetIn(s: Cpu)
    requires Running(s.c) && s.c.interruptCycle == -MAX
    ensures LetsIn(s)
  {
    hide Slots, SlotAt;
  }

  /** CLI with the line held: one more instruction is fetched, and the interrupt is remembered for its end. */
  lemma CliRemembers(s: Cpu)
    requires Running(s.c) && SlotAt(s.c).op == Alu(Cli) && s.c.irq && s.c.interruptCycle == MAX
    ensures var t := Step(s).c; t.interruptCycle == -MAX && !t.i && t.cycleCount == 8 * (s.mem[s.r.pc] as int)
  {
    hide Slots, SlotAt;
    CliEffect(s);
  }

  lemma CliEffect(s: Cpu)
    requires s.c.irq && s.c.interruptCycle == MAX && 0 <= s.c.cycleCount < 0x800
    ensures var t := Exec(Alu(Cli), s).0.c; t.interruptCycle == -MAX && !t.i && t.cycleCount == 8 * (s.mem[s.r.pc] as int)
  {
  }

  /** SEI: an interrupt that was due in its last cycle is let in with I set; any other IRQ is forgotten. */
  lemma SeiForgets(s: Cpu)
    requires Running(s.c) && SlotAt(s.c).op == Alu(Sei) && !s.c.nmi && !s.c.rst
    ensures Step(s).c.i && Step(s).c.interruptCycle == MAX
    ensures LetsIn(s) ==> Step(s).c.d1x1 && Step(s).c.cycleCount == 8 * BRKn
  {
    hide Slots, SlotAt;
    SeiEffect(s);
  }

  lemma SeiEffect(s: Cpu)
    requires !s.c.nmi && !s.c.rst
    ensures var t := Exec(Alu(Sei), s).0.c;
            && t.i && t.interruptCycle == MAX
            && (Recognised(BeforeNext(Alu(Sei), s.c)) ==> t.d1x1 && t.cycleCount == 8 * BRKn)
  {
  }

  /** Flags pulled with I clear: a held IRQ is noted in the slot that follows. */
  lemma PulledIsNoted(s: Cpu)
    requires Running(s.c) && SlotAt(s.c).op == PopSR && s.c.irq && s.c.interruptCycle == MAX
    requires !UnpackI(s.mem[0x100 + (s.r.s + 1) % 0x100])
    ensures var t := Step(s).c; t.interruptCycle == t.cycleCount == s.c.cycleCount + 1 && !t.i
  {
    hide Slots, SlotAt;
    PullEffect(s);
  }

  lemma PullEffect(s: Cpu)
    requires s.c.irq && s.c.interruptCycle == MAX && !UnpackI(s.mem[0x100 + (s.r.s + 1) % 0x100])
    ensures var t := Exec(PopSR, s).0.c; t.interruptCycle == t.cycleCount == s.c.cycleCount + 1 && !t.i
  {
    hide UnpackI, UnpackFlags;
  }

  /** So PLP, whose last slot that is, executes one more instruction first, and RTI, whose last slot comes two later, does
      not. */
  lemma PullsEnd(s: Cpu, i: u8)
    requires Running(s.c) && SlotAt(s.c).op == PopSR && s.c.irq && s.c.interruptCycle == MAX
    requires !UnpackI(s.mem[0x100 + (s.r.s + 1) % 0x100])
    requires s.c.cycleCount == 8 * i + 2 && (i == 0x28 || i == RTIn)
    ensures i == 0x28 ==> Running(Step(s).c) && SlotAt(Step(s).c).op == InterruptsAndNextOpcode && !LetsIn(Step(s))
    ensures i == RTIn ==>
              CanStep(Step(s), 2) && Running(Steps(Step(s), 2).c) && SlotAt(Steps(Step(s), 2).c).op == Rti && LetsIn(Steps(Step(s), 2))
  {
    hide Slots, SlotAt, Step, Exec, LetsIn, UnpackI, MovesOn;
    PulledIsNoted(s);
    var t := Step(s);
    if i == RTIn {
      RtiMovesOn(t);
      TwoCycleRule(t, 2);
    } else {
      PlpLast(t);
      TwoCycleRule(t, 0);
    }
  }

  lemma PlpLast(t: Cpu)
    requires t.c.cycleCount == 8 * 0x28 + 3
    ensures InTable(t.c) && SlotAt(t.c).op == InterruptsAndNextOpcode && MovesOn(t, 0) && Steps(t, 0) == t
  {
    hide Exec;
    assert Slots(0x28) == [Free(ThrowAwayFetch), Free(WasteCycle), Free(PopSR), Free(InterruptsAndNextOpcode)];
    hide Slots;
    CpuStack.SlotInRow(t.c, 0x28, 3);
  }

  lemma RtiMovesOn(t: Cpu)
    requires t.c.cycleCount == 8 * RTIn + 3 && t.c.interruptCycle != MAX
    ensures MovesOn(t, 2) && CanStep(t, 2) && InTable(Steps(t, 2).c) && SlotAt(Steps(t, 2).c).op == Rti
  {
    hide Exec, Slots, SlotAt;
    CpuStack.RtiRow();
    CpuStack.SlotInRow(t.c, RTIn, 3);
    PlainKeepsNote(PopLowPC, t);
    var u := Step(t);
    assert u == Exec(PopLowPC, t).0;
    CpuStack.SlotInRow(u.c, RTIn, 4);
    PlainKeepsNote(PopHighPC, u);
    var v := Step(u);
    assert v == Exec(PopHighPC, u).0;
    CpuStack.SlotInRow(v.c, RTIn, 5);
    assert MovesOn(v, 0) && MovesOn(u, 1);
    assert CanStep(v, 0) && CanStep(u, 1) && Steps(u, 1) == Steps(v, 0) == v;
  }

  // ----- Taken branches -----

  /** At the end of a branch that is taken within its page an interrupt is let in exactly if it was noted before the branch
      began: one that comes during the branch waits for the next instruction. */
  lemma BranchPutsOff(s: Cpu, i: u8)
    requires InTable(s.c) && SlotAt(s.c).op.Branch? && s.c.cycleCount == 8 * i + 1 && s.c.interruptCycle <= s.c.cycleCount
    requires Holds(SlotAt(s.c).op.condition, s.r.f) && !BranchStep(s.r).adlCarry
    ensures var t := Step(s).c;
            && t.cycleCount == 8 * i + 3
            && (Recognised(t.(cycleCount := t.cycleCount + 1)) <==> s.c.interruptCycle < 8 * i)
  {
    hide Slots, SlotAt, Holds, BranchStep;
    BranchDelay(SlotAt(s.c).op.condition, s, i);
  }

  lemma BranchDelay(condition: Condition, s: Cpu, i: u8)
    requires s.c.cycleCount == 8 * i + 1 && s.c.interruptCycle <= s.c.cycleCount
    requires Holds(condition, s.r.f) && !BranchStep(s.r).adlCarry
    ensures var t := Exec(Branch(condition), s).0.c;
            && t.cycleCount == 8 * i + 3
            && (Recognised(t.(cycleCount := t.cycleCount + 1)) <==> s.c.interruptCycle < 8 * i)
  {
    hide Holds, BranchStep;
  }
}
