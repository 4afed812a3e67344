/**
 The sequencer over every run: where it stands in the table, which cycles it keeps from the VIC, and what
 happens while RDY is low (src/c64/CPU/mos6510.cpp).
 */
module CpuSequencer {
  import opened CpuTable
  import opened CpuCore
  import opened CpuDecode

  // ----- The shape of a table row -----

  /** nosteal marks exactly the writes. */
  ghost predicate WritesAreKept(t: seq<Slot>) {
    forall k | 0 <= k < |t| :: t[k].nosteal == Writes(t[k].op)
  }

  /** Whatever may skip a slot has one behind it to skip. */
  ghost predicate SkipsInside(t: seq<Slot>) {
    forall k | 0 <= k < |t| :: MaySkip(t[k].op) ==> k + 1 < |t|
  }

  /** No four cycles in a row are kept from the VIC. */
  ghost predicate AtMostThreeKept(t: seq<Slot>) {
    forall k | 0 <= k && k + 3 < |t| :: t[k].nosteal ==> !(t[k + 1].nosteal && t[k + 2].nosteal && t[k + 3].nosteal)
  }

  lemma AddressingShape(mode: Mode)
    ensures var t := Addressing(mode);
            |t| <= 4 && SkipsInside(t) && (forall k | 0 <= k < |t| :: !t[k].nosteal && !Writes(t[k].op))
  {
  }

  lemma WorkingShape(instr: Instr)
    ensures var t := Working(instr);
            WritesAreKept(t) && SkipsInside(t)
  {
  }

  lemma WorkingLength(instr: Instr)
    ensures |Working(instr)| <= 6
    ensures |Working(instr)| > 2 ==> instr.BrkI? || instr.JsrI? || instr.RtiI? || instr.RtsI?
  {
  }

  lemma WorkingKeeps(instr: Instr)
    ensures AtMostThreeKept(Working(instr))
  {
    WorkingLength(instr);
    if |Working(instr)| <= 2 {
      hide Working;
    }
  }

  lemma LongOpcodes(i: u8)
    requires InstrOf(i).BrkI? || InstrOf(i).JsrI? || InstrOf(i).RtiI? || InstrOf(i).RtsI?
    ensures i in {BRKn, JSRw, RTIn, RTSn}
  {
  }

  /** The long instructions spend one cycle only on their operand. */
  lemma LongInstructions(i: u8)
    requires i in {BRKn, JSRw, RTIn, RTSn}
    ensures ModeOf(i) == if i == JSRw then ZeroPage else Immediate
    ensures !ReadsOperand(i)
  {
  }

  lemma IllegalModes(i: u8)
    requires IsIllegal(i)
    ensures ModeOf(i) == NoMode && InstrOf(i) == NoInstr
  {
    HaltDecoding(i);
    hide ModeOf, InstrOf;
  }

  lemma IllegalReadNothing(i: u8)
    requires ModeOf(i) == NoMode
    ensures !ReadsOperand(i)
  {
    hide InstrOf;
  }

  lemma IllegalAreEmpty(i: u8)
    requires IsIllegal(i)
    ensures Addressing(ModeOf(i)) == [] && !ReadsOperand(i) && Working(InstrOf(i)) == []
  {
    IllegalModes(i);
    IllegalReadNothing(i);
    hide ModeOf, InstrOf, ReadsOperand;
  }

  /** Where the slots of a row come from. */
  lemma RowPieces(a: seq<Slot>, b: seq<Slot>, w: seq<Slot>, c: seq<Slot>, last: Slot, k: nat)
    requires k < |a| + |b| + |w| + |c| + 1
    ensures var t := a + b + w + c + [last];
            t[k] == if k < |a| then a[k] else if k < |a| + |b| then b[k - |a|]
                    else if k < |a| + |b| + |w| then w[k - |a| - |b|]
                    else if k < |a| + |b| + |w| + |c| then c[k - |a| - |b| - |w|] else last
  {
  }

  lemma RowKeepsWrites(a: seq<Slot>, b: seq<Slot>, w: seq<Slot>, c: seq<Slot>, last: Slot)
    requires WritesAreKept(a) && WritesAreKept(b) && WritesAreKept(w) && WritesAreKept(c) && WritesAreKept([last])
    ensures WritesAreKept(a + b + w + c + [last])
  {
    hide Writes;
    var t := a + b + w + c + [last];
    assert last.nosteal == Writes(last.op) by { assert [last][0] == last; }
    forall k | 0 <= k < |t| ensures t[k].nosteal == Writes(t[k].op) {
      RowPieces(a, b, w, c, last, k);
    }
  }

  /** A kept slot of a row is one of the slots that do the work. */
  lemma KeptWorks(a: seq<Slot>, b: seq<Slot>, w: seq<Slot>, c: seq<Slot>, last: Slot, k: nat)
    requires k < |a| + |b| + |w| + |c| + 1 && !last.nosteal
    requires forall j | 0 <= j < |a| :: !a[j].nosteal
    requires forall j | 0 <= j < |b| :: !b[j].nosteal
    requires forall j | 0 <= j < |c| :: !c[j].nosteal
    ensures var t, n := a + b + w + c + [last], |a| + |b|;
            t[k].nosteal ==> n <= k < n + |w| && w[k - n].nosteal
  {
    RowPieces(a, b, w, c, last, k);
  }

  lemma RowKeepsThree(a: seq<Slot>, b: seq<Slot>, w: seq<Slot>, c: seq<Slot>, last: Slot)
    requires AtMostThreeKept(w) && !last.nosteal
    requires forall k | 0 <= k < |a| :: !a[k].nosteal
    requires forall k | 0 <= k < |b| :: !b[k].nosteal
    requires forall k | 0 <= k < |c| :: !c[k].nosteal
    ensures AtMostThreeKept(a + b + w + c + [last])
  {
    var t := a + b + w + c + [last];
    forall k | 0 <= k && k + 3 < |t| ensures t[k].nosteal ==> !(t[k + 1].nosteal && t[k + 2].nosteal && t[k + 3].nosteal) {
      NotFourKept(a, b, w, c, last, k);
    }
  }

  lemma NotFourKept(a: seq<Slot>, b: seq<Slot>, w: seq<Slot>, c: seq<Slot>, last: Slot, k: nat)
    requires AtMostThreeKept(w) && !last.nosteal && k + 3 < |a| + |b| + |w| + |c| + 1
    requires forall j | 0 <= j < |a| :: !a[j].nosteal
    requires forall j | 0 <= j < |b| :: !b[j].nosteal
    requires forall j | 0 <= j < |c| :: !c[j].nosteal
    ensures var t := a + b + w + c + [last];
            !(t[k].nosteal && t[k + 1].nosteal && t[k + 2].nosteal && t[k + 3].nosteal)
  {
    KeptWorks(a, b, w, c, last, k);
    KeptWorks(a, b, w, c, last, k + 1);
    KeptWorks(a, b, w, c, last, k + 2);
    KeptWorks(a, b, w, c, last, k + 3);
  }

  lemma RowSkipsInside(a: seq<Slot>, b: seq<Slot>, w: seq<Slot>, c: seq<Slot>, last: Slot)
    requires SkipsInside(a) && SkipsInside(w) && !MaySkip(last.op)
    requires forall k | 0 <= k < |b| :: !MaySkip(b[k].op)
    requires forall k | 0 <= k < |c| :: !MaySkip(c[k].op)
    ensures var t := a + b + w + c + [last]; forall k | 0 <= k < |t| :: MaySkip(t[k].op) ==> k + 2 < |t|
  {
    hide MaySkip;
    var t := a + b + w + c + [last];
    forall k | 0 <= k < |t| && MaySkip(t[k].op) ensures k + 2 < |t| {
      RowPieces(a, b, w, c, last, k);
    }
  }

  /** How the parts of a row fit together. */
  lemma RowFromParts(a: seq<Slot>, b: seq<Slot>, w: seq<Slot>, c: seq<Slot>, t: seq<Slot>)
    requires t == a + b + w + c + [Slot(InterruptsAndNextOpcode, false)]
    requires SkipsInside(a) && forall k | 0 <= k < |a| :: !a[k].nosteal && !Writes(a[k].op)
    requires b == [] || b == [Free(FetchEffAddrDataByte)]
    requires WritesAreKept(w) && SkipsInside(w) && AtMostThreeKept(w)
    requires c == [] || c == [Free(InvalidOpcode)]
    ensures WritesAreKept(t) && AtMostThreeKept(t)
    ensures forall k | 0 <= k < |t| :: MaySkip(t[k].op) ==> k + 2 < |t|
  {
    var last := Slot(InterruptsAndNextOpcode, false);
    RowKeepsWrites(a, b, w, c, last);
    RowKeepsThree(a, b, w, c, last);
    RowSkipsInside(a, b, w, c, last);
  }

  /** Every row fits its eight slots, ends by looking for the next opcode, never skips past that, marks
      exactly its writes, and keeps at most three cycles in a row. */
  lemma RowShape(i: u8)
    ensures var t := Slots(i);
            && 1 <= |t| <= 8
            && t[|t| - 1] == Slot(InterruptsAndNextOpcode, false)
            && WritesAreKept(t) && AtMostThreeKept(t)
            && (forall k | 0 <= k < |t| :: MaySkip(t[k].op) ==> k + 2 < |t|)
  {
    AddressingShape(ModeOf(i));
    WorkingShape(InstrOf(i));
    WorkingLength(InstrOf(i));
    WorkingKeeps(InstrOf(i));
    if IsIllegal(i) {
      IllegalAreEmpty(i);
    } else if |Working(InstrOf(i))| > 2 {
      LongOpcodes(i);
      LongInstructions(i);
    }
    hide ModeOf, InstrOf, ReadsOperand, Addressing, Working, IsIllegal;
    RowFromParts(Addressing(ModeOf(i)), if ReadsOperand(i) then [Free(FetchEffAddrDataByte)] else [],
                 Working(InstrOf(i)), if IsIllegal(i) then [Free(InvalidOpcode)] else [], Slots(i));
  }

  // ----- One micro-operation -----

  /** Does the micro-operation end the instruction? */
  predicate Ends(op: Op, taken: bool) { SeeksOpcode(op, taken) || op.FetchNextOpcode? }

  /** An ending starts a new row; any other micro-operation moves on by one slot, or by two. */
  lemma CtlProgress(op: Op, c: Ctl, sig: Signals)
    ensures var c' := CtlStep(op, c, sig);
            if Ends(op, sig.taken) then c'.cycleCount == 8 * BRKn || c'.cycleCount == 8 * sig.opcode
            else c'.cycleCount == c.cycleCount + (if SkipsSlot(op, sig) then 1 else 0)
  {
    hide NextOpcode, FetchNext, CalculateInterruptTriggerCycle, DelayPastBranch;
    if op.Alu? {
      AluProgress(op.alu, c, sig);
    }
  }

  lemma AluProgress(alu: AluOp, c: Ctl, sig: Signals)
    ensures var c' := CtlStep(Alu(alu), c, sig); c'.cycleCount == 8 * BRKn || c'.cycleCount == 8 * sig.opcode
  {
    hide NextOpcode, CalculateInterruptTriggerCycle;
  }

  lemma NewRow(opcode: u8, c: Ctl)
    requires c.cycleCount == 8 * opcode
    ensures InTable(c)
  {
    RowShape(opcode);
    hide Slots;
    assert c.cycleCount / 8 == opcode && c.cycleCount % 8 == 0;
  }

  /** The signals the data side gives when a micro-operation runs. */
  function SignalsOf(op: Op, s: Cpu): Signals {
    var b := Answer(BusOf(op, s.r, s.c), s.mem);
    var r := DataStep(op, s.r, s.c, b);
    Signals(s.mem[r.pc], op.Branch? && Holds(op.condition, s.r.f), r.adlCarry, b)
  }

  /** The registers a micro-operation leaves, before the next opcode is fetched. */
  function DataOf(op: Op, s: Cpu): Regs { DataStep(op, s.r, s.c, Answer(BusOf(op, s.r, s.c), s.mem)) }

  lemma StepCtl(s: Cpu)
    requires Running(s.c)
    ensures Step(s).c == CtlStep(SlotAt(s.c).op, s.c.(cycleCount := s.c.cycleCount + 1), SignalsOf(SlotAt(s.c).op, s))
  {
    hide Slots, CtlStep, DataStep, BusOf;
  }

  lemma SlotOnward(c: Ctl, d: int)
    requires 0 <= c.cycleCount < 0x800 && d >= 0 && c.cycleCount % 8 + d < 8
    ensures (c.cycleCount + d) / 8 == c.cycleCount / 8 && (c.cycleCount + d) % 8 == c.cycleCount % 8 + d
  {
  }

  /** The sub-cycle index always names a filled slot, whatever the registers and the memory hold. */
  lemma StaysInTable(c: Ctl, sig: Signals)
    requires Running(c)
    ensures InTable(CtlStep(SlotAt(c).op, c.(cycleCount := c.cycleCount + 1), sig))
    ensures var c' := CtlStep(SlotAt(c).op, c.(cycleCount := c.cycleCount + 1), sig);
            Ends(SlotAt(c).op, sig.taken) || (c'.cycleCount / 8 == c.cycleCount / 8 && c'.cycleCount > c.cycleCount)
  {
    hide Slots, CtlStep;
    var i, k := c.cycleCount / 8, c.cycleCount % 8;
    var op := SlotAt(c).op;
    RowShape(i);
    CtlProgress(op, c.(cycleCount := c.cycleCount + 1), sig);
    var c' := CtlStep(op, c.(cycleCount := c.cycleCount + 1), sig);
    if Ends(op, sig.taken) {
      NewRow(c'.cycleCount / 8, c');
    } else {
      assert op != InterruptsAndNextOpcode;
      SlotOnward(c, if SkipsSlot(op, sig) then 2 else 1);
    }
  }

  /** A cycle that is not kept writes nothing, and a kept cycle writes. */
  lemma KeptIffWrites(s: Cpu)
    requires Running(s.c)
    ensures SlotAt(s.c).nosteal <==> Exec(SlotAt(s.c).op, s).1.WriteBus?
    ensures !SlotAt(s.c).nosteal ==> Step(s).mem == s.mem
  {
    RowShape(s.c.cycleCount / 8);
    BusOfWrites(SlotAt(s.c).op, s.r, s.c);
    hide Slots, CtlStep, DataStep, BusOf;
  }

  lemma BusOfWrites(op: Op, r: Regs, c: Ctl)
    ensures BusOf(op, r, c).WriteBus? <==> Writes(op)
  {
  }

  lemma BrkRow()
    ensures Slots(BRKn) ==
            [Free(FetchDataByte), Kept(PushHighPC), Kept(BrkPushLowPC), Kept(PushSR), Free(IrqLoRequest),
             Free(IrqHiRequest), Free(FetchNextOpcode), Free(InterruptsAndNextOpcode)]
  {
  }
}
