/**
 Whole instructions of the 6510 (src/c64/CPU/mos6510.cpp): from the cycle after the opcode fetch to the next
 opcode, the micro-operations of a row together do what the instruction says to its operand, in the cycles the
 instruction should take.
 */
module CpuInstructions {
  import opened CpuTable
  import opened CpuCore
  import opened CpuDecode
  import opened CpuSequencer
  import opened CpuRuns
  import opened CpuStack
  import opened CpuAddressing

  // ----- Slots behind the operand -----

  function ReadCycles(i: u8): nat { if ReadsOperand(i) then 1 else 0 }

  /** Where the work begins. */
  function WorkAt(i: u8): nat { |Addressing(ModeOf(i))| + ReadCycles(i) }

  lemma ReadSlot(i: u8)
    requires ReadsOperand(i)
    ensures |Addressing(ModeOf(i))| < |Slots(i)| <= 8
    ensures Slots(i)[|Addressing(ModeOf(i))|].op == FetchEffAddrDataByte
  {
    hide ModeOf, InstrOf, ReadsOperand, Addressing, Working, IsIllegal;
    RowShape(i);
  }

  lemma WorkSlot(i: u8, j: nat)
    requires j < |Working(InstrOf(i))|
    ensures WorkAt(i) + j < |Slots(i)| <= 8 && Slots(i)[WorkAt(i) + j] == Working(InstrOf(i))[j]
  {
    hide ModeOf, InstrOf, ReadsOperand, Addressing, Working, IsIllegal;
    RowShape(i);
  }

  /** The last slot looks for the next opcode. */
  lemma LastSlot(i: u8)
    requires InstrOf(i) != NoInstr
    ensures |Slots(i)| == WorkAt(i) + |Working(InstrOf(i))| + 1 <= 8
    ensures Slots(i)[WorkAt(i) + |Working(InstrOf(i))|].op == InterruptsAndNextOpcode
  {
    HaltDecoding(i);
    hide ModeOf, InstrOf, ReadsOperand, Addressing, Working;
    RowShape(i);
  }

  // ----- The operand -----

  /** The operand of an instruction; those without one see what the data latch holds. */
  function Operand(mode: Mode, s: Cpu): u8 {
    if mode == Immediate then FirstByte(s) else if HasAddress(mode) then s.mem[Address(mode, s)] else s.r.data
  }

  /** The cycles before the work begins. */
  function CyclesToWork(i: u8, s: Cpu): nat { CyclesToFind(ModeOf(i), s) + ReadCycles(i) }

  /** Registers r, but for the address latches of t. */
  function Latched(r: Regs, t: Regs): Regs { r.(ea := t.ea, pointer := t.pointer, adlCarry := t.adlCarry) }

  /** In t the work on the operand of opcode i begins. */
  predicate AtWork(i: u8, s: Cpu, t: Cpu) {
    && t.mem == s.mem
    && t.c == s.c.(cycleCount := 8 * i + WorkAt(i))
    && t.r == Latched(s.r.(pc := Word(s.r.pc + OperandBytes(ModeOf(i))), data := t.r.data), t.r)
    && (HasAddress(ModeOf(i)) ==> t.r.ea == Address(ModeOf(i), s))
    && (MayCross(ModeOf(i)) ==> (t.r.adlCarry <==> Crosses(ModeOf(i), s)))
    && (ReadsOperand(i) || !HasAddress(ModeOf(i)) ==> t.r.data == Operand(ModeOf(i), s))
  }

  lemma ReadEffect(t: Cpu)
    ensures DataOf(FetchEffAddrDataByte, t) == t.r.(data := t.mem[t.r.ea])
  {
  }

  lemma OperandIsRead(s: Cpu, i: u8)
    requires Begins(s, i) && ModeOf(i) != NoMode
    ensures CanStep(s, CyclesToWork(i, s)) && AtWork(i, s, Steps(s, CyclesToWork(i, s)))
  {
    hide ModeOf, InstrOf, ReadsOperand, Exec, Address, Word, Slots, Steps, CanStep, CyclesToFind, OperandBytes, DataOf;
    hide Addressing, MayCross, Crosses;
    EveryModeFinds(s, i);
    var n := CyclesToFind(ModeOf(i), s);
    if ReadsOperand(i) {
      ReadsHasAddress(i);
      ReadSlot(i);
      Extend(s, n, i, |Addressing(ModeOf(i))|, FetchEffAddrDataByte);
      FindsStep(FetchEffAddrDataByte, Steps(s, n));
      ReadEffect(Steps(s, n));
    }
  }

  lemma ReadsHasAddress(i: u8)
    requires ReadsOperand(i)
    ensures HasAddress(ModeOf(i))
  {
    Decoding(i);
    hide ModeOf, InstrOf, ReadsOperand, InstrByFields, ModeByFields;
  }

  // ----- The end of an instruction -----

  /** From registers r the CPU has looked for the next opcode: it fetched the one at pc, or enters an interrupt. */
  predicate Proceeds(r: Regs, t: Cpu) {
    || (t.r == r && t.c.cycleCount == 8 * BRKn && t.c.d1x1)
    || (t.r == r.(pc := Word(r.pc + 1)) && t.c.cycleCount == 8 * (t.mem[r.pc] as int))
  }

  predicate Seeks(op: Op) { op.Alu? || op.Jmp? || op.Rti? || op.InterruptsAndNextOpcode? }

  /** What looking for the next opcode does to the control state. */
  lemma SeekCtl(op: Op, c: Ctl, sig: Signals)
    requires Seeks(op)
    ensures var t := CtlStep(op, c.(cycleCount := c.cycleCount + 1), sig);
            if Recognised(BeforeNext(op, c)) then t.cycleCount == 8 * BRKn && t.d1x1 else t.cycleCount == 8 * sig.opcode
  {
    hide NextOpcode, CalculateInterruptTriggerCycle, Recognised, BeforeNext;
    var t := c.(cycleCount := c.cycleCount + 1);
    NextCtl(BeforeNext(op, c), sig.opcode);
    NextCtl(t.(i := true), sig.opcode);
    BeforeNextIs(op, c);
  }

  lemma NextCtl(c: Ctl, opcode: u8)
    ensures var t := NextOpcode(c, opcode);
            if Recognised(c) then t.cycleCount == 8 * BRKn && t.d1x1 else t.cycleCount == 8 * opcode
  {
    hide CheckInterrupts;
  }

  lemma BeforeNextIs(op: Op, c: Ctl)
    ensures var t := c.(cycleCount := c.cycleCount + 1);
            && BeforeNext(op, c) == (if op == Alu(Cli) then CalculateInterruptTriggerCycle(t.(i := false)) else t)
            && (Recognised(t.(i := true)) <==> Recognised(t))
  {
    hide CalculateInterruptTriggerCycle;
  }

  lemma SeekWritesNothing(op: Op, r: Regs, c: Ctl)
    requires Seeks(op)
    ensures BusOf(op, r, c) == NoAccess && SeeksOpcode(op, false)
  {
  }

  lemma EndProceeds(op: Op, s: Cpu)
    requires Seeks(op)
    ensures Proceeds(DataOf(op, s), Exec(op, s).0) && Exec(op, s).0.mem == s.mem
  {
    hide DataStep, Word, CtlStep, Recognised, BeforeNext, BusOf, SeeksOpcode;
    SeekWritesNothing(op, s.r, s.c);
    SeekCtl(op, s.c, SignalsOf(op, s));
    hide Seeks;
  }

  // ----- Arithmetic, logic, loads, compares, transfers, flags -----

  lemma AluKeepsLatches(alu: AluOp, r: Regs, pc: u16, t: Regs)
    ensures AluStep(alu, Latched(r.(pc := pc), t)) == Latched(AluStep(alu, r).(pc := pc), t)
  {
    hide DoADC, DoSBC, DoARR, Byte, AndB, OrB, XorB, RotateLeft, RotateRight, HasBit, SetNZ;
    ArithmeticKeepsLatches(r, pc, t);
  }

  lemma ArithmeticKeepsLatches(r: Regs, pc: u16, t: Regs)
    ensures DoADC(Latched(r.(pc := pc), t)) == Latched(DoADC(r).(pc := pc), t)
    ensures DoSBC(Latched(r.(pc := pc), t)) == Latched(DoSBC(r).(pc := pc), t)
    ensures DoARR(Latched(r.(pc := pc), t)) == Latched(DoARR(r).(pc := pc), t)
  {
    hide AddLow, AddMiddle, AddHigh, SubDecimal, Byte, AndB, RotateRight, HasBit;
  }

  lemma AluEffect(alu: AluOp, s: Cpu)
    ensures DataOf(Alu(alu), s) == AluStep(alu, s.r)
  {
    hide AluStep;
  }

  lemma AluReads(i: u8)
    requires InstrOf(i).AluI?
    ensures ModeOf(i) != NoMode && (ReadsOperand(i) <==> HasAddress(ModeOf(i)))
    ensures Working(InstrOf(i)) == [Free(Alu(InstrOf(i).alu))]
  {
    HaltDecoding(i);
    Decoding(i);
    hide ModeOf, InstrOf, ReadsOperand, InstrByFields, ModeByFields;
  }

  /** An instruction of this kind does to the registers what AluStep says, with its operand, and writes nothing. */
  lemma AluInstruction(s: Cpu, i: u8)
    requires Begins(s, i) && InstrOf(i).AluI?
    ensures var n := CyclesToWork(i, s) + 1;
            && CanStep(s, n)
            && var t := Steps(s, n);
               && t.mem == s.mem
               && Proceeds(Latched(AluStep(InstrOf(i).alu, s.r.(data := Operand(ModeOf(i), s)))
                                   .(pc := Word(s.r.pc + OperandBytes(ModeOf(i)))), t.r), t)
  {
    hide ModeOf, InstrOf, ReadsOperand, Exec, Address, Word, Slots, Steps, CanStep, CyclesToFind, OperandBytes, DataOf;
    hide Addressing, MayCross, Crosses, AluStep, Working, Operand, HasAddress;
    AluReads(i);
    OperandIsRead(s, i);
    var n := CyclesToWork(i, s);
    var alu := InstrOf(i).alu;
    var t := Steps(s, n);
    WorkSlot(i, 0);
    Extend(s, n, i, WorkAt(i), Alu(alu));
    EndProceeds(Alu(alu), t);
    AluEffect(alu, t);
    AluKeepsLatches(alu, s.r.(data := Operand(ModeOf(i), s)), t.r.pc, t.r);
  }

  // ----- Nothing at all, and jumps -----

  lemma SeekEffects(s: Cpu)
    ensures DataOf(InterruptsAndNextOpcode, s) == s.r && DataOf(Jmp, s) == s.r.(pc := s.r.ea)
  {
  }

  /** One slot further. */
  lemma Work(s: Cpu, n: nat, i: u8, j: nat)
    requires CanStep(s, n) && Steps(s, n).c.cycleCount == 8 * i + WorkAt(i) + j
    requires j < |Working(InstrOf(i))|
    ensures CanStep(s, n + 1) && Steps(s, n + 1) == Exec(Working(InstrOf(i))[j].op, Steps(s, n)).0
  {
    hide Exec, Slots, InstrOf, WorkAt;
    WorkSlot(i, j);
    WorkingIsPlain(InstrOf(i), j);
    hide Working;
    Extend(s, n, i, WorkAt(i) + j, Working(InstrOf(i))[j].op);
  }

  lemma WorkingIsPlain(instr: Instr, j: nat)
    requires j < |Working(instr)|
    ensures Working(instr)[j].op != InvalidOpcode
  {
  }

  /** The last slot. */
  lemma Finish(s: Cpu, n: nat, i: u8)
    requires InstrOf(i) != NoInstr
    requires CanStep(s, n) && Steps(s, n).c.cycleCount == 8 * i + WorkAt(i) + |Working(InstrOf(i))|
    ensures CanStep(s, n + 1)
    ensures Proceeds(Steps(s, n).r, Steps(s, n + 1)) && Steps(s, n + 1).mem == Steps(s, n).mem
  {
    hide Exec, Slots, InstrOf, WorkAt, Working, Proceeds, CanStep, Steps;
    LastSlot(i);
    Extend(s, n, i, WorkAt(i) + |Working(InstrOf(i))|, InterruptsAndNextOpcode);
    EndProceeds(InterruptsAndNextOpcode, Steps(s, n));
    SeekEffects(Steps(s, n));
  }

  /** The registers once the operand is known, but for the address latches of t. */
  function Behind(s: Cpu, i: u8, data: u8, t: Regs): Regs {
    Latched(s.r.(pc := Word(s.r.pc + OperandBytes(ModeOf(i))), data := data), t)
  }

  lemma NopInstruction(s: Cpu, i: u8)
    requires Begins(s, i) && InstrOf(i).NopI?
    ensures var n := CyclesToWork(i, s) + 1;
            && CanStep(s, n)
            && var t := Steps(s, n); t.mem == s.mem && Proceeds(Behind(s, i, t.r.data, t.r), t)
  {
    hide ModeOf, InstrOf, ReadsOperand, Exec, Address, Word, Slots, Steps, CanStep, CyclesToFind, OperandBytes, DataOf;
    hide Addressing, MayCross, Crosses, Operand, HasAddress;
    HaltDecoding(i);
    OperandIsRead(s, i);
    Finish(s, CyclesToWork(i, s), i);
  }

  lemma JmpModes(i: u8)
    requires InstrOf(i).JmpI?
    ensures ModeOf(i) == (if i == 0x6c then Indirect else Absolute) && !ReadsOperand(i)
  {
    Decoding(i);
    hide InstrOf, ModeOf, ReadsOperand;
  }

  /** JMP goes on at the address, or at the address it finds there without leaving the page of the pointer. */
  lemma JmpInstruction(s: Cpu, i: u8)
    requires Begins(s, i) && InstrOf(i).JmpI?
    ensures var n := if i == 0x6c then 5 else 3;
            var target := if i == 0x6c then PointedTo(s.mem, OperandWord(s)) else OperandWord(s);
            && CanStep(s, n)
            && var t := Steps(s, n); t.mem == s.mem && Proceeds(Latched(s.r.(pc := target, data := t.r.data), t.r), t)
  {
    hide ModeOf, InstrOf, ReadsOperand, Exec, Word, Slots, Steps, CanStep, OperandBytes, DataOf, PointedTo;
    hide Addressing, MayCross, Crosses, Proceeds;
    JmpModes(i);
    OperandIsRead(s, i);
    WordOfWord(OperandWord(s));
    WordOfWord(PointedTo(s.mem, OperandWord(s)));
    hide Address;
    var n := CyclesToWork(i, s);
    Work(s, n, i, 0);
    SeekEffects(Steps(s, n));
    EndProceeds(Jmp, Steps(s, n));
    ProceedsLatched(DataOf(Jmp, Steps(s, n)), Steps(s, n + 1));
  }

  // ----- Stores -----

  predicate StoresPlainly(store: StoreOp) { store.Sta? || store.Stx? || store.Sty? || store.Axs? }

  /** The registers whose conjunction a store writes. */
  function StoredValue(store: StoreOp, r: Regs): u8 {
    match store
    case Sta => r.a
    case Stx => r.x
    case Xas => r.x
    case Sty => r.y
    case Say => r.y
    case _ => AndB(r.a, r.x)
  }

  lemma StoreEffect(store: StoreOp, s: Cpu)
    ensures var r := StoreStep(store, s.r, s.c.rdyOnThrowAwayRead);
            Exec(Store(store), s).0 == Cpu(r, s.c.(cycleCount := s.c.cycleCount + 1), s.mem[r.ea := r.data])
  {
    hide StoreStep;
  }

  lemma StoreModes(i: u8)
    requires InstrOf(i).StoreI?
    ensures HasAddress(ModeOf(i)) && !ReadsOperand(i)
    ensures StoresPlainly(InstrOf(i).store) || (MayCross(ModeOf(i)) && !IsShort(ModeOf(i)))
  {
    Decoding(i);
    hide InstrOf, ModeOf, ReadsOperand;
  }

  /** STA, STX, STY and SAX write the register, or A and X together, to the address of the operand. */
  lemma StoreInstruction(s: Cpu, i: u8)
    requires Begins(s, i) && InstrOf(i).StoreI? && StoresPlainly(InstrOf(i).store)
    ensures var n := CyclesToWork(i, s) + 2;
            var value := StoredValue(InstrOf(i).store, s.r);
            && CanStep(s, n)
            && var t := Steps(s, n);
               t.mem == s.mem[Address(ModeOf(i), s) := value] && Proceeds(Behind(s, i, value, t.r), t)
  {
    hide ModeOf, InstrOf, ReadsOperand, Exec, Address, Word, Slots, Steps, CanStep, CyclesToFind, OperandBytes, DataOf;
    hide Addressing, MayCross, Crosses, Operand, Proceeds;
    HaltDecoding(i);
    StoreModes(i);
    hide HasAddress;
    OperandIsRead(s, i);
    var n := CyclesToWork(i, s);
    Work(s, n, i, 0);
    StoreEffect(InstrOf(i).store, Steps(s, n));
    Finish(s, n + 1, i);
    ProceedsLatched(Steps(s, n + 1).r, Steps(s, n + 2));
  }

  lemma ProceedsLatched(r: Regs, t: Cpu)
    requires Proceeds(r, t)
    ensures Latched(r, t.r) == r && t.r.ea == r.ea && t.r.pointer == r.pointer && t.r.adlCarry == r.adlCarry
    ensures t.r.data == r.data && t.r.s == r.s
  {
  }

  /** What the SH* stores write: the value and the high byte of the address before indexing, plus one. */
  function Leaked(store: StoreOp, mode: Mode, s: Cpu): u8 {
    AndB(StoredValue(store, s.r), Byte(Hi(Base(mode, s)) + 1))
  }

  predicate Leaks(store: StoreOp, mode: Mode, s: Cpu, t: Cpu) {
    var leaked := Leaked(store, mode, s);
    var addr := if Crosses(mode, s) then Join(leaked, Lo(Address(mode, s))) else Address(mode, s);
    && t.mem == s.mem[addr := if s.c.rdyOnThrowAwayRead then StoredValue(store, s.r) else leaked]
    && t.r.s == (if store.Shs? then StoredValue(store, s.r) else s.r.s)
    && t.r.a == s.r.a && t.r.x == s.r.x && t.r.y == s.r.y && t.r.f == s.r.f
  }

  lemma AndCommutes(a: u8, b: u8)
    ensures AndB(a, b) == AndB(b, a)
  {
  }

  /** A page crossing moves to the next page. */
  lemma NextPage(mode: Mode, s: Cpu)
    requires Crosses(mode, s) && MayCross(mode)
    ensures Hi(Address(mode, s)) == Byte(Hi(Base(mode, s)) + 1)
  {
    hide Base, Index, Byte, Hi;
    SumPage(Hi(Base(mode, s)), Lo(Base(mode, s)), Index(mode, s));
    JoinHiLo(Base(mode, s));
  }

  lemma SumPage(hi: u8, lo: u8, index: u8)
    ensures var sum := Word(Join(hi, lo) + index); Hi(sum) == hi || Hi(sum) == Byte(hi + 1)
  {
    if lo + index <= 0xff {
      assert Word(Join(hi, lo) + index) == 0x100 * hi + (lo + index);
    } else if hi < 0xff {
      assert Word(Join(hi, lo) + index) == 0x100 * (hi + 1) + (lo + index - 0x100);
    } else {
      assert Word(Join(hi, lo) + index) == lo + index - 0x100;
    }
  }

  lemma LeakStep(store: StoreOp, r: Regs, rdy: bool, value: u8, hi: u8)
    requires !StoresPlainly(store) && value == StoredValue(store, r)
    requires Hi(r.ea) == if r.adlCarry then Byte(hi + 1) else hi
    ensures var t := StoreStep(store, r, rdy);
            var leaked := AndB(value, Byte(hi + 1));
            && t.ea == (if r.adlCarry then Join(leaked, Lo(r.ea)) else r.ea)
            && t.data == (if rdy then value else leaked)
            && t == r.(ea := t.ea, data := t.data, s := t.s) && t.s == (if store.Shs? then value else r.s)
  {
    hide AndB, Byte, Hi, Lo;
    AndCommutes(r.x, r.a);
    AndCommutes(Hi(r.ea), value);
    AndCommutes(value, Byte(hi + 1));
  }

  /** The SH* stores: when indexing crosses a page the byte written is also the high byte of its address; a VIC that
      stops the CPU just before makes them write the whole value. */
  lemma LeakingStore(s: Cpu, i: u8)
    requires Begins(s, i) && InstrOf(i).StoreI? && !StoresPlainly(InstrOf(i).store)
    ensures var n := CyclesToWork(i, s) + 1;
            CanStep(s, n) && Leaks(InstrOf(i).store, ModeOf(i), s, Steps(s, n))
  {
    hide ModeOf, InstrOf, ReadsOperand, Exec, Address, Word, Slots, Steps, CanStep, CyclesToFind, OperandBytes, DataOf;
    hide Addressing, MayCross, Operand, Proceeds, Base, Byte, Hi, Lo, Join, AndB, StoreStep;
    HaltDecoding(i);
    StoreModes(i);
    hide HasAddress;
    OperandIsRead(s, i);
    var n := CyclesToWork(i, s);
    Work(s, n, i, 0);
    var t := Steps(s, n);
    StoreEffect(InstrOf(i).store, t);
    if Crosses(ModeOf(i), s) {
      NextPage(ModeOf(i), s);
    }
    SameValue(InstrOf(i).store, s.r, t.r);
    LeakStep(InstrOf(i).store, t.r, s.c.rdyOnThrowAwayRead, StoredValue(InstrOf(i).store, s.r), Hi(Base(ModeOf(i), s)));
  }

  lemma SameValue(store: StoreOp, r: Regs, t: Regs)
    requires t.a == r.a && t.x == r.x && t.y == r.y
    ensures StoredValue(store, t) == StoredValue(store, r)
  {
  }

  // ----- Read, modify, write -----

  lemma RmwKeepsLatches(rmw: RmwOp, r: Regs, pc: u16, t: Regs)
    ensures RmwStep(rmw, Latched(r.(pc := pc), t)) == Latched(RmwStep(rmw, r).(pc := pc), t)
  {
    hide DoADC, DoSBC, Compare, Byte, AndB, OrB, XorB, RotateLeft, RotateRight, SetNZ;
    ArithmeticKeepsLatches(r.(data := RotateRight(r.data, r.f.c), f := r.f.(c := r.data % 2 == 1)), pc, t);
    ArithmeticKeepsLatches(r.(data := Byte(r.data + 1)), pc, t);
    CompareKeepsLatches(r.(data := Byte(r.data - 1)), pc, t);
  }

  lemma CompareKeepsLatches(r: Regs, pc: u16, t: Regs)
    ensures Compare(Latched(r.(pc := pc), t), r.a) == Latched(Compare(r, r.a).(pc := pc), t)
  {
  }

  lemma RmwEffects(rmw: RmwOp, s: Cpu)
    ensures Exec(Rmw(rmw), s).0 == Cpu(RmwStep(rmw, s.r), s.c.(cycleCount := s.c.cycleCount + 1), s.mem[s.r.ea := s.r.data])
    ensures Exec(Rmw(rmw), s).1 == WriteBus(s.r.ea, s.r.data)
    ensures Exec(PutEffAddrDataByte, s).0 == Cpu(s.r, s.c.(cycleCount := s.c.cycleCount + 1), s.mem[s.r.ea := s.r.data])
  {
    hide RmwStep;
  }

  lemma RmwReads(i: u8)
    requires InstrOf(i).RmwI?
    ensures ReadsOperand(i) && HasAddress(ModeOf(i)) && ModeOf(i) != Immediate && ModeOf(i) != NoMode && !IsShort(ModeOf(i))
  {
    Decoding(i);
    hide InstrOf, ModeOf, ReadsOperand;
  }

  lemma RmwKeepsAddress(rmw: RmwOp, r: Regs)
    ensures RmwStep(rmw, r).ea == r.ea
  {
    hide Byte, AndB, OrB, XorB, RotateLeft, RotateRight, SetNZ, SubDecimal, HasBit, AddLow, AddMiddle, AddHigh;
  }

  /** The old operand is written back first. */
  lemma RmwWritesBack(s: Cpu, i: u8)
    requires Begins(s, i) && InstrOf(i).RmwI?
    ensures CanStep(s, CyclesToWork(i, s))
    ensures var t := Steps(s, CyclesToWork(i, s));
            var addr := Address(ModeOf(i), s);
            && InTable(t.c) && SlotAt(t.c) == Kept(Rmw(InstrOf(i).rmw))
            && Exec(Rmw(InstrOf(i).rmw), t).1 == WriteBus(addr, s.mem[addr])
  {
    hide ModeOf, InstrOf, ReadsOperand, Exec, Address, Word, Slots, Steps, CanStep, CyclesToFind, OperandBytes, DataOf;
    hide Addressing, MayCross, Crosses, RmwStep;
    RmwReads(i);
    OperandIsRead(s, i);
    hide HasAddress;
    WorkSlot(i, 0);
    SlotInRow(Steps(s, CyclesToWork(i, s)).c, i, WorkAt(i));
    RmwEffects(InstrOf(i).rmw, Steps(s, CyclesToWork(i, s)));
  }

  /** An instruction of this kind leaves in memory, and in the registers, what RmwStep makes of the operand. */
  lemma RmwInstruction(s: Cpu, i: u8)
    requires Begins(s, i) && InstrOf(i).RmwI?
    ensures var n := CyclesToWork(i, s) + 3;
            var addr := Address(ModeOf(i), s);
            var r := RmwStep(InstrOf(i).rmw, s.r.(data := s.mem[addr]));
            && CanStep(s, n)
            && var t := Steps(s, n);
               && t.mem == s.mem[addr := r.data]
               && Proceeds(Latched(r.(pc := Word(s.r.pc + OperandBytes(ModeOf(i)))), t.r), t)
  {
    hide ModeOf, InstrOf, ReadsOperand, Exec, Address, Word, Slots, Steps, CanStep, CyclesToFind, OperandBytes, DataOf;
    hide Addressing, MayCross, Crosses, Proceeds, RmwStep;
    RmwReads(i);
    OperandIsRead(s, i);
    hide HasAddress;
    var n, rmw := CyclesToWork(i, s), InstrOf(i).rmw;
    var t := Steps(s, n);
    Work(s, n, i, 0);
    RmwEffects(rmw, t);
    RmwKeepsAddress(rmw, t.r);
    Work(s, n + 1, i, 1);
    RmwEffects(rmw, Steps(s, n + 1));
    Finish(s, n + 2, i);
    ProceedsLatched(Steps(s, n + 2).r, Steps(s, n + 3));
    RmwKeepsLatches(rmw, s.r.(data := t.r.data), t.r.pc, t.r);
  }

  // ----- Branches -----

  /** Where a branch by b from the page hi leads, and the byte it adds to the page to get there. */
  lemma BranchPages(hi: u8, lo: u8, b: u8)
    ensures var near := Join(hi, Byte(lo + b));
            var target := Word(Join(hi, lo) + Signed(b));
            if (lo + b > 0xff) != (b > 0x7f) then Hi(target) != hi && target == Word(near + if b < 0x80 then 0x0100 else 0xff00)
            else Hi(target) == hi && target == near
  {
    if b <= 0x7f {
      BranchForward(hi, lo, b);
    } else {
      BranchBack(hi, lo, b);
    }
  }

  lemma BranchForward(hi: u8, lo: u8, b: u8)
    ensures var near := Join(hi, Byte(lo + b));
            var target := Word(Join(hi, lo) + b);
            if lo + b > 0xff then Hi(target) != hi && target == Word(near + 0x0100) else Hi(target) == hi && target == near
  {
  }

  lemma BranchBack(hi: u8, lo: u8, b: u8)
    requires b > 0x7f
    ensures var near := Join(hi, Byte(lo + b));
            var target := Word(Join(hi, lo) + b - 0x100);
            if lo + b > 0xff then Hi(target) == hi && target == near else Hi(target) != hi && target == Word(near + 0xff00)
  {
    if lo + b > 0xff {
      assert Join(hi, lo) + b - 0x100 == 0x100 * hi + (lo + b - 0x100);
    } else {
      assert Join(hi, lo) + b - 0x100 == 0x100 * (hi - 1) + (lo + b);
      assert Word(Join(hi, lo) + b - 0x100) == if hi == 0 then 0xff00 + lo + b else 0x100 * (hi - 1) + (lo + b);
    }
  }

  lemma BranchEffect(condition: Condition, s: Cpu)
    ensures DataOf(Branch(condition), s) == if Holds(condition, s.r.f) then BranchStep(s.r) else s.r
    ensures DataOf(FixBranch, s) == s.r.(pc := Word(s.r.pc + if s.r.data < 0x80 then 0x0100 else 0xff00))
  {
    hide Holds, BranchStep;
  }

  lemma BranchTaken(r: Regs)
    ensures var target := Word(r.pc + Signed(r.data));
            var t := BranchStep(r);
            && t == r.(pc := t.pc, ea := t.pc, adlCarry := t.adlCarry)
            && (t.adlCarry <==> Hi(target) != Hi(r.pc))
            && target == if t.adlCarry then Word(t.pc + if r.data < 0x80 then 0x0100 else 0xff00) else t.pc
  {
    hide Word, Byte, Hi, Lo, Join, Signed;
    JoinHiLo(r.pc);
    BranchPages(Hi(r.pc), Lo(r.pc), r.data);
  }

  /** A branch micro-operation looks for the next opcode at once, or goes on within its row. */
  lemma BranchCtl(condition: Condition, s: Cpu)
    ensures var r := DataOf(Branch(condition), s);
            var t := Exec(Branch(condition), s).0;
            && t.mem == s.mem
            && if Holds(condition, s.r.f) then t.r == r && t.c.cycleCount == s.c.cycleCount + (if r.adlCarry then 1 else 2)
               else Proceeds(r, t)
  {
    hide DataStep, Word, Holds;
  }

  lemma FixStep(s: Cpu)
    ensures Exec(FixBranch, s).0 == Cpu(DataOf(FixBranch, s), s.c.(cycleCount := s.c.cycleCount + 1), s.mem)
  {
    hide DataStep;
  }

  /** Where a branch goes on. */
  function Target(i: u8, s: Cpu): u16
    requires InstrOf(i).BranchI?
  {
    var next := Word(s.r.pc + 1);
    if Holds(InstrOf(i).condition, s.r.f) then Word(next + Signed(FirstByte(s))) else next
  }

  /** Two cycles for a branch that is not taken, three for one that is, four if it leaves the page. */
  function BranchCycles(i: u8, s: Cpu): nat
    requires InstrOf(i).BranchI?
  {
    if !Holds(InstrOf(i).condition, s.r.f) then 2 else if Hi(Target(i, s)) == Hi(Word(s.r.pc + 1)) then 3 else 4
  }

  /** A branch goes on behind itself, or at a distance of -128 to 127 bytes from there. */
  lemma BranchInstruction(s: Cpu, i: u8)
    requires Begins(s, i) && InstrOf(i).BranchI?
    ensures CanStep(s, BranchCycles(i, s))
    ensures var t := Steps(s, BranchCycles(i, s));
            t.mem == s.mem && Proceeds(Latched(s.r.(pc := Target(i, s), data := FirstByte(s)), t.r), t)
  {
    hide ModeOf, InstrOf, ReadsOperand, Exec, Word, Slots, Steps, CanStep, DataOf, Holds, Hi, Signed;
    hide Proceeds, BranchStep;
    BranchReads(i);
    OperandIsRead(s, i);
    var condition := InstrOf(i).condition;
    var t := Steps(s, 1);
    Work(s, 1, i, 0);
    BranchEffect(condition, t);
    BranchCtl(condition, t);
    if !Holds(condition, s.r.f) {
      ProceedsLatched(t.r, Steps(s, 2));
    } else {
      BranchTaken(t.r);
      var u := Steps(s, 2);
      if u.r.adlCarry {
        Work(s, 2, i, 1);
        BranchEffect(condition, u);
        FixStep(u);
        Finish(s, 3, i);
        ProceedsLatched(Steps(s, 3).r, Steps(s, 4));
      } else {
        Finish(s, 2, i);
        ProceedsLatched(u.r, Steps(s, 3));
      }
    }
  }

  lemma BranchReads(i: u8)
    requires InstrOf(i).BranchI?
    ensures ModeOf(i) == Immediate && !ReadsOperand(i)
    ensures Working(InstrOf(i)) == [Free(Branch(InstrOf(i).condition)), Free(FixBranch)]
  {
    OnlyBranches(i);
    hide ModeOf, InstrOf, ReadsOperand;
  }

  // ----- The stack -----

  predicate PushesOne(instr: Instr) { instr.PhaI? || instr.PhpI? }

  /** PHP pushes the status with the break bit and bit 5 set. */
  function PushedValue(instr: Instr, s: Cpu): int {
    if instr.PhaI? then s.r.a else PackFlags(s.r.f, s.c.i) + 0x30
  }

  lemma StackModes(i: u8)
    requires PushesOne(InstrOf(i)) || InstrOf(i).PlaI? || InstrOf(i).PlpI?
    ensures ModeOf(i) == Implied && !ReadsOperand(i)
  {
    Decoding(i);
    hide ModeOf, InstrOf, ReadsOperand;
  }

  lemma PushOneEffect(instr: Instr, s: Cpu)
    requires PushesOne(instr) && !s.c.d1x1
    ensures 0 <= PushedValue(instr, s) < 0x100
    ensures var t := Exec(Working(instr)[0].op, s).0;
            && t.r == s.r.(s := Byte(s.r.s - 1)) && t.c == s.c.(cycleCount := s.c.cycleCount + 1)
            && t.mem == Pushed(s.mem, s.r.s, PushedValue(instr, s))
  {
    PackLeavesTwoBits(s.r.f, s.c.i);
    hide PackFlags, Byte;
  }

  /** PHA and PHP leave A or the status on top of the stack. */
  lemma PushInstruction(s: Cpu, i: u8)
    requires Begins(s, i) && PushesOne(InstrOf(i))
    ensures CanStep(s, 3)
    ensures var t := Steps(s, 3);
            && 0 <= PushedValue(InstrOf(i), s) < 0x100
            && t.mem == Pushed(s.mem, s.r.s, PushedValue(InstrOf(i), s)) && Above(t, 1) == PushedValue(InstrOf(i), s)
            && Proceeds(Latched(s.r.(s := Byte(s.r.s - 1)), t.r), t)
  {
    hide ModeOf, InstrOf, ReadsOperand, Exec, Word, Slots, Steps, CanStep, DataOf, PushedValue, Proceeds, Byte, PushesOne;
    hide MayCross, Crosses, Address;
    StackModes(i);
    OperandIsRead(s, i);
    PcMoves(s.r.pc);
    var t := Steps(s, 1);
    OnePushed(InstrOf(i));
    Work(s, 1, i, 0);
    PushOneEffect(InstrOf(i), t);
    SamePushed(InstrOf(i), s, t);
    hide Working;
    Finish(s, 2, i);
    ProceedsLatched(Steps(s, 2).r, Steps(s, 3));
    BackUp(s.r.s);
  }

  lemma OnePushed(instr: Instr)
    requires PushesOne(instr)
    ensures |Working(instr)| == 1 && instr != NoInstr
  {
  }

  lemma SamePushed(instr: Instr, s: Cpu, t: Cpu)
    requires t.r.a == s.r.a && t.r.f == s.r.f && t.c.i == s.c.i
    ensures PushedValue(instr, t) == PushedValue(instr, s)
  {
  }

  lemma BackUp(sp: u8)
    ensures Byte(Byte(sp - 1) + 1) == sp
  {
  }

  lemma PopAEffect(s: Cpu)
    ensures Exec(PopA, s).0 == Cpu(LoadA(s.r.(s := Byte(s.r.s + 1)), Above(s, 1)), s.c.(cycleCount := s.c.cycleCount + 1), s.mem)
  {
    hide LoadA, Byte;
  }

  /** PLA takes A from the top of the stack, with N and Z. */
  lemma PlaInstruction(s: Cpu, i: u8)
    requires Begins(s, i) && InstrOf(i).PlaI?
    ensures CanStep(s, 4)
    ensures var t := Steps(s, 4);
            t.mem == s.mem && Proceeds(Latched(LoadA(s.r.(s := Byte(s.r.s + 1)), Above(s, 1)), t.r), t)
  {
    hide ModeOf, InstrOf, ReadsOperand, Exec, Word, Slots, Steps, CanStep, DataOf, Proceeds, Byte;
    StackModes(i);
    OperandIsRead(s, i);
    PcMoves(s.r.pc);
    Work(s, 1, i, 0);
    FetchEffect(Steps(s, 1));
    var t := Steps(s, 2);
    Work(s, 2, i, 1);
    PopAEffect(t);
    Finish(s, 3, i);
    ProceedsLatched(Steps(s, 3).r, Steps(s, 4));
  }

  /** PLP takes all six flags from the top of the stack. */
  lemma PlpInstruction(s: Cpu, i: u8)
    requires Begins(s, i) && InstrOf(i).PlpI?
    ensures CanStep(s, 4)
    ensures var t := Steps(s, 4);
            && t.mem == s.mem
            && Proceeds(Latched(s.r.(s := Byte(s.r.s + 1), f := UnpackFlags(Above(s, 1))), t.r), t)
            && t.c.i == UnpackI(Above(s, 1))
  {
    hide ModeOf, InstrOf, ReadsOperand, Exec, Word, Slots, Steps, CanStep, DataOf, Proceeds, Byte, UnpackFlags, UnpackI;
    StackModes(i);
    OperandIsRead(s, i);
    PcMoves(s.r.pc);
    Work(s, 1, i, 0);
    FetchEffect(Steps(s, 1));
    var t := Steps(s, 2);
    Work(s, 2, i, 1);
    PopSrEffect(t);
    PopKeepsD(PopSR, t);
    Finish(s, 3, i);
    ProceedsLatched(Steps(s, 3).r, Steps(s, 4));
    LastKeepsI(s, i);
  }

  lemma SeekKeepsI(s: Cpu)
    ensures Exec(InterruptsAndNextOpcode, s).0.c.i == s.c.i
  {
  }

  lemma LastKeepsI(s: Cpu, i: u8)
    requires InstrOf(i).PlpI? && CanStep(s, 3) && Steps(s, 3).c.cycleCount == 8 * i + 3
    requires ModeOf(i) == Implied && !ReadsOperand(i)
    ensures CanStep(s, 4) && Steps(s, 4).c.i == Steps(s, 3).c.i
  {
    hide ModeOf, InstrOf, ReadsOperand, Exec, Slots, Steps, CanStep;
    LastSlot(i);
    Extend(s, 3, i, 3, InterruptsAndNextOpcode);
    SeekKeepsI(Steps(s, 3));
  }

  // ----- BRK -----

  /** The address the CPU finds at a vector. */
  function VectorAt(mem: Memory, v: u16): u16
    requires v < 0xffff
  {
    Join(mem[v + 1], mem[v])
  }

  /** The status byte of BRK and PHP: the break bit is set, unlike for an interrupt. */
  function BrkStatus(s: Cpu): u8 {
    PackLeavesTwoBits(s.r.f, s.c.i);
    PackFlags(s.r.f, s.c.i) + 0x30
  }

  /** Memory with address and status pushed. */
  function BrkMemory(s: Cpu): Memory {
    var sp, ret := s.r.s, Word(s.r.pc + 1);
    Pushed(Pushed(Pushed(s.mem, sp, Hi(ret)), Byte(sp - 1), Lo(ret)), Byte(Byte(sp - 1) - 1), BrkStatus(s))
  }

  lemma PushStatusEffect(s: Cpu)
    requires !s.c.d1x1
    ensures var t := Exec(PushSR, s).0;
            && t.r == s.r.(s := Byte(s.r.s - 1)) && t.c == s.c.(cycleCount := s.c.cycleCount + 1)
            && t.mem == Pushed(s.mem, s.r.s, BrkStatus(s))
  {
    PackLeavesTwoBits(s.r.f, s.c.i);
    hide Exec, Pushed, Byte, PackFlags;
    PushEffect(PushSR, s);
  }

  /** What the first four cycles of BRK do. */
  predicate BrkPushed(s: Cpu, t: Cpu) {
    && t.mem == BrkMemory(s)
    && t.r == s.r.(pc := Word(s.r.pc + 1), ea := 0xfffe, data := t.r.data, s := Byte(Byte(Byte(s.r.s - 1) - 1) - 1))
  }

  lemma BrkWrites(s: Cpu)
    requires !s.c.d1x1 && !s.c.nmi && !s.c.rst
    ensures BrkPushed(s, Fold(s, EnterOps))
  {
    hide Exec, PackFlags, Pushed, Byte, Word, StackAddr, Hi, Lo, BrkStatus;
    var s1 := Exec(FetchDataByte, s).0;
    FetchEffect(s);
    FetchKeepsRest(s);
    var s2 := Exec(PushHighPC, s1).0;
    PushPcEffect(s1);
    BrkPushEffect(s2);
    var s3 := Exec(BrkPushLowPC, s2).0;
    PushStatusEffect(s3);
    SameStatus(s, s3);
    FoldFour(s, FetchDataByte, PushHighPC, BrkPushLowPC, PushSR);
  }

  lemma SameStatus(s: Cpu, t: Cpu)
    requires t.r.f == s.r.f && t.c.i == s.c.i
    ensures BrkStatus(t) == BrkStatus(s)
  {
  }

  lemma FetchKeepsRest(s: Cpu)
    ensures var t := Exec(FetchDataByte, s).0; t.r == s.r.(pc := t.r.pc, data := t.r.data)
  {
  }

  lemma VectorLow(s: Cpu)
    ensures var t := Exec(IrqLoRequest, s).0;
            t.mem == s.mem && t.r == s.r.(pc := WithLo(s.r.pc, s.mem[s.r.ea])) && t.c.cycleCount == s.c.cycleCount + 1
  {
    hide WithLo, Word;
  }

  lemma VectorHigh(s: Cpu)
    ensures var t := Exec(IrqHiRequest, s).0;
            && t.mem == s.mem && t.r == s.r.(pc := WithHi(s.r.pc, s.mem[Word(s.r.ea + 1)])) && t.c.i
            && t.c.cycleCount == s.c.cycleCount + 1
  {
    hide WithHi, Word;
  }

  lemma FetchEnds(s: Cpu)
    ensures var t := Exec(FetchNextOpcode, s).0;
            && t.mem == s.mem && t.r == s.r.(pc := Word(s.r.pc + 1)) && t.c.i == s.c.i
            && t.c.cycleCount == 8 * (s.mem[s.r.pc] as int)
  {
    hide Word, CheckInterrupts;
  }

  lemma StackPageOnly(mem: Memory, sp: u8, value: u8, addr: u16)
    requires addr >= 0x200
    ensures Pushed(mem, sp, value)[addr] == mem[addr]
  {
  }

  lemma VectorStays(s: Cpu)
    ensures BrkMemory(s)[0xfffe] == s.mem[0xfffe] && BrkMemory(s)[0xffff] == s.mem[0xffff]
  {
    hide Byte, Hi, Lo, BrkStatus, Pushed, Word;
    var sp: int := s.r.s;
    var ret := Word(s.r.pc + 1);
    var m1 := Pushed(s.mem, sp, Hi(ret));
    var m2 := Pushed(m1, Byte(sp - 1), Lo(ret));
    StackPageOnly(s.mem, sp, Hi(ret), 0xfffe);
    StackPageOnly(s.mem, sp, Hi(ret), 0xffff);
    StackPageOnly(m1, Byte(sp - 1), Lo(ret), 0xfffe);
    StackPageOnly(m1, Byte(sp - 1), Lo(ret), 0xffff);
    StackPageOnly(m2, Byte(Byte(sp - 1) - 1), BrkStatus(s), 0xfffe);
    StackPageOnly(m2, Byte(Byte(sp - 1) - 1), BrkStatus(s), 0xffff);
  }

  lemma EnterArePlain()
    ensures forall j | 0 <= j < |EnterOps| :: Plain(EnterOps[j])
  {
  }

  lemma BrkStarts(s: Cpu)
    requires Begins(s, BRKn) && !s.c.nmi && !s.c.rst
    ensures CanStep(s, 4) && BrkPushed(s, Steps(s, 4)) && Steps(s, 4).c.cycleCount == 8 * BRKn + 4
  {
    hide Exec, Slots, Fold, Steps, CanStep, Plain, BrkPushed;
    BrkRow();
    EnterArePlain();
    WalkRow(s, BRKn, 0, EnterOps);
    BrkWrites(s);
  }

  /** The next two cycles load the PC. */
  lemma BrkLoads(s: Cpu)
    requires Begins(s, BRKn) && !s.c.nmi && !s.c.rst
    ensures CanStep(s, 6)
    ensures var t := Steps(s, 6);
            && t.mem == BrkMemory(s) && t.c.cycleCount == 8 * BRKn + 6 && t.c.i
            && t.r == s.r.(pc := VectorAt(s.mem, 0xfffe), ea := 0xfffe, data := t.r.data,
                           s := Byte(Byte(Byte(s.r.s - 1) - 1) - 1))
  {
    hide Exec, Slots, Steps, CanStep, Plain, BrkMemory, Byte, WithLo, WithHi, Join;
    BrkRow();
    BrkStarts(s);
    var t := Steps(s, 4);
    Extend(s, 4, BRKn, 4, IrqLoRequest);
    VectorLow(t);
    Extend(s, 5, BRKn, 5, IrqHiRequest);
    VectorHigh(Steps(s, 5));
    VectorStays(s);
    JoinBytes(t.r.pc, t.mem[0xfffe], t.mem[0xffff]);
  }

  /** BRK pushes the address two behind its opcode and the status, sets I, and goes on at the address at $FFFE. */
  lemma BrkInstruction(s: Cpu)
    requires Begins(s, BRKn) && !s.c.nmi && !s.c.rst
    ensures CanStep(s, 7)
    ensures var t := Steps(s, 7);
            var target := VectorAt(s.mem, 0xfffe);
            && t.mem == BrkMemory(s) && t.c.i && t.c.cycleCount == 8 * (t.mem[target] as int)
            && t.r == s.r.(pc := Word(target + 1), ea := 0xfffe, data := t.r.data, s := Byte(Byte(Byte(s.r.s - 1) - 1) - 1))
  {
    hide Exec, Slots, Steps, CanStep, BrkMemory, Byte, Word, VectorAt;
    BrkRow();
    BrkLoads(s);
    Extend(s, 6, BRKn, 6, FetchNextOpcode);
    FetchEnds(Steps(s, 6));
  }

  // ----- Stolen cycles -----

  predicate LeaksAt(i: u8) { InstrOf(i).StoreI? && !StoresPlainly(InstrOf(i).store) }

  /** The SH* stores by their opcodes, and the slot of each that puts the page right. */
  lemma LeakingOpcodes(i: u8)
    ensures LeaksAt(i) <==> i in {SHAiy, SHAay, SHSay, SHYax, SHXay}
    ensures LeaksAt(i) ==> ModeOf(i) == if i == SHAiy then IndirectY else if i == SHYax then AbsoluteX else AbsoluteY
  {
    hide InstrOf, ModeOf, ReadsOperand;
    Decoding(i);
    LeakingFields(i);
    hide InstrByFields, ModeByFields;
  }

  lemma LeakingFields(i: u8)
    ensures var instr := InstrByFields(i / 0x20, i / 4 % 8, i % 4);
            instr.StoreI? && !StoresPlainly(instr.store) <==> i in {SHAiy, SHAay, SHSay, SHYax, SHXay}
    ensures i in {SHAiy, SHAay, SHSay, SHYax, SHXay} ==>
            ModeByFields(i / 0x20, i / 4 % 8, i % 4) == if i == SHAiy then IndirectY else if i == SHYax then AbsoluteX else AbsoluteY
  {
  }

  /** In a row that is not one of them, or in another slot, a stolen cycle does not spoil a store. */
  lemma StallSpoils(c: Ctl)
    requires InTable(c) && !c.rdyOnThrowAwayRead
    ensures Stall(c).rdyOnThrowAwayRead <==> SlotAt(c).op == ThrowAwayRead && LeaksAt(c.cycleCount / 8)
  {
    hide InstrOf, ModeOf, ReadsOperand, Slots, LeaksAt, Stall, Addressing;
    var i, k := c.cycleCount / 8, c.cycleCount % 8;
    StallFlag(c, i, k);
    LeakingOpcodes(i);
    if LeaksAt(i) {
      LeakingRow(i);
      LastCycle(i);
    }
  }

  lemma StallFlag(c: Ctl, i: u8, k: nat)
    requires c.cycleCount == 8 * i + k && k < 8 && !c.rdyOnThrowAwayRead
    ensures Stall(c).rdyOnThrowAwayRead <==>
            i in {SHAiy, SHAay, SHSay, SHYax, SHXay} && k == if i == SHAiy then 3 else 2
  {
  }

  lemma LastCycle(i: u8)
    requires LeaksAt(i)
    ensures |Addressing(ModeOf(i))| - 1 == if i == SHAiy then 3 else 2
  {
    hide InstrOf, ModeOf, LeaksAt;
    LeakingOpcodes(i);
  }

  lemma LeakingRow(i: u8)
    requires LeaksAt(i)
    ensures |Slots(i)| == |Addressing(ModeOf(i))| + 2
    ensures forall k | 0 <= k < |Slots(i)| :: Slots(i)[k].op == ThrowAwayRead <==> k == |Addressing(ModeOf(i))| - 1
  {
    hide InstrOf, ModeOf, ReadsOperand;
    LeakingOpcodes(i);
    HaltDecoding(i);
    StoreModes(i);
  }
}
