/**
 The addressing modes of the 6510 (src/c64/CPU/mos6510.cpp): the address an operand has, told without the
 micro-operations, and the cycles that find it.
 */
module CpuAddressing {
  import opened CpuTable
  import opened CpuCore
  import opened CpuSequencer
  import opened CpuRuns
  import opened CpuStack

  // ----- The address of an operand -----

  /** The bytes behind the opcode; pc stands on the first of them. */
  function FirstByte(s: Cpu): u8 { s.mem[s.r.pc] }
  function SecondByte(s: Cpu): u8 { s.mem[Word(s.r.pc + 1)] }
  function OperandWord(s: Cpu): u16 { Join(SecondByte(s), FirstByte(s)) }

  /** A pointer does not leave its page: its second byte follows the first within the page. */
  function PointedTo(mem: Memory, p: u16): u16 { Join(mem[Join(Hi(p), Byte(Lo(p) + 1))], mem[p]) }

  /** The address before the index is added. */
  function Base(mode: Mode, s: Cpu): u16 {
    match mode
    case Absolute => OperandWord(s)
    case AbsoluteX => OperandWord(s)
    case AbsoluteX2 => OperandWord(s)
    case AbsoluteY => OperandWord(s)
    case AbsoluteY2 => OperandWord(s)
    case Indirect => PointedTo(s.mem, OperandWord(s))
    case IndirectX => PointedTo(s.mem, Byte(FirstByte(s) + s.r.x))
    case IndirectY => PointedTo(s.mem, FirstByte(s))
    case IndirectY2 => PointedTo(s.mem, FirstByte(s))
    case _ => FirstByte(s)
  }

  function Index(mode: Mode, s: Cpu): u8 {
    match mode
    case ZeroPageX => s.r.x
    case AbsoluteX => s.r.x
    case AbsoluteX2 => s.r.x
    case ZeroPageY => s.r.y
    case AbsoluteY => s.r.y
    case AbsoluteY2 => s.r.y
    case IndirectY => s.r.y
    case IndirectY2 => s.r.y
    case _ => 0
  }

  predicate InZeroPage(mode: Mode) { mode.ZeroPage? || mode.ZeroPageX? || mode.ZeroPageY? }

  /** The address of the operand: it wraps within page zero, and within memory. */
  function Address(mode: Mode, s: Cpu): u16 {
    var sum := Base(mode, s) + Index(mode, s);
    if InZeroPage(mode) then Byte(sum) else Word(sum)
  }

  predicate Crosses(mode: Mode, s: Cpu) { Hi(Address(mode, s)) != Hi(Base(mode, s)) }

  predicate HasAddress(mode: Mode) { !mode.Implied? && !mode.Immediate? && !mode.NoMode? }

  /** The modes that add an index to an absolute address. */
  predicate Indexes(mode: Mode) { mode.AbsoluteX? || mode.AbsoluteX2? || mode.AbsoluteY? || mode.AbsoluteY2? }

  predicate MayCross(mode: Mode) { Indexes(mode) || mode.IndirectY? || mode.IndirectY2? }

  /** The modes that save a cycle unless the page is crossed. */
  predicate IsShort(mode: Mode) { mode.AbsoluteX2? || mode.AbsoluteY2? || mode.IndirectY2? }

  function OperandBytes(mode: Mode): nat {
    match mode
    case Implied => 0
    case NoMode => 0
    case Absolute => 2
    case AbsoluteX => 2
    case AbsoluteX2 => 2
    case AbsoluteY => 2
    case AbsoluteY2 => 2
    case Indirect => 2
    case _ => 1
  }

  /** The cycles it takes to find the operand. */
  function CyclesToFind(mode: Mode, s: Cpu): nat {
    match mode
    case Implied => 1
    case Immediate => 1
    case ZeroPage => 1
    case ZeroPageX => 2
    case ZeroPageY => 2
    case Absolute => 2
    case AbsoluteX => 3
    case AbsoluteY => 3
    case AbsoluteX2 => if Crosses(mode, s) then 3 else 2
    case AbsoluteY2 => if Crosses(mode, s) then 3 else 2
    case Indirect => 4
    case IndirectX => 4
    case IndirectY => 4
    case IndirectY2 => if Crosses(mode, s) then 4 else 3
    case NoMode => 0
  }

  // ----- Steps through a row -----

  /** The CPU has fetched opcode i and is not entering an interrupt. */
  predicate Begins(s: Cpu, i: u8) { s.c.cycleCount == 8 * i && !s.c.d1x1 }

  lemma Extend(s: Cpu, n: nat, i: u8, k: nat, op: Op)
    requires CanStep(s, n) && Steps(s, n).c.cycleCount == 8 * i + k
    requires k < |Slots(i)| <= 8 && Slots(i)[k].op == op && op != InvalidOpcode
    ensures CanStep(s, n + 1) && Steps(s, n + 1) == Exec(op, Steps(s, n)).0
    decreases n
  {
    hide Slots, Exec;
    SlotInRow(Steps(s, n).c, i, k);
    if n > 0 {
      Extend(Step(s), n - 1, i, k, op);
    } else {
      assert Step(s) == Exec(op, s).0;
    }
  }

  /** A row begins with the cycles of its addressing mode. */
  lemma RowBegins(i: u8, k: nat)
    requires k < |Addressing(ModeOf(i))|
    ensures k < |Slots(i)| <= 8 && Slots(i)[k] == Addressing(ModeOf(i))[k]
  {
    RowShape(i);
    hide ModeOf, InstrOf, ReadsOperand, Addressing, Working, IsIllegal;
  }

  // ----- The micro-operations that find an operand -----

  predicate Finds(op: Op) {
    op in {ThrowAwayFetch, FetchDataByte, FetchLowAddr, FetchLowAddrX, FetchLowAddrY, WasteCycle, FetchHighAddr,
           FetchHighAddrX, FetchHighAddrY, ThrowAwayRead, FetchLowPointer, FetchLowPointerX, FetchHighPointer,
           FetchLowEffAddr, FetchHighEffAddr, FetchHighEffAddrY, FetchEffAddrDataByte}
  }

  lemma FindsStep(op: Op, s: Cpu)
    requires Finds(op)
    ensures Exec(op, s).0 == Cpu(DataOf(op, s), s.c.(cycleCount := s.c.cycleCount + 1), s.mem)
  {
    hide DataStep;
  }

  lemma ShortStep(op: Op, s: Cpu)
    requires op in {FetchHighAddrX2, FetchHighAddrY2, FetchHighEffAddrY2}
    ensures var r := DataOf(op, s);
            Exec(op, s).0 == Cpu(r, s.c.(cycleCount := s.c.cycleCount + if r.adlCarry then 1 else 2), s.mem)
  {
    hide DataStep;
  }

  lemma LowEffects(s: Cpu)
    ensures var t := s.r.(pc := Word(s.r.pc + 1));
            && DataOf(FetchLowAddr, s) == t.(ea := FirstByte(s))
            && DataOf(FetchLowAddrX, s) == t.(ea := Byte(FirstByte(s) + s.r.x))
            && DataOf(FetchLowAddrY, s) == t.(ea := Byte(FirstByte(s) + s.r.y))
            && DataOf(FetchLowPointer, s) == t.(pointer := FirstByte(s))
    ensures DataOf(ThrowAwayFetch, s) == DataOf(WasteCycle, s) == s.r
    ensures !s.c.d1x1 ==> DataOf(FetchDataByte, s) == s.r.(data := FirstByte(s), pc := Word(s.r.pc + 1))
  {
    hide Word, Byte;
  }

  /** What a high byte and an index make of a low byte in page zero. */
  function WithHigh(r: Regs, hi: u8, index: u8): Regs
  {
    r.(ea := Join(hi, Byte(Lo(r.ea) + index)), adlCarry := Lo(r.ea) + index > 0xff)
  }

  lemma IndexedHigh(r: Regs, hi: u8, index: u8)
    requires r.ea < 0x100
    ensures var t := Indexed(r, index); t.(ea := WithHi(t.ea, hi)) == WithHigh(r, hi, index)
    ensures WithHi(r.ea, hi) == Join(hi, r.ea)
  {
    assert Lo(r.ea) == r.ea;
    assert Word(r.ea + index) == r.ea + index;
  }

  lemma HighEffects(s: Cpu)
    requires s.r.ea < 0x100
    ensures var t := s.r.(pc := Word(s.r.pc + 1));
            && DataOf(FetchHighAddr, s) == t.(ea := Join(FirstByte(s), s.r.ea))
            && DataOf(FetchHighAddrX, s) == DataOf(FetchHighAddrX2, s) == WithHigh(t, FirstByte(s), s.r.x)
            && DataOf(FetchHighAddrY, s) == DataOf(FetchHighAddrY2, s) == WithHigh(t, FirstByte(s), s.r.y)
  {
    hide Word, WithHi, WithHigh, Indexed;
    IndexedHigh(s.r, FirstByte(s), s.r.x);
    IndexedHigh(s.r, FirstByte(s), s.r.y);
    IndexedMoves(s.r, FirstByte(s), s.r.x, Word(s.r.pc + 1), s.r.pointer);
    IndexedMoves(s.r, FirstByte(s), s.r.y, Word(s.r.pc + 1), s.r.pointer);
  }

  lemma NextInPage(p: u16)
    ensures WithLo(p, Byte(p + 1)) == Join(Hi(p), Byte(Lo(p) + 1))
  {
  }

  lemma IndexedMoves(r: Regs, hi: u8, index: u8, pc: u16, pointer: u16)
    ensures WithHigh(r, hi, index).(pc := pc) == WithHigh(r.(pc := pc), hi, index)
    ensures WithHigh(r, hi, index).(pointer := pointer) == WithHigh(r.(pointer := pointer), hi, index)
  {
  }

  lemma HighPage(s: Cpu)
    requires s.r.adlCarry
    ensures DataOf(ThrowAwayRead, s) == s.r.(ea := Word(s.r.ea + 0x100))
  {
  }

  lemma SamePage(s: Cpu)
    requires !s.r.adlCarry
    ensures DataOf(ThrowAwayRead, s) == s.r
  {
  }

  /** The second byte of the pointer. */
  function Beside(s: Cpu): u8 { s.mem[Join(Hi(s.r.pointer), Byte(Lo(s.r.pointer) + 1))] }

  lemma PointerEffects(s: Cpu)
    ensures DataOf(FetchHighPointer, s) == s.r.(pointer := Join(FirstByte(s), Lo(s.r.pointer)), pc := Word(s.r.pc + 1))
    ensures s.r.pointer < 0x100 ==> DataOf(FetchLowPointerX, s) == s.r.(pointer := Byte(s.r.pointer + s.r.x))
    ensures DataOf(FetchLowEffAddr, s) == s.r.(ea := s.mem[s.r.pointer])
  {
  }

  lemma EffectiveEffects(s: Cpu)
    requires s.r.ea < 0x100
    ensures var p := Join(Hi(s.r.pointer), Byte(Lo(s.r.pointer) + 1));
            var t := s.r.(pointer := p);
            && DataOf(FetchHighEffAddr, s) == t.(ea := Join(s.mem[p], s.r.ea))
            && DataOf(FetchHighEffAddrY, s) == DataOf(FetchHighEffAddrY2, s) == WithHigh(t, s.mem[p], s.r.y)
  {
    var p := Join(Hi(s.r.pointer), Byte(Lo(s.r.pointer) + 1));
    NextInPage(s.r.pointer);
    IndexedHigh(s.r, s.mem[p], s.r.y);
    IndexedMoves(s.r, s.mem[p], s.r.y, s.r.pc, p);
    hide Word, Hi, Lo, Byte, WithLo, Join, WithHi, WithHigh, Indexed;
  }

  // ----- Every mode finds its operand -----

  /** In t the CPU has found the operand: address, page crossing and operand bytes are as told above, and nothing
      else has changed. */
  predicate FoundIn(mode: Mode, s: Cpu, t: Cpu) {
    && t.mem == s.mem
    && t.c == s.c.(cycleCount := s.c.cycleCount + |Addressing(mode)|)
    && t.r == s.r.(pc := Word(s.r.pc + OperandBytes(mode)), ea := t.r.ea, pointer := t.r.pointer,
                   adlCarry := t.r.adlCarry, data := t.r.data)
    && (HasAddress(mode) ==> t.r.ea == Address(mode, s))
    && (MayCross(mode) ==> (t.r.adlCarry <==> Crosses(mode, s)))
    && t.r.data == (if mode == Immediate then FirstByte(s) else s.r.data)
  }

  ghost predicate Found(s: Cpu, i: u8) {
    var n := CyclesToFind(ModeOf(i), s);
    CanStep(s, n) && FoundIn(ModeOf(i), s, Steps(s, n))
  }

  /** The high byte is corrected exactly when the sum leaves the page. */
  lemma IndexAdds(hi: u8, lo: u8, index: u8)
    ensures var low, sum := Join(hi, Byte(lo + index)), Word(Join(hi, lo) + index);
            if lo + index > 0xff then sum == Word(low + 0x100) && Hi(sum) != hi else sum == low && Hi(sum) == hi
  {
  }

  lemma PcMoves(pc: u16)
    ensures Word(Word(pc + 1) + 1) == Word(pc + 2) && Word(pc + 0) == pc
  {
  }

  /** n steps, the last of which runs the k-th micro-operation of the addressing mode. */
  lemma Advance(s: Cpu, n: nat, i: u8, k: nat)
    requires CanStep(s, n) && Steps(s, n).c.cycleCount == 8 * i + k
    requires k < |Addressing(ModeOf(i))|
    ensures CanStep(s, n + 1) && Steps(s, n + 1) == Exec(Addressing(ModeOf(i))[k].op, Steps(s, n)).0
  {
    hide Slots, Exec, ModeOf;
    RowBegins(i, k);
    AddressingIsPlain(ModeOf(i), k);
    hide Addressing;
    Extend(s, n, i, k, Addressing(ModeOf(i))[k].op);
  }

  /** The same where the micro-operation only moves on: n steps and this one. */
  lemma Find(s: Cpu, n: nat, i: u8, k: nat)
    requires CanStep(s, n) && Steps(s, n).c.cycleCount == 8 * i + k
    requires k < |Addressing(ModeOf(i))| && Finds(Addressing(ModeOf(i))[k].op)
    ensures CanStep(s, n + 1)
    ensures var t := Steps(s, n);
            Steps(s, n + 1) == Cpu(DataOf(Addressing(ModeOf(i))[k].op, t), t.c.(cycleCount := 8 * i + k + 1), t.mem)
  {
    hide Exec, ModeOf, Addressing, Finds, DataOf;
    Advance(s, n, i, k);
    FindsStep(Addressing(ModeOf(i))[k].op, Steps(s, n));
  }

  /** The first cycle. */
  lemma FindFirst(s: Cpu, i: u8)
    requires Begins(s, i) && 0 < |Addressing(ModeOf(i))| && Finds(Addressing(ModeOf(i))[0].op)
    ensures CanStep(s, 1)
    ensures Steps(s, 1) == Cpu(DataOf(Addressing(ModeOf(i))[0].op, s), s.c.(cycleCount := 8 * i + 1), s.mem)
  {
    hide Exec, ModeOf, Addressing, Finds, DataOf;
    Find(s, 0, i, 0);
  }

  lemma AddressingIsPlain(mode: Mode, k: nat)
    requires k < |Addressing(mode)|
    ensures Addressing(mode)[k].op != InvalidOpcode
  {
  }

  lemma FindOneCycle(s: Cpu, i: u8)
    requires Begins(s, i) && ModeOf(i) in {Implied, Immediate, ZeroPage}
    ensures Found(s, i)
  {
    hide Steps, CanStep;
    hide ModeOf, Exec, DataOf, Word, Byte, Slots;
    var op := Addressing(ModeOf(i))[0].op;
    FindFirst(s, i);
    LowEffects(s);
    PcMoves(s.r.pc);
    ByteOfByte(FirstByte(s));
  }

  lemma ByteOfByte(b: u8)
    ensures Byte(b + 0) == b && Word(b + 0) == b
  {
  }

  lemma FindZeroPage(s: Cpu, i: u8)
    requires Begins(s, i) && (ModeOf(i).ZeroPageX? || ModeOf(i).ZeroPageY?)
    ensures Found(s, i)
  {
    hide Steps, CanStep;
    hide ModeOf, Exec, DataOf, Word, Byte, Slots, Index, Base, Addressing, Address, Crosses, MayCross, CyclesToFind, OperandBytes;
    var mode := ModeOf(i);
    ZeroPageModes(mode, s);
    FindFirst(s, i);
    LowEffects(s);
    Find(s, 1, i, 1);
    LowEffects(Steps(s, 1));
  }

  lemma ZeroPageModes(mode: Mode, s: Cpu)
    requires mode.ZeroPageX? || mode.ZeroPageY?
    ensures |Addressing(mode)| == 2 && Addressing(mode)[0].op == (if mode.ZeroPageX? then FetchLowAddrX else FetchLowAddrY)
    ensures Addressing(mode)[1].op == WasteCycle
    ensures Address(mode, s) == Byte(FirstByte(s) + if mode.ZeroPageX? then s.r.x else s.r.y)
    ensures CyclesToFind(mode, s) == 2 && OperandBytes(mode) == 1 && !MayCross(mode)
  {
    hide Byte, Word;
  }

  lemma FindAbsolute(s: Cpu, i: u8)
    requires Begins(s, i) && ModeOf(i) == Absolute
    ensures Found(s, i)
  {
    hide Steps, CanStep;
    hide ModeOf, Exec, DataOf, Byte, Slots, Word, Join;
    FindFirst(s, i);
    LowEffects(s);
    var t := Steps(s, 1);
    Find(s, 1, i, 1);
    HighEffects(t);
    PcMoves(s.r.pc);
    WordOfWord(OperandWord(s));
  }

  lemma WordOfWord(w: u16)
    ensures Word(w + 0) == w
  {
  }

  lemma WithHighFields(r: Regs, hi: u8, index: u8)
    ensures var t := WithHigh(r, hi, index);
            && t == r.(ea := t.ea, adlCarry := t.adlCarry)
            && t.ea == Join(hi, Byte(Lo(r.ea) + index)) && (t.adlCarry <==> Lo(r.ea) + index > 0xff)
  {
  }

  /** What the four indexed absolute modes share. */
  lemma IndexedModes(mode: Mode, s: Cpu)
    requires Indexes(mode)
    ensures Base(mode, s) == OperandWord(s) && Address(mode, s) == Word(OperandWord(s) + Index(mode, s))
    ensures |Addressing(mode)| == 3 && Addressing(mode)[0].op == FetchLowAddr && Addressing(mode)[2].op == ThrowAwayRead
    ensures OperandBytes(mode) == 2 && mode != Immediate
    ensures CyclesToFind(mode, s) == if IsShort(mode) && !Crosses(mode, s) then 2 else 3
  {
    hide Word, Join;
  }

  lemma SecondCycle(mode: Mode, t: Cpu)
    requires Indexes(mode) && t.r.ea < 0x100
    ensures var r := WithHigh(t.r.(pc := Word(t.r.pc + 1)), FirstByte(t), Index(mode, t));
            Exec(Addressing(mode)[1].op, t).0
            == Cpu(r, t.c.(cycleCount := t.c.cycleCount + if IsShort(mode) && !r.adlCarry then 2 else 1), t.mem)
  {
    hide Exec, DataOf, Byte, Word, Join, WithHigh;
    HighEffects(t);
    if IsShort(mode) {
      ShortStep(Addressing(mode)[1].op, t);
    } else {
      FindsStep(Addressing(mode)[1].op, t);
    }
  }

  /** Two cycles fetch the address and add the index to its low byte. */
  lemma IndexedStart(s: Cpu, i: u8)
    requires Begins(s, i) && Indexes(ModeOf(i))
    ensures CanStep(s, 2)
    ensures var t := Steps(s, 2);
            var index := Index(ModeOf(i), s);
            && t.mem == s.mem
            && t.r == WithHigh(s.r.(pc := Word(s.r.pc + 2), ea := FirstByte(s)), SecondByte(s), index)
            && t.c == s.c.(cycleCount := s.c.cycleCount + if IsShort(ModeOf(i)) && !t.r.adlCarry then 3 else 2)
  {
    hide Steps, CanStep;
    hide ModeOf, Exec, DataOf, Byte, Slots, Word, Join, WithHigh, Addressing, Base, Crosses, CyclesToFind, Indexes, Address, Index, IsShort;
    var mode := ModeOf(i);
    IndexedModes(mode, s);
    FindFirst(s, i);
    LowEffects(s);
    var t := Steps(s, 1);
    Advance(s, 1, i, 1);
    SecondCycle(mode, t);
    IndexKept(mode, s, t);
    PcMoves(s.r.pc);
  }

  lemma IndexKept(mode: Mode, s: Cpu, t: Cpu)
    requires t.r.x == s.r.x && t.r.y == s.r.y
    ensures Index(mode, t) == Index(mode, s)
  {
  }

  /** The last cycle puts the page right. */
  lemma FixesPage(s: Cpu, n: nat, i: u8, k: nat)
    requires CanStep(s, n) && Steps(s, n).c.cycleCount == 8 * i + k
    requires k < |Addressing(ModeOf(i))| && Addressing(ModeOf(i))[k].op == ThrowAwayRead
    ensures CanStep(s, n + 1)
    ensures var t := Steps(s, n);
            Steps(s, n + 1) == t.(c := t.c.(cycleCount := 8 * i + k + 1),
                                  r := if t.r.adlCarry then t.r.(ea := Word(t.r.ea + 0x100)) else t.r)
  {
    hide ModeOf, Exec, DataOf, Slots, Word, Addressing;
    Advance(s, n, i, k);
    var t := Steps(s, n);
    FindsStep(ThrowAwayRead, t);
    if t.r.adlCarry {
      HighPage(t);
    } else {
      SamePage(t);
    }
  }

  lemma FindIndexed(s: Cpu, i: u8)
    requires Begins(s, i) && Indexes(ModeOf(i))
    ensures Found(s, i)
  {
    hide ModeOf, Exec, DataOf, Byte, Slots, Word, Join, CanStep, Steps, Addressing, Index, IsShort, Base, Address;
    hide CyclesToFind, OperandBytes, HasAddress, MayCross, Indexes, WithHigh;
    WithHighFields(s.r.(pc := Word(s.r.pc + 2), ea := FirstByte(s)), SecondByte(s), Index(ModeOf(i), s));
    var mode := ModeOf(i);
    IndexedModes(mode, s);
    IndexedStart(s, i);
    IndexAdds(SecondByte(s), FirstByte(s), Index(mode, s));
    HiOfJoin(SecondByte(s), FirstByte(s));
    var t := Steps(s, 2);
    if t.r.adlCarry || !IsShort(mode) {
      FixesPage(s, 2, i, 2);
    }
  }

  lemma HiOfJoin(hi: u8, lo: u8)
    ensures Hi(Join(hi, lo)) == hi && Lo(Join(hi, lo)) == lo && Lo(lo) == lo
  {
  }

  // ----- Through a pointer -----

  /** Two cycles read the address at the pointer. */
  lemma ReadsPointer(s: Cpu, i: u8)
    requires CanStep(s, 2) && Steps(s, 2).c.cycleCount == 8 * i + 2
    requires ModeOf(i).Indirect? || ModeOf(i).IndirectX?
    ensures CanStep(s, 4)
    ensures var t := Steps(s, 2);
            var u := Steps(s, 4);
            && u.mem == t.mem && u.c == t.c.(cycleCount := 8 * i + 4)
            && u.r == t.r.(ea := PointedTo(t.mem, t.r.pointer), pointer := u.r.pointer)
  {
    hide Steps, CanStep;
    hide ModeOf, Exec, DataOf, Word, Byte, Slots, Join, Hi, Lo;
    var t := Steps(s, 2);
    Find(s, 2, i, 2);
    PointerEffects(t);
    Find(s, 3, i, 3);
    EffectiveEffects(Steps(s, 3));
  }

  lemma FindIndirect(s: Cpu, i: u8)
    requires Begins(s, i) && ModeOf(i).Indirect?
    ensures Found(s, i)
  {
    hide Steps, CanStep;
    hide ModeOf, Exec, DataOf, Word, Byte, Slots, Join, Hi, Lo, PointedTo;
    FindFirst(s, i);
    LowEffects(s);
    var t := Steps(s, 1);
    Find(s, 1, i, 1);
    PointerEffects(t);
    HiOfJoin(0, FirstByte(s));
    PcMoves(s.r.pc);
    ReadsPointer(s, i);
    WordOfWord(PointedTo(s.mem, OperandWord(s)));
  }

  lemma FindIndirectX(s: Cpu, i: u8)
    requires Begins(s, i) && ModeOf(i).IndirectX?
    ensures Found(s, i)
  {
    hide Steps, CanStep;
    hide ModeOf, Exec, DataOf, Word, Byte, Slots, PointedTo;
    FindFirst(s, i);
    LowEffects(s);
    var t := Steps(s, 1);
    Find(s, 1, i, 1);
    PointerEffects(t);
    ReadsPointer(s, i);
    WordOfWord(PointedTo(s.mem, Byte(FirstByte(s) + s.r.x)));
  }

  lemma PointerModes(mode: Mode, s: Cpu)
    requires mode.IndirectY? || mode.IndirectY2?
    ensures Base(mode, s) == PointedTo(s.mem, FirstByte(s)) && Address(mode, s) == Word(Base(mode, s) + s.r.y)
    ensures |Addressing(mode)| == 4 && Addressing(mode)[0].op == FetchLowPointer && Addressing(mode)[1].op == FetchLowEffAddr
    ensures Addressing(mode)[2].op == (if IsShort(mode) then FetchHighEffAddrY2 else FetchHighEffAddrY)
    ensures Addressing(mode)[3].op == ThrowAwayRead
    ensures OperandBytes(mode) == 1 && mode != Immediate
    ensures CyclesToFind(mode, s) == if IsShort(mode) && !Crosses(mode, s) then 3 else 4
  {
    hide Word, PointedTo;
  }

  lemma ThirdCycle(mode: Mode, t: Cpu)
    requires (mode.IndirectY? || mode.IndirectY2?) && t.r.ea < 0x100
    ensures var p := Join(Hi(t.r.pointer), Byte(Lo(t.r.pointer) + 1));
            var r := WithHigh(t.r.(pointer := p), t.mem[p], t.r.y);
            Exec(Addressing(mode)[2].op, t).0
            == Cpu(r, t.c.(cycleCount := t.c.cycleCount + if IsShort(mode) && !r.adlCarry then 2 else 1), t.mem)
  {
    hide Exec, DataOf, Byte, Word, Join, WithHigh, Hi, Lo;
    EffectiveEffects(t);
    if IsShort(mode) {
      ShortStep(Addressing(mode)[2].op, t);
    } else {
      FindsStep(Addressing(mode)[2].op, t);
    }
  }

  /** The cell behind p in page zero. */
  function After(p: u8): u16 { Byte(p + 1) }

  /** Two cycles fetch the pointer and read its low byte. */
  lemma PointerLow(s: Cpu, i: u8)
    requires Begins(s, i) && (ModeOf(i).IndirectY? || ModeOf(i).IndirectY2?)
    ensures CanStep(s, 2)
    ensures var p := FirstByte(s);
            Steps(s, 2) == Cpu(s.r.(pc := Word(s.r.pc + 1), pointer := p, ea := s.mem[p]), s.c.(cycleCount := 8 * i + 2), s.mem)
  {
    hide Steps, CanStep;
    hide ModeOf, Exec, DataOf, Slots, Word, Addressing, Base, Crosses, CyclesToFind, Address, IsShort;
    PointerModes(ModeOf(i), s);
    FindFirst(s, i);
    LowEffects(s);
    Find(s, 1, i, 1);
    PointerEffects(Steps(s, 1));
  }

  /** Three cycles read the address at the pointer and add Y to its low byte. */
  lemma PointerStart(s: Cpu, i: u8)
    requires Begins(s, i) && (ModeOf(i).IndirectY? || ModeOf(i).IndirectY2?)
    ensures CanStep(s, 3)
    ensures var t := Steps(s, 3);
            var p := FirstByte(s);
            && t.mem == s.mem
            && t.r == WithHigh(s.r.(pc := Word(s.r.pc + 1), ea := s.mem[p], pointer := After(p)), s.mem[After(p)], s.r.y)
            && t.c == s.c.(cycleCount := s.c.cycleCount + if IsShort(ModeOf(i)) && !t.r.adlCarry then 4 else 3)
  {
    hide Steps, CanStep;
    hide ModeOf, Exec, Slots, Word, WithHigh, Addressing, Base, Crosses, CyclesToFind, Address, IsShort;
    hide Hi, Lo, Byte;
    PointerModes(ModeOf(i), s);
    PointerLow(s, i);
    Advance(s, 2, i, 2);
    ThirdCycle(ModeOf(i), Steps(s, 2));
    HiOfByte(FirstByte(s));
  }

  lemma HiOfByte(b: u8)
    ensures Hi(b) == 0 && Lo(b) == b
  {
  }

  lemma PointedInZero(mem: Memory, p: u8)
    ensures PointedTo(mem, p) == Join(mem[After(p)], mem[p])
  {
  }

  lemma FindThroughPointer(s: Cpu, i: u8)
    requires Begins(s, i) && (ModeOf(i).IndirectY? || ModeOf(i).IndirectY2?)
    ensures Found(s, i)
  {
    hide ModeOf, Exec, DataOf, Byte, Slots, Word, Join, CanStep, Steps, Addressing, IsShort, Base, Address;
    hide CyclesToFind, OperandBytes, HasAddress, MayCross, WithHigh, Hi, Lo, After, PointedTo;
    var mode := ModeOf(i);
    var p := FirstByte(s);
    PointerModes(mode, s);
    PointerStart(s, i);
    var hi := s.mem[After(p)];
    WithHighFields(s.r.(pc := Word(s.r.pc + 1), ea := s.mem[p], pointer := After(p)), hi, s.r.y);
    PointedInZero(s.mem, p);
    HiOfByte(p);
    IndexAdds(hi, s.mem[p], s.r.y);
    HiOfJoin(hi, s.mem[p]);
    var t := Steps(s, 3);
    if t.r.adlCarry || !IsShort(mode) {
      FixesPage(s, 3, i, 3);
    }
  }

  /** Every addressing mode finds its operand, in the cycles it should take. */
  lemma EveryModeFinds(s: Cpu, i: u8)
    requires Begins(s, i) && ModeOf(i) != NoMode
    ensures Found(s, i)
  {
    hide ModeOf, Found, Begins;
    match ModeOf(i)
    case Implied => FindOneCycle(s, i);
    case Immediate => FindOneCycle(s, i);
    case ZeroPage => FindOneCycle(s, i);
    case ZeroPageX => FindZeroPage(s, i);
    case ZeroPageY => FindZeroPage(s, i);
    case Absolute => FindAbsolute(s, i);
    case AbsoluteX => FindIndexed(s, i);
    case AbsoluteX2 => FindIndexed(s, i);
    case AbsoluteY => FindIndexed(s, i);
    case AbsoluteY2 => FindIndexed(s, i);
    case Indirect => FindIndirect(s, i);
    case IndirectX => FindIndirectX(s, i);
    case IndirectY => FindThroughPointer(s, i);
    case IndirectY2 => FindThroughPointer(s, i);
  }
}
