/**
 Instruction decoding, told from the bits of the opcode: opcode = 0x20 * a + 4 * b + c. The table of the
 original (src/c64/CPU/mos6510.cpp, src/c64/CPU/opcodes.h) lists every opcode by name; here instruction and
 addressing mode are read off the three fields, as the decoder of the processor does it.
 */
module CpuDecode {
  import opened CpuTable
  import opened CpuCore

  type Octal = x: int | 0 <= x < 8
  type Quarter = x: int | 0 <= x < 4

  function Opcode(a: Octal, b: Octal, c: Quarter): u8 { 0x20 * a + 4 * b + c }

  /** Every opcode has its three fields. */
  lemma FieldsOf(i: u8)
    ensures Opcode(i / 0x20, i / 4 % 8, i % 4) == i
  {
  }

  // ----- The instruction by its fields -----

  /** c == 1: the accumulator and an operand. */
  function Accumulator(a: Octal): Instr {
    match a
    case 0 => AluI(Ora)
    case 1 => AluI(And)
    case 2 => AluI(Eor)
    case 3 => AluI(Adc)
    case 4 => StoreI(Sta)
    case 5 => AluI(Lda)
    case 6 => AluI(Cmp)
    case 7 => AluI(Sbc)
  }

  /** c == 2: shifts, X, and counting in memory. */
  function Modify(a: Octal): Instr {
    match a
    case 0 => RmwI(Asl)
    case 1 => RmwI(Rol)
    case 2 => RmwI(Lsr)
    case 3 => RmwI(Ror)
    case 4 => StoreI(Stx)
    case 5 => AluI(Ldx)
    case 6 => RmwI(Dec)
    case 7 => RmwI(Inc)
  }

  /** c == 2, b == 2: the same on a register. */
  function ModifyRegister(a: Octal): Instr {
    match a
    case 0 => AluI(Asla)
    case 1 => AluI(Rola)
    case 2 => AluI(Lsra)
    case 3 => AluI(Rora)
    case 4 => AluI(Txa)
    case 5 => AluI(Tax)
    case 6 => AluI(Dex)
    case 7 => NopI
  }

  /** c == 3: the undocumented instructions do the work of columns 1 and 2 together. */
  function Combined(a: Octal): Instr {
    match a
    case 0 => RmwI(Aso)
    case 1 => RmwI(Rla)
    case 2 => RmwI(Lse)
    case 3 => RmwI(Rra)
    case 4 => StoreI(Axs)
    case 5 => AluI(Lax)
    case 6 => RmwI(Dcm)
    case 7 => RmwI(Ins)
  }

  /** c == 3, b == 2: undocumented instructions with an immediate operand. */
  function CombinedImmediate(a: Octal): Instr {
    match a
    case 0 => AluI(Anc)
    case 1 => AluI(Anc)
    case 2 => AluI(Alr)
    case 3 => AluI(Arr)
    case 4 => AluI(Ane)
    case 5 => AluI(Oal)
    case 6 => AluI(Sbx)
    case 7 => AluI(Sbc)
  }

  /** c == 0 with an operand in memory: Y and the comparisons of the index registers. */
  function Registers(a: Octal, b: Octal): Instr {
    match a
    case 0 => NopI
    case 1 => if b == 1 || b == 3 then AluI(Bit) else NopI
    case 2 => if b == 3 then JmpI else NopI
    case 3 => if b == 3 then JmpI else NopI
    case 4 => StoreI(if b == 7 then Say else Sty)
    case 5 => AluI(Ldy)
    case 6 => if b < 4 then AluI(Cpy) else NopI
    case 7 => if b < 4 then AluI(Cpx) else NopI
  }

  /** c == 0, b == 0 */
  function Calls(a: Octal): Instr {
    match a
    case 0 => BrkI
    case 1 => JsrI
    case 2 => RtiI
    case 3 => RtsI
    case 4 => NopI
    case 5 => AluI(Ldy)
    case 6 => AluI(Cpy)
    case 7 => AluI(Cpx)
  }

  /** c == 0, b == 2 */
  function StackAndCount(a: Octal): Instr {
    match a
    case 0 => PhpI
    case 1 => PlpI
    case 2 => PhaI
    case 3 => PlaI
    case 4 => AluI(Dey)
    case 5 => AluI(Tay)
    case 6 => AluI(Iny)
    case 7 => AluI(Inx)
  }

  /** c == 0, b == 6 */
  function FlagInstr(a: Octal): Instr {
    match a
    case 0 => AluI(Clc)
    case 1 => AluI(Sec)
    case 2 => AluI(Cli)
    case 3 => AluI(Sei)
    case 4 => AluI(Tya)
    case 5 => AluI(Clv)
    case 6 => AluI(Cld)
    case 7 => AluI(Sed)
  }

  /** c == 0, b == 4 */
  function BranchOf(a: Octal): Condition {
    match a
    case 0 => Bpl
    case 1 => Bmi
    case 2 => Bvc
    case 3 => Bvs
    case 4 => Bcc
    case 5 => Bcs
    case 6 => Bne
    case 7 => Beq
  }

  function Column0(a: Octal, b: Octal): Instr {
    match b
    case 0 => Calls(a)
    case 2 => StackAndCount(a)
    case 4 => BranchI(BranchOf(a))
    case 6 => FlagInstr(a)
    case _ => Registers(a, b)
  }

  /** An immediate operand cannot be stored to: $89 does nothing. */
  function Column1(a: Octal, b: Octal): Instr {
    if b == 2 && a == 4 then NopI else Accumulator(a)
  }

  function Column2(a: Octal, b: Octal): Instr {
    match b
    case 0 => if a < 4 then NoInstr else if a == 5 then AluI(Ldx) else NopI
    case 2 => ModifyRegister(a)
    case 4 => NoInstr
    case 6 => if a == 4 then AluI(Txs) else if a == 5 then AluI(Tsx) else NopI
    case 7 => if a == 4 then StoreI(Xas) else Modify(a)
    case _ => Modify(a)
  }

  function Column3(a: Octal, b: Octal): Instr {
    if b == 2 then CombinedImmediate(a)
    else if a == 4 && (b == 4 || b == 7) then StoreI(Axa)
    else if a == 4 && b == 6 then StoreI(Shs)
    else if a == 5 && b == 6 then AluI(Las)
    else Combined(a)
  }

  function InstrByFields(a: Octal, b: Octal, c: Quarter): Instr {
    match c
    case 0 => Column0(a, b)
    case 1 => Column1(a, b)
    case 2 => Column2(a, b)
    case 3 => Column3(a, b)
  }

  // ----- The addressing mode by its fields -----

  predicate IsOdd(x: int) { x % 2 == 1 }

  /** The halting opcodes have neither an instruction nor an addressing mode. */
  predicate Halts(a: Octal, b: Octal, c: Quarter) { c == 2 && (b == 4 || (b == 0 && a < 4)) }

  /** Where X is the operand, Y is the index. */
  predicate IndexIsY(a: Octal, c: Quarter) { c >= 2 && (a == 4 || a == 5) }

  /** The indexed instructions that only read may skip the cycle that puts the page right. */
  predicate MaySkipCycle(a: Octal, c: Quarter) { a == 5 || (a != 4 && c <= 1) }

  function IndexedMode(y: bool, shorter: bool): Mode {
    if y then (if shorter then AbsoluteY2 else AbsoluteY) else if shorter then AbsoluteX2 else AbsoluteX
  }

  function ModeByFields(a: Octal, b: Octal, c: Quarter): Mode {
    if Halts(a, b, c) then NoMode
    else
      match b
      case 0 => if IsOdd(c) then IndirectX else if a == 1 then ZeroPage else Immediate
      case 1 => ZeroPage
      case 2 => if IsOdd(c) then Immediate else Implied
      case 3 => if a == 3 && c == 0 then Indirect else Absolute
      case 4 => if !IsOdd(c) then Immediate else if MaySkipCycle(a, c) then IndirectY2 else IndirectY
      case 5 => if IndexIsY(a, c) then ZeroPageY else ZeroPageX
      case 6 => if IsOdd(c) then IndexedMode(true, MaySkipCycle(a, c)) else Implied
      case 7 => IndexedMode(IndexIsY(a, c), MaySkipCycle(a, c))
  }

  /** Is the operand in memory and needed before the work begins? */
  predicate OperandInMemory(instr: Instr, mode: Mode) {
    (instr.AluI? || instr.NopI? || instr.RmwI?) && mode != Implied && mode != Immediate && mode != NoMode
  }

  // ----- The table agrees -----

  lemma Instr00(i: u8)
    requires i / 0x20 == 0
    ensures InstrFrom00(i) == InstrByFields(0, i / 4 % 8, i % 4)
  {
    match i % 4
    case 0 =>
    case 1 =>
    case 2 =>
    case 3 =>
  }

  lemma Instr20(i: u8)
    requires i / 0x20 == 1
    ensures InstrFrom20(i) == InstrByFields(1, i / 4 % 8, i % 4)
  {
    match i % 4
    case 0 =>
    case 1 =>
    case 2 =>
    case 3 =>
  }

  lemma Instr40(i: u8)
    requires i / 0x20 == 2
    ensures InstrFrom40(i) == InstrByFields(2, i / 4 % 8, i % 4)
  {
    match i % 4
    case 0 =>
    case 1 =>
    case 2 =>
    case 3 =>
  }

  lemma Instr60(i: u8)
    requires i / 0x20 == 3
    ensures InstrFrom60(i) == InstrByFields(3, i / 4 % 8, i % 4)
  {
    match i % 4
    case 0 =>
    case 1 =>
    case 2 =>
    case 3 =>
  }

  lemma Instr80(i: u8)
    requires i / 0x20 == 4
    ensures InstrFrom80(i) == InstrByFields(4, i / 4 % 8, i % 4)
  {
    match i % 4
    case 0 =>
    case 1 =>
    case 2 =>
    case 3 =>
  }

  lemma Instra0(i: u8)
    requires i / 0x20 == 5
    ensures InstrFroma0(i) == InstrByFields(5, i / 4 % 8, i % 4)
  {
    match i % 4
    case 0 =>
    case 1 =>
    case 2 =>
    case 3 =>
  }

  lemma Instrc0(i: u8)
    requires i / 0x20 == 6
    ensures InstrFromc0(i) == InstrByFields(6, i / 4 % 8, i % 4)
  {
    match i % 4
    case 0 =>
    case 1 =>
    case 2 =>
    case 3 =>
  }

  lemma Instre0(i: u8)
    requires i / 0x20 == 7
    ensures InstrFrome0(i) == InstrByFields(7, i / 4 % 8, i % 4)
  {
    match i % 4
    case 0 =>
    case 1 =>
    case 2 =>
    case 3 =>
  }

  lemma Mode00(i: u8)
    requires i / 0x20 == 0
    ensures ModeFrom00(i) == ModeByFields(0, i / 4 % 8, i % 4)
  {
    match i % 4
    case 0 =>
    case 1 =>
    case 2 =>
    case 3 =>
  }

  lemma Mode20(i: u8)
    requires i / 0x20 == 1
    ensures ModeFrom20(i) == ModeByFields(1, i / 4 % 8, i % 4)
  {
    match i % 4
    case 0 =>
    case 1 =>
    case 2 =>
    case 3 =>
  }

  lemma Mode40(i: u8)
    requires i / 0x20 == 2
    ensures ModeFrom40(i) == ModeByFields(2, i / 4 % 8, i % 4)
  {
    match i % 4
    case 0 =>
    case 1 =>
    case 2 =>
    case 3 =>
  }

  lemma Mode60(i: u8)
    requires i / 0x20 == 3
    ensures ModeFrom60(i) == ModeByFields(3, i / 4 % 8, i % 4)
  {
    match i % 4
    case 0 =>
    case 1 =>
    case 2 =>
    case 3 =>
  }

  lemma Mode80(i: u8)
    requires i / 0x20 == 4
    ensures ModeFrom80(i) == ModeByFields(4, i / 4 % 8, i % 4)
  {
    match i % 4
    case 0 =>
    case 1 =>
    case 2 =>
    case 3 =>
  }

  lemma Modea0(i: u8)
    requires i / 0x20 == 5
    ensures ModeFroma0(i) == ModeByFields(5, i / 4 % 8, i % 4)
  {
    match i % 4
    case 0 =>
    case 1 =>
    case 2 =>
    case 3 =>
  }

  lemma Modec0(i: u8)
    requires i / 0x20 == 6
    ensures ModeFromc0(i) == ModeByFields(6, i / 4 % 8, i % 4)
  {
    match i % 4
    case 0 =>
    case 1 =>
    case 2 =>
    case 3 =>
  }

  lemma Modee0(i: u8)
    requires i / 0x20 == 7
    ensures ModeFrome0(i) == ModeByFields(7, i / 4 % 8, i % 4)
  {
    match i % 4
    case 0 =>
    case 1 =>
    case 2 =>
    case 3 =>
  }

  lemma Reads00(i: u8)
    requires i / 0x20 == 0
    ensures ReadsOperand(i) == OperandInMemory(InstrByFields(0, i / 4 % 8, i % 4), ModeByFields(0, i / 4 % 8, i % 4))
  {
  }

  lemma Reads20(i: u8)
    requires i / 0x20 == 1
    ensures ReadsOperand(i) == OperandInMemory(InstrByFields(1, i / 4 % 8, i % 4), ModeByFields(1, i / 4 % 8, i % 4))
  {
  }

  lemma Reads40(i: u8)
    requires i / 0x20 == 2
    ensures ReadsOperand(i) == OperandInMemory(InstrByFields(2, i / 4 % 8, i % 4), ModeByFields(2, i / 4 % 8, i % 4))
  {
  }

  lemma Reads60(i: u8)
    requires i / 0x20 == 3
    ensures ReadsOperand(i) == OperandInMemory(InstrByFields(3, i / 4 % 8, i % 4), ModeByFields(3, i / 4 % 8, i % 4))
  {
  }

  lemma Reads80(i: u8)
    requires i / 0x20 == 4
    ensures ReadsOperand(i) == OperandInMemory(InstrByFields(4, i / 4 % 8, i % 4), ModeByFields(4, i / 4 % 8, i % 4))
  {
  }

  lemma Readsa0(i: u8)
    requires i / 0x20 == 5
    ensures ReadsOperand(i) == OperandInMemory(InstrByFields(5, i / 4 % 8, i % 4), ModeByFields(5, i / 4 % 8, i % 4))
  {
  }

  lemma Readsc0(i: u8)
    requires i / 0x20 == 6
    ensures ReadsOperand(i) == OperandInMemory(InstrByFields(6, i / 4 % 8, i % 4), ModeByFields(6, i / 4 % 8, i % 4))
  {
  }

  lemma Readse0(i: u8)
    requires i / 0x20 == 7
    ensures ReadsOperand(i) == OperandInMemory(InstrByFields(7, i / 4 % 8, i % 4), ModeByFields(7, i / 4 % 8, i % 4))
  {
  }

  /** The table is the decoding of the three fields, for all 256 opcodes. */
  lemma Decoding(i: u8)
    ensures InstrOf(i) == InstrByFields(i / 0x20, i / 4 % 8, i % 4)
    ensures ModeOf(i) == ModeByFields(i / 0x20, i / 4 % 8, i % 4)
    ensures ReadsOperand(i) <==> OperandInMemory(InstrOf(i), ModeOf(i))
  {
    InstrDecoding(i);
    ModeDecoding(i);
    ReadsDecoding(i);
    hide InstrByFields, ModeByFields, InstrOf, ModeOf, ReadsOperand, OperandInMemory;
  }

  lemma InstrDecoding(i: u8)
    ensures InstrOf(i) == InstrByFields(i / 0x20, i / 4 % 8, i % 4)
  {
    hide InstrByFields, InstrFrom00, InstrFrom20, InstrFrom40, InstrFrom60, InstrFrom80, InstrFroma0, InstrFromc0, InstrFrome0;
    match i / 0x20
    case 0 => Instr00(i);
    case 1 => Instr20(i);
    case 2 => Instr40(i);
    case 3 => Instr60(i);
    case 4 => Instr80(i);
    case 5 => Instra0(i);
    case 6 => Instrc0(i);
    case 7 => Instre0(i);
  }

  lemma ModeDecoding(i: u8)
    ensures ModeOf(i) == ModeByFields(i / 0x20, i / 4 % 8, i % 4)
  {
    hide ModeByFields, ModeFrom00, ModeFrom20, ModeFrom40, ModeFrom60, ModeFrom80, ModeFroma0, ModeFromc0, ModeFrome0;
    match i / 0x20
    case 0 => Mode00(i);
    case 1 => Mode20(i);
    case 2 => Mode40(i);
    case 3 => Mode60(i);
    case 4 => Mode80(i);
    case 5 => Modea0(i);
    case 6 => Modec0(i);
    case 7 => Modee0(i);
  }

  lemma ReadsDecoding(i: u8)
    ensures ReadsOperand(i) == OperandInMemory(InstrByFields(i / 0x20, i / 4 % 8, i % 4), ModeByFields(i / 0x20, i / 4 % 8, i % 4))
  {
    hide ReadsOperand, OperandInMemory, InstrByFields, ModeByFields;
    match i / 0x20
    case 0 => Reads00(i);
    case 1 => Reads20(i);
    case 2 => Reads40(i);
    case 3 => Reads60(i);
    case 4 => Reads80(i);
    case 5 => Readsa0(i);
    case 6 => Readsc0(i);
    case 7 => Readse0(i);
  }

  // ----- What the fields tell -----

  lemma EmptyRows(a: Octal, b: Octal, c: Quarter)
    ensures InstrByFields(a, b, c) == NoInstr <==> Halts(a, b, c)
    ensures ModeByFields(a, b, c) == NoMode <==> Halts(a, b, c)
  {
  }

  lemma HaltFields(i: u8)
    ensures Halts(i / 0x20, i / 4 % 8, i % 4) <==> i % 0x20 == 0x12 || i in {0x02, 0x22, 0x42, 0x62}
  {
  }

  /** The opcodes that stop the processor are those of column 2 in rows 0 and 4. */
  lemma HaltDecoding(i: u8)
    ensures InstrOf(i) == NoInstr <==> i % 0x20 == 0x12 || i in {0x02, 0x22, 0x42, 0x62}
    ensures ModeOf(i) == NoMode <==> InstrOf(i) == NoInstr
  {
    Decoding(i);
    EmptyRows(i / 0x20, i / 4 % 8, i % 4);
    HaltFields(i);
    hide InstrOf, ModeOf, ReadsOperand, InstrByFields, ModeByFields, Halts;
  }

  /** Among the indexed modes the short form is for what only reads, and for nothing else. */
  lemma OnlyReadersSkip(i: u8)
    requires ModeOf(i) in {AbsoluteX, AbsoluteX2, AbsoluteY, AbsoluteY2, IndirectY, IndirectY2}
    ensures ModeOf(i) in {AbsoluteX2, AbsoluteY2, IndirectY2} <==> InstrOf(i).AluI? || InstrOf(i).NopI?
    ensures InstrOf(i).AluI? || InstrOf(i).NopI? || InstrOf(i).RmwI? || InstrOf(i).StoreI?
  {
    Decoding(i);
    hide InstrOf, ModeOf, ReadsOperand;
  }

  /** The flag a branch looks at. */
  predicate TestedFlag(which: int, f: Flags) {
    match which
    case 0 => f.n
    case 1 => f.v
    case 2 => f.c
    case _ => f.z
  }

  lemma ConditionByBits(a: Octal, f: Flags)
    ensures Holds(BranchOf(a), f) <==> TestedFlag(a / 2, f) == (a % 2 == 1)
  {
  }

  lemma BranchFields(i: u8)
    ensures i % 0x20 == 0x10 <==> i / 4 % 8 == 4 && i % 4 == 0
    ensures i / 0x20 / 2 == i / 0x40
  {
  }

  lemma BranchInstr(a: Octal, b: Octal, c: Quarter)
    ensures InstrByFields(a, b, c).BranchI? <==> b == 4 && c == 0
    ensures InstrByFields(a, 4, 0) == BranchI(BranchOf(a)) && ModeByFields(a, 4, 0) == Immediate
  {
  }

  /** Of all opcodes exactly those of row 4 in column 0 branch. */
  lemma OnlyBranches(i: u8)
    ensures InstrOf(i).BranchI? <==> i % 0x20 == 0x10
    ensures i % 0x20 == 0x10 ==>
            InstrOf(i) == BranchI(BranchOf(i / 0x20)) && ModeOf(i) == Immediate && !ReadsOperand(i)
  {
    hide InstrOf, ModeOf, ReadsOperand, InstrByFields, ModeByFields, BranchOf;
    Decoding(i);
    BranchFields(i);
    BranchInstr(i / 0x20, i / 4 % 8, i % 4);
  }

  /** A branch is taken exactly when the flag bits 6 and 7 of the opcode select equals bit 5. */
  lemma BranchDecoding(i: u8, f: Flags)
    requires i % 0x20 == 0x10
    ensures InstrOf(i).BranchI?
    ensures Holds(InstrOf(i).condition, f) <==> TestedFlag(i / 0x40, f) == (i / 0x20 % 2 == 1)
  {
    hide InstrOf, ModeOf, ReadsOperand, TestedFlag, Holds, BranchOf;
    OnlyBranches(i);
    ConditionByBits(i / 0x20, f);
    BranchFields(i);
  }

  /** The row of a branch. */
  lemma BranchRow(i: u8)
    requires i % 0x20 == 0x10
    ensures InstrOf(i).BranchI?
    ensures Slots(i) ==
            [Free(FetchDataByte), Free(Branch(InstrOf(i).condition)), Free(FixBranch), Free(InterruptsAndNextOpcode)]
  {
    OnlyBranches(i);
    hide InstrOf, ModeOf, ReadsOperand, BranchOf;
  }
}
