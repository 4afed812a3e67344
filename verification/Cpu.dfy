/**
 The 6510 (src/c64/CPU/mos6510.cpp, src/c64/CPU/mos6510.h) as a value: registers, the control state of the
 sequencer, and one micro-operation per cycle. The bus is an arbitrary 64K memory.
 */
module CpuCore {
  import opened CpuTable

  type Memory = m: seq<u8> | |m| == 0x1_0000 witness seq(0x1_0000, _ => 0)

  datatype Flags = Flags(c: bool, z: bool, d: bool, v: bool, n: bool)

  /** Registers and the data of the instruction in progress. */
  datatype Regs = Regs(
    pc: u16, ea: u16, pointer: u16, data: u8,
    s: u8, a: u8, x: u8, y: u8, adlCarry: bool, f: Flags)

  /** "No interrupt" and, negated, "asserted during some previous instruction". */
  const MAX := 65536
  const INTERRUPT_DELAY := 2

  /** The sequencer: the interrupt flag of the status register belongs to it. */
  datatype Ctl = Ctl(
    cycleCount: int, interruptCycle: int, irq: bool, nmi: bool, rst: bool,
    d1x1: bool, rdyOnThrowAwayRead: bool, i: bool)

  datatype Cpu = Cpu(r: Regs, c: Ctl, mem: Memory)

  /** The bus access of a cycle. */
  datatype Bus = NoAccess | ReadBus(addr: u16) | WriteBus(addr: u16, value: u8)

  // ----- Bytes -----

  function Byte(x: int): u8 { x % 0x100 }
  function Word(x: int): u16 { x % 0x1_0000 }
  function Lo(w: u16): u8 { w % 0x100 }
  function Hi(w: u16): u8 { w / 0x100 }
  function Join(hi: u8, lo: u8): u16 { 0x100 * hi + lo }
  function WithLo(w: u16, lo: u8): u16 { Join(Hi(w), lo) }
  function WithHi(w: u16, hi: u8): u16 { Join(hi, Lo(w)) }

  /** A byte read as a signed number. */
  function Signed(b: u8): int { if b < 0x80 then b else b - 0x100 }

  function AndB(a: u8, b: u8): u8 { ((a as bv8) & (b as bv8)) as int }
  function OrB(a: u8, b: u8): u8 { ((a as bv8) | (b as bv8)) as int }
  function XorB(a: u8, b: u8): u8 { ((a as bv8) ^ (b as bv8)) as int }

  predicate HasBit(x: int, weight: int)
    requires weight > 0
  {
    x / weight % 2 == 1
  }

  function Weight(on: bool, w: int): int { if on then w else 0 }

  function SetNZ(f: Flags, value: u8): Flags { f.(z := value == 0, n := value >= 0x80) }

  /** The status register without its two constant bits. */
  function PackFlags(f: Flags, i: bool): u8 {
    Weight(f.c, 0x01) + Weight(f.z, 0x02) + Weight(i, 0x04) + Weight(f.d, 0x08) + Weight(f.v, 0x40) + Weight(f.n, 0x80)
  }

  function UnpackFlags(sr: u8): Flags {
    Flags(HasBit(sr, 0x01), HasBit(sr, 0x02), HasBit(sr, 0x08), HasBit(sr, 0x40), HasBit(sr, 0x80))
  }

  function UnpackI(sr: u8): bool { HasBit(sr, 0x04) }

  // ----- Arithmetic -----

  /** The low digit of a decimal sum, adjusted: bit 4 is the carry into the high digit. */
  function AddLow(a: u8, s: u8, c: int): int {
    var lo := a % 0x10 + s % 0x10 + c;
    if lo > 0x09 then lo + 0x06 else lo
  }

  /** The high digit of a decimal sum before its own adjustment: N and V are taken from here. */
  function AddMiddle(a: u8, s: u8, c: int): int {
    a / 0x10 * 0x10 + s / 0x10 * 0x10 + (if AddLow(a, s, c) > 0x0f then 0x10 else 0)
  }

  function AddHigh(a: u8, s: u8, c: int): int {
    var hi := AddMiddle(a, s, c);
    if hi > 0x90 then hi + 0x60 else hi
  }

  /** BCD and binary addition. */
  function DoADC(r: Regs): Regs {
    var c := Weight(r.f.c, 1);
    var sum := r.a + r.data + c;
    if r.f.d then
      var n := HasBit(AddMiddle(r.a, r.data, c), 0x80);
      var hi := AddHigh(r.a, r.data, c);
      r.(f := Flags(hi > 0xff, sum % 0x100 == 0, true, n != (r.a >= 0x80) && (r.a >= 0x80) == (r.data >= 0x80), n),
         a := Byte(hi / 0x10 * 0x10 + AddLow(r.a, r.data, c) % 0x10))
    else
      var v := HasBit(sum, 0x80) != (r.a >= 0x80) && (r.a >= 0x80) == (r.data >= 0x80);
      r.(f := SetNZ(r.f.(c := sum > 0xff, v := v), Byte(sum)), a := Byte(sum))
  }

  /** The low digit of a decimal difference in unsigned 32-bit arithmetic: a borrow shows as bit 4. */
  function SubLow(a: u8, s: u8, c: int): int { a % 0x10 - s % 0x10 - c }

  /** The high digit of a decimal difference: a borrow shows as bit 8. */
  function SubHigh(a: u8, s: u8, c: int): int {
    a / 0x10 * 0x10 - s / 0x10 * 0x10 - (if HasBit(SubLow(a, s, c), 0x10) then 0x10 else 0)
  }

  /** The adjusted digits of a decimal difference. */
  function SubDecimal(a: u8, s: u8, c: int): u8 {
    var lo := SubLow(a, s, c);
    var hi := SubHigh(a, s, c);
    var low := if HasBit(lo, 0x10) then lo - 0x06 else lo;
    var high := if HasBit(hi, 0x100) then hi - 0x60 else hi;
    Byte(high / 0x10 * 0x10 + low % 0x10)
  }

  /** BCD and binary subtraction: the flags are those of the binary difference. */
  function DoSBC(r: Regs): Regs {
    var c := Weight(!r.f.c, 1);
    var diff := r.a - r.data - c;
    var v := HasBit(diff, 0x80) != (r.a >= 0x80) && (r.a >= 0x80) != (r.data >= 0x80);
    var f := SetNZ(r.f.(c := diff >= 0, v := v), Byte(diff));
    r.(f := f, a := if r.f.d then SubDecimal(r.a, r.data, c) else Byte(diff))
  }

  function Compare(r: Regs, reg: u8): Regs {
    r.(f := SetNZ(r.f.(c := reg >= r.data), Byte(reg - r.data)))
  }

  function LoadA(r: Regs, value: u8): Regs { r.(a := value, f := SetNZ(r.f, value)) }
  function LoadX(r: Regs, value: u8): Regs { r.(x := value, f := SetNZ(r.f, value)) }
  function LoadY(r: Regs, value: u8): Regs { r.(y := value, f := SetNZ(r.f, value)) }

  function RotateLeft(value: u8, carry: bool): u8 { Byte(value * 2 + Weight(carry, 1)) }
  function RotateRight(value: u8, carry: bool): u8 { value / 2 + Weight(carry, 0x80) }

  function DoARR(r: Regs): Regs {
    var data := AndB(r.data, r.a);
    var a := RotateRight(data, r.f.c);
    if r.f.d then
      var a1 := if data % 0x10 + data % 2 > 5 then a / 0x10 * 0x10 + (a + 6) % 0x10 else a;
      var c := (data + Weight(HasBit(data, 0x10), 0x10)) / 0x10 * 0x10 > 0x50;
      r.(a := if c then Byte(a1 + 0x60) else a1,
         f := r.f.(n := r.f.c, z := a == 0, v := HasBit(data, 0x40) != HasBit(a, 0x40), c := c))
    else
      r.(a := a, f := SetNZ(r.f, a).(c := HasBit(a, 0x40), v := HasBit(a, 0x40) != HasBit(a, 0x20)))
  }

  /** What an instruction that ends in the next opcode fetch does to the registers. */
  function AluStep(op: AluOp, r: Regs): Regs {
    match op
    case Adc => DoADC(r)
    case Sbc => DoSBC(r)
    case And => LoadA(r, AndB(r.a, r.data))
    case Ora => LoadA(r, OrB(r.a, r.data))
    case Eor => LoadA(r, XorB(r.a, r.data))
    case Anc => var t := LoadA(r, AndB(r.a, r.data)); t.(f := t.f.(c := t.f.n))
    case Ane => LoadA(r, AndB(AndB(OrB(r.a, 0xef), r.x), r.data))
    case Oal => var v := AndB(r.data, OrB(r.a, 0xee)); LoadA(r, v).(x := v)
    case Alr => var v := AndB(r.a, r.data); LoadA(r.(f := r.f.(c := v % 2 == 1)), v / 2)
    case Arr => DoARR(r)
    case Asla => LoadA(r.(f := r.f.(c := r.a >= 0x80)), RotateLeft(r.a, false))
    case Lsra => LoadA(r.(f := r.f.(c := r.a % 2 == 1)), r.a / 2)
    case Rola => LoadA(r.(f := r.f.(c := r.a >= 0x80)), RotateLeft(r.a, r.f.c))
    case Rora => LoadA(r.(f := r.f.(c := r.a % 2 == 1)), RotateRight(r.a, r.f.c))
    case Bit => r.(f := r.f.(z := AndB(r.a, r.data) == 0, n := r.data >= 0x80, v := HasBit(r.data, 0x40)))
    case Clc => r.(f := r.f.(c := false))
    case Sec => r.(f := r.f.(c := true))
    case Cld => r.(f := r.f.(d := false))
    case Sed => r.(f := r.f.(d := true))
    case Clv => r.(f := r.f.(v := false))
    case Cli => r
    case Sei => r
    case Cmp => Compare(r, r.a)
    case Cpx => Compare(r, r.x)
    case Cpy => Compare(r, r.y)
    case Dex => LoadX(r, Byte(r.x - 1))
    case Dey => LoadY(r, Byte(r.y - 1))
    case Inx => LoadX(r, Byte(r.x + 1))
    case Iny => LoadY(r, Byte(r.y + 1))
    case Lda => LoadA(r, r.data)
    case Ldx => LoadX(r, r.data)
    case Ldy => LoadY(r, r.data)
    case Lax => LoadA(r, r.data).(x := r.data)
    case Las => var v := AndB(r.data, r.s); LoadA(r, v).(data := v, x := v, s := v)
    case Sbx =>
      var v := AndB(r.x, r.a) - r.data;
      LoadX(r.(f := r.f.(c := v >= 0)), Byte(v))
    case Tax => LoadX(r, r.a)
    case Tay => LoadY(r, r.a)
    case Tsx => LoadX(r, r.s)
    case Txa => LoadA(r, r.x)
    case Txs => r.(s := r.x)
    case Tya => LoadA(r, r.y)
  }

  function Store8(r: Regs, value: u8): Regs { r.(data := value, f := SetNZ(r.f, value)) }

  /** What a read-modify-write instruction does once the old operand has been written back. */
  function RmwStep(op: RmwOp, r: Regs): Regs {
    match op
    case Asl => Store8(r.(f := r.f.(c := r.data >= 0x80)), RotateLeft(r.data, false))
    case Lsr => Store8(r.(f := r.f.(c := r.data % 2 == 1)), r.data / 2)
    case Rol => Store8(r.(f := r.f.(c := r.data >= 0x80)), RotateLeft(r.data, r.f.c))
    case Ror => Store8(r.(f := r.f.(c := r.data % 2 == 1)), RotateRight(r.data, r.f.c))
    case Inc => Store8(r, Byte(r.data + 1))
    case Dec => Store8(r, Byte(r.data - 1))
    case Aso =>
      var v := RotateLeft(r.data, false);
      LoadA(r.(data := v, f := r.f.(c := r.data >= 0x80)), OrB(r.a, v))
    case Lse =>
      var v := r.data / 2;
      LoadA(r.(data := v, f := r.f.(c := r.data % 2 == 1)), XorB(r.a, v))
    case Rla =>
      var v := RotateLeft(r.data, r.f.c);
      LoadA(r.(data := v, f := r.f.(c := r.data >= 0x80)), AndB(r.a, v))
    case Rra =>
      var v := RotateRight(r.data, r.f.c);
      DoADC(r.(data := v, f := r.f.(c := r.data % 2 == 1)))
    case Dcm => var t := r.(data := Byte(r.data - 1)); Compare(t, t.a)
    case Ins => DoSBC(r.(data := Byte(r.data + 1)))
  }

  /** The SH* stores: the high byte of the address leaks into the value, and on a page crossing back. */
  function ShStep(r: Regs, rdyOnThrowAwayRead: bool): Regs {
    var hi := Hi(r.ea);
    var ea := if r.adlCarry then WithHi(r.ea, AndB(hi, r.data)) else r.ea;
    var mask := if r.adlCarry then hi else Byte(hi + 1);
    r.(ea := ea, data := if rdyOnThrowAwayRead then r.data else AndB(r.data, mask))
  }

  /** The registers a store leaves: the value is in data and goes to ea. */
  function StoreStep(op: StoreOp, r: Regs, rdyOnThrowAwayRead: bool): Regs {
    match op
    case Sta => r.(data := r.a)
    case Stx => r.(data := r.x)
    case Sty => r.(data := r.y)
    case Axs => r.(data := AndB(r.a, r.x))
    case Axa => ShStep(r.(data := AndB(r.x, r.a)), rdyOnThrowAwayRead)
    case Say => ShStep(r.(data := r.y), rdyOnThrowAwayRead)
    case Xas => ShStep(r.(data := r.x), rdyOnThrowAwayRead)
    case Shs => var s := AndB(r.a, r.x); ShStep(r.(s := s, data := s), rdyOnThrowAwayRead)
  }

  predicate Holds(cond: Condition, f: Flags) {
    match cond
    case Bcc => !f.c
    case Bcs => f.c
    case Bne => !f.z
    case Beq => f.z
    case Bpl => !f.n
    case Bmi => f.n
    case Bvc => !f.v
    case Bvs => f.v
  }

  /** A taken branch moves within the page; adlCarry says that the page is wrong. */
  function BranchStep(r: Regs): Regs {
    var sum := Lo(r.pc) + r.data;
    var target := WithLo(r.pc, Byte(sum));
    r.(ea := target, pc := target, adlCarry := (sum > 0xff) != (r.data > 0x7f))
  }

  // ----- The data side of a micro-operation -----

  function StackAddr(s: u8): u16 { 0x100 + s }

  predicate Pushes(op: Op) { op.PushLowPC? || op.PushHighPC? || op.PushSR? || op.PushA? || op.BrkPushLowPC? }

  /** Which micro-operations write the bus. */
  predicate Writes(op: Op) { op.PutEffAddrDataByte? || op.Rmw? || op.Store? || Pushes(op) }

  /** Which micro-operations may skip the following slot. */
  predicate MaySkip(op: Op) { op.FetchHighAddrX2? || op.FetchHighAddrY2? || op.FetchHighEffAddrY2? || op.Branch? }

  function PushedByte(op: Op, r: Regs, c: Ctl): u8
    requires Pushes(op)
  {
    match op
    case PushHighPC => Hi(r.pc)
    case PushSR => PackFlags(r.f, c.i) + (if c.d1x1 then 0x20 else 0x30)
    case PushA => r.a
    case _ => Lo(r.pc)
  }

  function Vector(c: Ctl): u16 { if c.rst then 0xfffc else if c.nmi then 0xfffa else 0xfffe }

  /** The bus access a micro-operation makes before it looks for the next opcode. */
  function BusOf(op: Op, r: Regs, c: Ctl): Bus {
    match op
    case ThrowAwayFetch => ReadBus(r.pc)
    case FetchDataByte => ReadBus(r.pc)
    case FetchLowAddr => ReadBus(r.pc)
    case FetchLowAddrX => ReadBus(r.pc)
    case FetchLowAddrY => ReadBus(r.pc)
    case FetchHighAddr => ReadBus(r.pc)
    case FetchHighAddrX => ReadBus(r.pc)
    case FetchHighAddrX2 => ReadBus(r.pc)
    case FetchHighAddrY => ReadBus(r.pc)
    case FetchHighAddrY2 => ReadBus(r.pc)
    case FetchLowPointer => ReadBus(r.pc)
    case FetchHighPointer => ReadBus(r.pc)
    case FetchLowEffAddr => ReadBus(r.pointer)
    case FetchHighEffAddr => ReadBus(WithLo(r.pointer, Byte(r.pointer + 1)))
    case FetchHighEffAddrY => ReadBus(WithLo(r.pointer, Byte(r.pointer + 1)))
    case FetchHighEffAddrY2 => ReadBus(WithLo(r.pointer, Byte(r.pointer + 1)))
    case ThrowAwayRead => ReadBus(r.ea)
    case FetchEffAddrDataByte => ReadBus(r.ea)
    case PutEffAddrDataByte => WriteBus(r.ea, r.data)
    case Rmw(_) => WriteBus(r.ea, r.data)
    case Store(store) => var t := StoreStep(store, r, c.rdyOnThrowAwayRead); WriteBus(t.ea, t.data)
    case PushLowPC => WriteBus(StackAddr(r.s), PushedByte(op, r, c))
    case PushHighPC => WriteBus(StackAddr(r.s), PushedByte(op, r, c))
    case PushSR => WriteBus(StackAddr(r.s), PushedByte(op, r, c))
    case PushA => WriteBus(StackAddr(r.s), PushedByte(op, r, c))
    case BrkPushLowPC => WriteBus(StackAddr(r.s), PushedByte(op, r, c))
    case PopLowPC => ReadBus(StackAddr(Byte(r.s + 1)))
    case PopHighPC => ReadBus(StackAddr(Byte(r.s + 1)))
    case PopSR => ReadBus(StackAddr(Byte(r.s + 1)))
    case PopA => ReadBus(StackAddr(Byte(r.s + 1)))
    case IrqLoRequest => ReadBus(r.ea)
    case IrqHiRequest => ReadBus(Word(r.ea + 1))
    case FixBranch => ReadBus(r.ea)
    case Rts => ReadBus(r.ea)
    case Branch(cond) => if Holds(cond, r.f) then ReadBus(r.pc) else NoAccess
    case _ => NoAccess
  }

  /** The byte on the bus. */
  function Answer(bus: Bus, mem: Memory): u8 {
    match bus
    case ReadBus(addr) => mem[addr]
    case _ => 0
  }

  function Indexed(r: Regs, index: u8): Regs {
    var ea := Word(r.ea + index);
    r.(ea := ea, adlCarry := ea > 0xff)
  }

  /** The registers after the micro-operation, given the byte read. */
  function DataStep(op: Op, r: Regs, c: Ctl, b: u8): Regs {
    match op
    case FetchDataByte => r.(data := b, pc := if c.d1x1 then r.pc else Word(r.pc + 1))
    case FetchLowAddr => r.(ea := b, pc := Word(r.pc + 1))
    case FetchLowAddrX => r.(ea := Byte(b + r.x), pc := Word(r.pc + 1))
    case FetchLowAddrY => r.(ea := Byte(b + r.y), pc := Word(r.pc + 1))
    case FetchHighAddr => r.(ea := WithHi(r.ea, b), pc := Word(r.pc + 1))
    case FetchHighAddrX => var t := Indexed(r, r.x); t.(ea := WithHi(t.ea, b), pc := Word(r.pc + 1))
    case FetchHighAddrX2 => var t := Indexed(r, r.x); t.(ea := WithHi(t.ea, b), pc := Word(r.pc + 1))
    case FetchHighAddrY => var t := Indexed(r, r.y); t.(ea := WithHi(t.ea, b), pc := Word(r.pc + 1))
    case FetchHighAddrY2 => var t := Indexed(r, r.y); t.(ea := WithHi(t.ea, b), pc := Word(r.pc + 1))
    case FetchLowPointer => r.(pointer := b, pc := Word(r.pc + 1))
    case FetchLowPointerX => r.(pointer := WithLo(r.pointer, Byte(r.pointer + r.x)))
    case FetchHighPointer => r.(pointer := WithHi(r.pointer, b), pc := Word(r.pc + 1))
    case FetchLowEffAddr => r.(ea := b)
    case FetchHighEffAddr => r.(pointer := WithLo(r.pointer, Byte(r.pointer + 1)), ea := WithHi(r.ea, b))
    case FetchHighEffAddrY =>
      var t := Indexed(r, r.y); t.(pointer := WithLo(r.pointer, Byte(r.pointer + 1)), ea := WithHi(t.ea, b))
    case FetchHighEffAddrY2 =>
      var t := Indexed(r, r.y); t.(pointer := WithLo(r.pointer, Byte(r.pointer + 1)), ea := WithHi(t.ea, b))
    case ThrowAwayRead => if r.adlCarry then r.(ea := Word(r.ea + 0x100)) else r
    case FetchEffAddrDataByte => r.(data := b)
    case Rmw(rmw) => RmwStep(rmw, r)
    case Store(store) => StoreStep(store, r, c.rdyOnThrowAwayRead)
    case PushLowPC => r.(s := Byte(r.s - 1))
    case PushHighPC => r.(s := Byte(r.s - 1))
    case PushSR => r.(s := Byte(r.s - 1))
    case PushA => r.(s := Byte(r.s - 1))
    case BrkPushLowPC => r.(s := Byte(r.s - 1), ea := Vector(c))
    case PopLowPC => r.(s := Byte(r.s + 1), ea := WithLo(r.ea, b))
    case PopHighPC => r.(s := Byte(r.s + 1), ea := WithHi(r.ea, b))
    case PopSR => r.(s := Byte(r.s + 1), f := UnpackFlags(b))
    case PopA => LoadA(r.(s := Byte(r.s + 1)), b)
    case IrqLoRequest => r.(pc := WithLo(r.pc, b))
    case IrqHiRequest => r.(pc := WithHi(r.pc, b))
    case Branch(cond) => if Holds(cond, r.f) then BranchStep(r) else r
    case FixBranch => r.(pc := Word(r.pc + if r.data < 0x80 then 0x0100 else 0xff00))
    case Alu(alu) => AluStep(alu, r)
    case Jmp => r.(pc := r.ea)
    case Rti => r.(pc := r.ea)
    case Rts => r.(pc := Word(r.ea + 1))
    case _ => r
  }

  // ----- The control side -----

  predicate CheckInterrupts(c: Ctl) { c.rst || c.nmi || (c.irq && !c.i) }

  function CalculateInterruptTriggerCycle(c: Ctl): (r: Ctl)
    ensures r.cycleCount == c.cycleCount
  {
    if c.interruptCycle == MAX && CheckInterrupts(c) then c.(interruptCycle := c.cycleCount) else c
  }

  /** Is the interrupt old enough to be taken at the end of this instruction? */
  predicate Recognised(c: Ctl) { c.cycleCount > c.interruptCycle + INTERRUPT_DELAY }

  function FetchNext(c: Ctl, opcode: u8): (r: Ctl)
    ensures r.cycleCount == 8 * opcode
  {
    c.(rdyOnThrowAwayRead := false, cycleCount := 8 * opcode,
       interruptCycle := if !CheckInterrupts(c) || c.interruptCycle == MAX then MAX else -MAX)
  }

  function EnterInterrupt(c: Ctl): Ctl { c.(cycleCount := 8 * BRKn, d1x1 := true, interruptCycle := MAX) }

  /** interruptsAndNextOpcode() */
  function NextOpcode(c: Ctl, opcode: u8): (r: Ctl)
    ensures r.cycleCount == 8 * BRKn || r.cycleCount == 8 * opcode
  {
    if Recognised(c) then EnterInterrupt(c) else FetchNext(c, opcode)
  }

  /** What the control side needs to know of the data side. */
  datatype Signals = Signals(opcode: u8, taken: bool, crossed: bool, popped: u8)

  /** Does the micro-operation look for the next opcode? */
  predicate SeeksOpcode(op: Op, taken: bool) {
    op.Alu? || op.Jmp? || op.Rti? || op.InterruptsAndNextOpcode? || (op.Branch? && !taken)
  }

  /** Does it skip the following slot? */
  predicate SkipsSlot(op: Op, sig: Signals) {
    MaySkip(op) && !sig.crossed && (op.Branch? ==> sig.taken)
  }

  /** A taken branch that stays in its page puts an interrupt asserted during it off. */
  function DelayPastBranch(c: Ctl): (r: Ctl)
    ensures r.cycleCount == c.cycleCount
  {
    if c.interruptCycle / 8 == c.cycleCount / 8 then c.(interruptCycle := c.interruptCycle + 2) else c
  }

  /** The control state after a micro-operation; the cycle counter already stands on the next slot. */
  function CtlStep(op: Op, c: Ctl, sig: Signals): Ctl {
    match op
    case Alu(alu) =>
      if alu == Cli then NextOpcode(CalculateInterruptTriggerCycle(c.(i := false)), sig.opcode)
      else if alu == Sei then
        var t := NextOpcode(c.(i := true), sig.opcode);
        if !t.rst && !t.nmi then t.(interruptCycle := MAX) else t
      else NextOpcode(c, sig.opcode)
    case Jmp => NextOpcode(c, sig.opcode)
    case Rti => NextOpcode(c, sig.opcode)
    case InterruptsAndNextOpcode => NextOpcode(c, sig.opcode)
    case FetchNextOpcode => FetchNext(c, sig.opcode)
    case Branch(_) =>
      if !sig.taken then NextOpcode(c, sig.opcode)
      else if sig.crossed then c
      else DelayPastBranch(c.(cycleCount := c.cycleCount + 1))
    case FetchHighAddrX2 => if sig.crossed then c else c.(cycleCount := c.cycleCount + 1)
    case FetchHighAddrY2 => if sig.crossed then c else c.(cycleCount := c.cycleCount + 1)
    case FetchHighEffAddrY2 => if sig.crossed then c else c.(cycleCount := c.cycleCount + 1)
    case PopSR => CalculateInterruptTriggerCycle(c.(i := UnpackI(sig.popped)))
    case BrkPushLowPC => CalculateInterruptTriggerCycle(c.(rst := false, nmi := false))
    case IrqLoRequest => c.(d1x1 := false)
    case IrqHiRequest => c.(i := true)
    case _ => c
  }

  // ----- One cycle -----

  /** The opcode whose table row the sequencer is in, and the slot in that row. */
  predicate InTable(c: Ctl) {
    0 <= c.cycleCount < 0x800 && c.cycleCount % 8 < |Slots(c.cycleCount / 8)|
  }

  function SlotAt(c: Ctl): Slot
    requires InTable(c)
  {
    Slots(c.cycleCount / 8)[c.cycleCount % 8]
  }

  function MemoryAfter(mem: Memory, bus: Bus): Memory {
    match bus
    case WriteBus(addr, value) => mem[addr := value]
    case _ => mem
  }

  /** Executes one micro-operation; also what it did on the bus, apart from the opcode fetch. */
  function Exec(op: Op, s: Cpu): (Cpu, Bus) {
    var bus := BusOf(op, s.r, s.c);
    var b := Answer(bus, s.mem);
    var r := DataStep(op, s.r, s.c, b);
    var sig := Signals(s.mem[r.pc], op.Branch? && Holds(op.condition, s.r.f), r.adlCarry, b);
    var c := CtlStep(op, s.c.(cycleCount := s.c.cycleCount + 1), sig);
    var seeks := SeeksOpcode(op, sig.taken) || op.FetchNextOpcode?;
    var entered := SeeksOpcode(op, sig.taken) && Recognised(BeforeNext(op, s.c));
    (Cpu(if seeks && !entered then r.(pc := Word(r.pc + 1)) else r, c, MemoryAfter(s.mem, bus)), bus)
  }

  /** The control state in which interruptsAndNextOpcode() decides. */
  function BeforeNext(op: Op, c: Ctl): Ctl {
    var t := c.(cycleCount := c.cycleCount + 1);
    if op == Alu(Cli) then CalculateInterruptTriggerCycle(t.(i := false)) else t
  }

  /** A halt opcode throws an exception and leaves nothing to go on from. */
  predicate Running(c: Ctl) { InTable(c) && SlotAt(c).op != InvalidOpcode }

  /** eventWithoutSteals(): the micro-operation of the current slot. */
  function Step(s: Cpu): Cpu
    requires Running(s.c)
  {
    Exec(SlotAt(s.c).op, s).0
  }

  /** eventWithSteals() in a cycle that can be stolen: only the first clock of an interrupt delay passes. */
  function Stall(c: Ctl): Ctl {
    var t :=
      if c.cycleCount == 8 * CLIn then
        c.(i := false, interruptCycle := if c.irq && c.interruptCycle == MAX then -MAX else c.interruptCycle)
      else if c.cycleCount == 8 * SEIn then
        c.(i := true, interruptCycle := if !c.rst && !c.nmi && c.cycleCount <= c.interruptCycle + INTERRUPT_DELAY
                                        then MAX else c.interruptCycle)
      else if c.cycleCount in {8 * SHAiy + 3, 8 * SHSay + 2, 8 * SHYax + 2, 8 * SHXay + 2, 8 * SHAay + 2} then
        c.(rdyOnThrowAwayRead := true)
      else c;
    if t.interruptCycle == t.cycleCount then t.(interruptCycle := t.interruptCycle - 1) else t
  }
}
