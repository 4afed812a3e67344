/**
 The instruction table of the 6510 (src/c64/CPU/mos6510.cpp, src/c64/CPU/opcodes.h): every opcode is a
 sequence of micro-operations, one per cycle, each marked with whether the VIC may steal the cycle.
 */
module CpuTable {

  type u8 = x: int | 0 <= x < 0x100
  type u16 = x: int | 0 <= x < 0x1_0000

  /** Instructions that compute in registers and then look for the next opcode. */
  datatype AluOp =
    | Adc | Alr | Anc | And | Ane | Arr | Asla | Bit | Clc | Cld | Cli | Clv | Cmp | Cpx | Cpy | Dex | Dey
    | Eor | Inx | Iny | Las | Lax | Lda | Ldx | Ldy | Lsra | Oal | Ora | Rola | Rora | Sbc | Sbx | Sec | Sed
    | Sei | Tax | Tay | Tsx | Txa | Txs | Tya

  /** Instructions that write the old operand back and then change it. */
  datatype RmwOp = Asl | Aso | Dcm | Dec | Inc | Ins | Lse | Lsr | Rla | Rol | Ror | Rra

  datatype StoreOp = Axa | Axs | Say | Shs | Sta | Stx | Sty | Xas

  datatype Condition = Bcc | Bcs | Beq | Bmi | Bne | Bpl | Bvc | Bvs

  /** The micro-operations. */
  datatype Op =
    | ThrowAwayFetch | ThrowAwayRead | FetchDataByte
    | FetchLowAddr | FetchLowAddrX | FetchLowAddrY
    | FetchHighAddr | FetchHighAddrX | FetchHighAddrX2 | FetchHighAddrY | FetchHighAddrY2
    | FetchLowPointer | FetchLowPointerX | FetchHighPointer
    | FetchLowEffAddr | FetchHighEffAddr | FetchHighEffAddrY | FetchHighEffAddrY2
    | FetchEffAddrDataByte | PutEffAddrDataByte | WasteCycle
    | PushLowPC | PushHighPC | PushSR | PushA | BrkPushLowPC
    | PopLowPC | PopHighPC | PopSR | PopA
    | IrqLoRequest | IrqHiRequest
    | Alu(alu: AluOp) | Rmw(rmw: RmwOp) | Store(store: StoreOp)
    | Branch(condition: Condition) | FixBranch
    | Jmp | Rti | Rts
    | FetchNextOpcode | InterruptsAndNextOpcode | InvalidOpcode

  datatype Slot = Slot(op: Op, nosteal: bool)

  datatype Mode =
    | Implied | Immediate | ZeroPage | ZeroPageX | ZeroPageY | Absolute
    | AbsoluteX2 | AbsoluteX | AbsoluteY2 | AbsoluteY
    | Indirect | IndirectX | IndirectY2 | IndirectY | NoMode

  datatype Instr =
    | AluI(alu: AluOp) | RmwI(rmw: RmwOp) | StoreI(store: StoreOp) | BranchI(condition: Condition)
    | BrkI | JsrI | JmpI | NopI | PhaI | PhpI | PlaI | PlpI | RtiI | RtsI | NoInstr

  // The opcodes the sequencer itself knows about.
  const BRKn := 0x00
  const JSRw := 0x20
  const RTIn := 0x40
  const RTSn := 0x60
  const CLIn := 0x58
  const SEIn := 0x78
  const SHAiy := 0x93
  const SHAay := 0x9f
  const SHSay := 0x9b
  const SHYax := 0x9c
  const SHXay := 0x9e

  /** The addressing mode; the indexed modes ending in 2 skip a cycle if no page is crossed. */
  function ModeOf(i: u8): Mode {
    match i / 0x20
    case 0 => ModeFrom00(i)
    case 1 => ModeFrom20(i)
    case 2 => ModeFrom40(i)
    case 3 => ModeFrom60(i)
    case 4 => ModeFrom80(i)
    case 5 => ModeFroma0(i)
    case 6 => ModeFromc0(i)
    case 7 => ModeFrome0(i)
  }

  function ModeFrom00(i: u8): Mode {
    match i
    case 0x00 | 0x09 | 0x0b | 0x10 => Immediate
    case 0x01 | 0x03 => IndirectX
    case 0x04 | 0x05 | 0x06 | 0x07 => ZeroPage
    case 0x08 | 0x0a | 0x18 | 0x1a => Implied
    case 0x0c | 0x0d | 0x0e | 0x0f => Absolute
    case 0x11 => IndirectY2
    case 0x13 => IndirectY
    case 0x14 | 0x15 | 0x16 | 0x17 => ZeroPageX
    case 0x19 => AbsoluteY2
    case 0x1b => AbsoluteY
    case 0x1c | 0x1d => AbsoluteX2
    case 0x1e | 0x1f => AbsoluteX
    case _ => NoMode
  }

  function ModeFrom20(i: u8): Mode {
    match i
    case 0x29 | 0x2b | 0x30 => Immediate
    case 0x21 | 0x23 => IndirectX
    case 0x20 | 0x24 | 0x25 | 0x26 | 0x27 => ZeroPage
    case 0x28 | 0x2a | 0x38 | 0x3a => Implied
    case 0x2c | 0x2d | 0x2e | 0x2f => Absolute
    case 0x31 => IndirectY2
    case 0x33 => IndirectY
    case 0x34 | 0x35 | 0x36 | 0x37 => ZeroPageX
    case 0x39 => AbsoluteY2
    case 0x3b => AbsoluteY
    case 0x3c | 0x3d => AbsoluteX2
    case 0x3e | 0x3f => AbsoluteX
    case _ => NoMode
  }

  function ModeFrom40(i: u8): Mode {
    match i
    case 0x40 | 0x49 | 0x4b | 0x50 => Immediate
    case 0x41 | 0x43 => IndirectX
    case 0x44 | 0x45 | 0x46 | 0x47 => ZeroPage
    case 0x48 | 0x4a | 0x58 | 0x5a => Implied
    case 0x4c | 0x4d | 0x4e | 0x4f => Absolute
    case 0x51 => IndirectY2
    case 0x53 => IndirectY
    case 0x54 | 0x55 | 0x56 | 0x57 => ZeroPageX
    case 0x59 => AbsoluteY2
    case 0x5b => AbsoluteY
    case 0x5c | 0x5d => AbsoluteX2
    case 0x5e | 0x5f => AbsoluteX
    case _ => NoMode
  }

  function ModeFrom60(i: u8): Mode {
    match i
    case 0x60 | 0x69 | 0x6b | 0x70 => Immediate
    case 0x61 | 0x63 => IndirectX
    case 0x64 | 0x65 | 0x66 | 0x67 => ZeroPage
    case 0x68 | 0x6a | 0x78 | 0x7a => Implied
    case 0x6d | 0x6e | 0x6f => Absolute
    case 0x71 => IndirectY2
    case 0x73 => IndirectY
    case 0x74 | 0x75 | 0x76 | 0x77 => ZeroPageX
    case 0x79 => AbsoluteY2
    case 0x7b => AbsoluteY
    case 0x7c | 0x7d => AbsoluteX2
    case 0x7e | 0x7f => AbsoluteX
    case 0x6c => Indirect
    case _ => NoMode
  }

  function ModeFrom80(i: u8): Mode {
    match i
    case 0x80 | 0x82 | 0x89 | 0x8b | 0x90 => Immediate
    case 0x81 | 0x83 => IndirectX
    case 0x84 | 0x85 | 0x86 | 0x87 => ZeroPage
    case 0x88 | 0x8a | 0x98 | 0x9a => Implied
    case 0x8c | 0x8d | 0x8e | 0x8f => Absolute
    case 0x91 | 0x93 => IndirectY
    case 0x94 | 0x95 => ZeroPageX
    case 0x99 | 0x9b | 0x9e | 0x9f => AbsoluteY
    case 0x9c | 0x9d => AbsoluteX
    case 0x96 | 0x97 => ZeroPageY
    case _ => NoMode
  }

  function ModeFroma0(i: u8): Mode {
    match i
    case 0xa0 | 0xa2 | 0xa9 | 0xab | 0xb0 => Immediate
    case 0xa1 | 0xa3 => IndirectX
    case 0xa4 | 0xa5 | 0xa6 | 0xa7 => ZeroPage
    case 0xa8 | 0xaa | 0xb8 | 0xba => Implied
    case 0xac | 0xad | 0xae | 0xaf => Absolute
    case 0xb1 | 0xb3 => IndirectY2
    case 0xb4 | 0xb5 => ZeroPageX
    case 0xb9 | 0xbb | 0xbe | 0xbf => AbsoluteY2
    case 0xbc | 0xbd => AbsoluteX2
    case 0xb6 | 0xb7 => ZeroPageY
    case _ => NoMode
  }

  function ModeFromc0(i: u8): Mode {
    match i
    case 0xc0 | 0xc2 | 0xc9 | 0xcb | 0xd0 => Immediate
    case 0xc1 | 0xc3 => IndirectX
    case 0xc4 | 0xc5 | 0xc6 | 0xc7 => ZeroPage
    case 0xc8 | 0xca | 0xd8 | 0xda => Implied
    case 0xcc | 0xcd | 0xce | 0xcf => Absolute
    case 0xd1 => IndirectY2
    case 0xd3 => IndirectY
    case 0xd4 | 0xd5 | 0xd6 | 0xd7 => ZeroPageX
    case 0xd9 => AbsoluteY2
    case 0xdb => AbsoluteY
    case 0xdc | 0xdd => AbsoluteX2
    case 0xde | 0xdf => AbsoluteX
    case _ => NoMode
  }

  function ModeFrome0(i: u8): Mode {
    match i
    case 0xe0 | 0xe2 | 0xe9 | 0xeb | 0xf0 => Immediate
    case 0xe1 | 0xe3 => IndirectX
    case 0xe4 | 0xe5 | 0xe6 | 0xe7 => ZeroPage
    case 0xe8 | 0xea | 0xf8 | 0xfa => Implied
    case 0xec | 0xed | 0xee | 0xef => Absolute
    case 0xf1 => IndirectY2
    case 0xf3 => IndirectY
    case 0xf4 | 0xf5 | 0xf6 | 0xf7 => ZeroPageX
    case 0xf9 => AbsoluteY2
    case 0xfb => AbsoluteY
    case 0xfc | 0xfd => AbsoluteX2
    case 0xfe | 0xff => AbsoluteX
    case _ => NoMode
  }

  /** Does the addressing mode end by reading the operand? */
  predicate ReadsOperand(i: u8) {
    match i
    case 0x01 | 0x03 | 0x04 | 0x05 | 0x06 | 0x07 | 0x0c | 0x0d | 0x0e | 0x0f | 0x11 | 0x13 | 0x14 | 0x15
      | 0x16 | 0x17 | 0x19 | 0x1b | 0x1c | 0x1d | 0x1e | 0x1f | 0x21 | 0x23 | 0x24 | 0x25 | 0x26 | 0x27 |
      0x2c | 0x2d | 0x2e | 0x2f | 0x31 | 0x33 | 0x34 | 0x35 | 0x36 | 0x37 | 0x39 | 0x3b | 0x3c | 0x3d |
      0x3e | 0x3f | 0x41 | 0x43 | 0x44 | 0x45 | 0x46 | 0x47 | 0x4d | 0x4e | 0x4f | 0x51 | 0x53 | 0x54 |
      0x55 | 0x56 | 0x57 | 0x59 | 0x5b | 0x5c | 0x5d | 0x5e | 0x5f | 0x61 | 0x63 | 0x64 | 0x65 | 0x66 |
      0x67 | 0x6d | 0x6e | 0x6f | 0x71 | 0x73 | 0x74 | 0x75 | 0x76 | 0x77 | 0x79 | 0x7b | 0x7c | 0x7d |
      0x7e | 0x7f | 0xa1 | 0xa3 | 0xa4 | 0xa5 | 0xa6 | 0xa7 | 0xac | 0xad | 0xae | 0xaf | 0xb1 | 0xb3 |
      0xb4 | 0xb5 | 0xb6 | 0xb7 | 0xb9 | 0xbb | 0xbc | 0xbd | 0xbe | 0xbf | 0xc1 | 0xc3 | 0xc4 | 0xc5 |
      0xc6 | 0xc7 | 0xcc | 0xcd | 0xce | 0xcf | 0xd1 | 0xd3 | 0xd4 | 0xd5 | 0xd6 | 0xd7 | 0xd9 | 0xdb |
      0xdc | 0xdd | 0xde | 0xdf | 0xe1 | 0xe3 | 0xe4 | 0xe5 | 0xe6 | 0xe7 | 0xec | 0xed | 0xee | 0xef |
      0xf1 | 0xf3 | 0xf4 | 0xf5 | 0xf6 | 0xf7 | 0xf9 | 0xfb | 0xfc | 0xfd | 0xfe | 0xff => true
    case _ => false
  }

  function InstrOf(i: u8): Instr {
    match i / 0x20
    case 0 => InstrFrom00(i)
    case 1 => InstrFrom20(i)
    case 2 => InstrFrom40(i)
    case 3 => InstrFrom60(i)
    case 4 => InstrFrom80(i)
    case 5 => InstrFroma0(i)
    case 6 => InstrFromc0(i)
    case 7 => InstrFrome0(i)
  }

  function InstrFrom00(i: u8): Instr {
    match i
    case 0x00 => BrkI
    case 0x01 | 0x05 | 0x09 | 0x0d | 0x11 | 0x15 | 0x19 | 0x1d => AluI(Ora)
    case 0x03 | 0x07 | 0x0f | 0x13 | 0x17 | 0x1b | 0x1f => RmwI(Aso)
    case 0x04 | 0x0c | 0x14 | 0x1a | 0x1c => NopI
    case 0x06 | 0x0e | 0x16 | 0x1e => RmwI(Asl)
    case 0x08 => PhpI
    case 0x0a => AluI(Asla)
    case 0x0b => AluI(Anc)
    case 0x10 => BranchI(Bpl)
    case 0x18 => AluI(Clc)
    case _ => NoInstr
  }

  function InstrFrom20(i: u8): Instr {
    match i
    case 0x34 | 0x3a | 0x3c => NopI
    case 0x2b => AluI(Anc)
    case 0x20 => JsrI
    case 0x21 | 0x25 | 0x29 | 0x2d | 0x31 | 0x35 | 0x39 | 0x3d => AluI(And)
    case 0x23 | 0x27 | 0x2f | 0x33 | 0x37 | 0x3b | 0x3f => RmwI(Rla)
    case 0x24 | 0x2c => AluI(Bit)
    case 0x26 | 0x2e | 0x36 | 0x3e => RmwI(Rol)
    case 0x28 => PlpI
    case 0x2a => AluI(Rola)
    case 0x30 => BranchI(Bmi)
    case 0x38 => AluI(Sec)
    case _ => NoInstr
  }

  function InstrFrom40(i: u8): Instr {
    match i
    case 0x44 | 0x54 | 0x5a | 0x5c => NopI
    case 0x40 => RtiI
    case 0x41 | 0x45 | 0x49 | 0x4d | 0x51 | 0x55 | 0x59 | 0x5d => AluI(Eor)
    case 0x43 | 0x47 | 0x4f | 0x53 | 0x57 | 0x5b | 0x5f => RmwI(Lse)
    case 0x46 | 0x4e | 0x56 | 0x5e => RmwI(Lsr)
    case 0x48 => PhaI
    case 0x4a => AluI(Lsra)
    case 0x4b => AluI(Alr)
    case 0x4c => JmpI
    case 0x50 => BranchI(Bvc)
    case 0x58 => AluI(Cli)
    case _ => NoInstr
  }

  function InstrFrom60(i: u8): Instr {
    match i
    case 0x64 | 0x74 | 0x7a | 0x7c => NopI
    case 0x6c => JmpI
    case 0x60 => RtsI
    case 0x61 | 0x65 | 0x69 | 0x6d | 0x71 | 0x75 | 0x79 | 0x7d => AluI(Adc)
    case 0x63 | 0x67 | 0x6f | 0x73 | 0x77 | 0x7b | 0x7f => RmwI(Rra)
    case 0x66 | 0x6e | 0x76 | 0x7e => RmwI(Ror)
    case 0x68 => PlaI
    case 0x6a => AluI(Rora)
    case 0x6b => AluI(Arr)
    case 0x70 => BranchI(Bvs)
    case 0x78 => AluI(Sei)
    case _ => NoInstr
  }

  function InstrFrom80(i: u8): Instr {
    match i
    case 0x80 | 0x82 | 0x89 => NopI
    case 0x81 | 0x85 | 0x8d | 0x91 | 0x95 | 0x99 | 0x9d => StoreI(Sta)
    case 0x83 | 0x87 | 0x8f | 0x97 => StoreI(Axs)
    case 0x84 | 0x8c | 0x94 => StoreI(Sty)
    case 0x86 | 0x8e | 0x96 => StoreI(Stx)
    case 0x88 => AluI(Dey)
    case 0x8a => AluI(Txa)
    case 0x8b => AluI(Ane)
    case 0x90 => BranchI(Bcc)
    case 0x93 | 0x9f => StoreI(Axa)
    case 0x98 => AluI(Tya)
    case 0x9a => AluI(Txs)
    case 0x9b => StoreI(Shs)
    case 0x9c => StoreI(Say)
    case 0x9e => StoreI(Xas)
    case _ => NoInstr
  }

  function InstrFroma0(i: u8): Instr {
    match i
    case 0xa0 | 0xa4 | 0xac | 0xb4 | 0xbc => AluI(Ldy)
    case 0xa1 | 0xa5 | 0xa9 | 0xad | 0xb1 | 0xb5 | 0xb9 | 0xbd => AluI(Lda)
    case 0xa2 | 0xa6 | 0xae | 0xb6 | 0xbe => AluI(Ldx)
    case 0xa3 | 0xa7 | 0xaf | 0xb3 | 0xb7 | 0xbf => AluI(Lax)
    case 0xa8 => AluI(Tay)
    case 0xaa => AluI(Tax)
    case 0xab => AluI(Oal)
    case 0xb0 => BranchI(Bcs)
    case 0xb8 => AluI(Clv)
    case 0xba => AluI(Tsx)
    case 0xbb => AluI(Las)
    case _ => NoInstr
  }

  function InstrFromc0(i: u8): Instr {
    match i
    case 0xc2 | 0xd4 | 0xda | 0xdc => NopI
    case 0xc0 | 0xc4 | 0xcc => AluI(Cpy)
    case 0xc1 | 0xc5 | 0xc9 | 0xcd | 0xd1 | 0xd5 | 0xd9 | 0xdd => AluI(Cmp)
    case 0xc3 | 0xc7 | 0xcf | 0xd3 | 0xd7 | 0xdb | 0xdf => RmwI(Dcm)
    case 0xc6 | 0xce | 0xd6 | 0xde => RmwI(Dec)
    case 0xc8 => AluI(Iny)
    case 0xca => AluI(Dex)
    case 0xcb => AluI(Sbx)
    case 0xd0 => BranchI(Bne)
    case 0xd8 => AluI(Cld)
    case _ => NoInstr
  }

  function InstrFrome0(i: u8): Instr {
    match i
    case 0xe2 | 0xea | 0xf4 | 0xfa | 0xfc => NopI
    case 0xe0 | 0xe4 | 0xec => AluI(Cpx)
    case 0xe1 | 0xe5 | 0xe9 | 0xeb | 0xed | 0xf1 | 0xf5 | 0xf9 | 0xfd => AluI(Sbc)
    case 0xe3 | 0xe7 | 0xef | 0xf3 | 0xf7 | 0xfb | 0xff => RmwI(Ins)
    case 0xe6 | 0xee | 0xf6 | 0xfe => RmwI(Inc)
    case 0xe8 => AluI(Inx)
    case 0xf0 => BranchI(Beq)
    case 0xf8 => AluI(Sed)
    case _ => NoInstr
  }

  function Free(op: Op): Slot { Slot(op, false) }

  function Kept(op: Op): Slot { Slot(op, true) }

  /** The cycles that find the operand. */
  function Addressing(mode: Mode): seq<Slot> {
    match mode
    case Implied => [Free(ThrowAwayFetch)]
    case Immediate => [Free(FetchDataByte)]
    case ZeroPage => [Free(FetchLowAddr)]
    case ZeroPageX => [Free(FetchLowAddrX), Free(WasteCycle)]
    case ZeroPageY => [Free(FetchLowAddrY), Free(WasteCycle)]
    case Absolute => [Free(FetchLowAddr), Free(FetchHighAddr)]
    case AbsoluteX2 => [Free(FetchLowAddr), Free(FetchHighAddrX2), Free(ThrowAwayRead)]
    case AbsoluteX => [Free(FetchLowAddr), Free(FetchHighAddrX), Free(ThrowAwayRead)]
    case AbsoluteY2 => [Free(FetchLowAddr), Free(FetchHighAddrY2), Free(ThrowAwayRead)]
    case AbsoluteY => [Free(FetchLowAddr), Free(FetchHighAddrY), Free(ThrowAwayRead)]
    case Indirect => [Free(FetchLowPointer), Free(FetchHighPointer), Free(FetchLowEffAddr), Free(FetchHighEffAddr)]
    case IndirectX => [Free(FetchLowPointer), Free(FetchLowPointerX), Free(FetchLowEffAddr), Free(FetchHighEffAddr)]
    case IndirectY2 => [Free(FetchLowPointer), Free(FetchLowEffAddr), Free(FetchHighEffAddrY2), Free(ThrowAwayRead)]
    case IndirectY => [Free(FetchLowPointer), Free(FetchLowEffAddr), Free(FetchHighEffAddrY), Free(ThrowAwayRead)]
    case NoMode => []
  }

  /** The cycles that do the work. */
  function Working(instr: Instr): seq<Slot> {
    match instr
    case AluI(alu) => [Free(Alu(alu))]
    case RmwI(rmw) => [Kept(Rmw(rmw)), Kept(PutEffAddrDataByte)]
    case StoreI(store) => [Kept(Store(store))]
    case BranchI(condition) => [Free(Branch(condition)), Free(FixBranch)]
    case BrkI => [Kept(PushHighPC), Kept(BrkPushLowPC), Kept(PushSR), Free(IrqLoRequest), Free(IrqHiRequest), Free(FetchNextOpcode)]
    case JsrI => [Free(WasteCycle), Kept(PushHighPC), Kept(PushLowPC), Free(FetchHighAddr), Free(Jmp)]
    case JmpI => [Free(Jmp)]
    case NopI => []
    case PhaI => [Kept(PushA)]
    case PhpI => [Kept(PushSR)]
    case PlaI => [Free(WasteCycle), Free(PopA)]
    case PlpI => [Free(WasteCycle), Free(PopSR)]
    case RtiI => [Free(WasteCycle), Free(PopSR), Free(PopLowPC), Free(PopHighPC), Free(Rti)]
    case RtsI => [Free(WasteCycle), Free(PopLowPC), Free(PopHighPC), Free(Rts)]
    case NoInstr => []
  }

  predicate IsIllegal(i: u8) { ModeOf(i) == NoMode || InstrOf(i) == NoInstr }

  /** The filled slots of one opcode. */
  function Slots(i: u8): seq<Slot> {
    Addressing(ModeOf(i))
    + (if ReadsOperand(i) then [Free(FetchEffAddrDataByte)] else [])
    + Working(InstrOf(i))
    + (if IsIllegal(i) then [Free(InvalidOpcode)] else [])
    + [Free(InterruptsAndNextOpcode)]
  }
}
