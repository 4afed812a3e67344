/**
 What the instructions of the 6510 mean (src/c64/CPU/mos6510.cpp, src/c64/CPU/flags.h): laws of their
 arithmetic, and the undocumented instructions as compositions of the documented ones.
 */
module CpuLaws {
  import opened CpuTable
  import opened CpuCore
  import opened CpuDecode
  import opened CpuStack

  // ----- Bits -----

  predicate IsWeight(w: int) { w in {0x01, 0x02, 0x04, 0x08, 0x10, 0x20, 0x40, 0x80} }

  lemma BackToBits(x: bv8)
    ensures (x as int) as bv8 == x
  {
  }

  lemma OneMore(x: bv8)
    requires x != 0xff
    ensures (x + 1) as int == x as int + 1
  {
  }

  lemma {:induction false} ByteRound(a: u8)
    ensures ((a as bv8) as int) == a
  {
    if a > 0 {
      ByteRound(a - 1);
      var x := (a - 1) as bv8;
      assert x as int == a - 1;
      assert x != 0xff;
      OneMore(x);
      BackToBits(x + 1);
    }
  }

  lemma Bits01(x: bv8)
    ensures HasBit(x as int, 0x01) <==> x & 0x01 != 0
    ensures HasBit(x as int, 0x02) <==> x & 0x02 != 0
  {
  }

  lemma Bits23(x: bv8)
    ensures HasBit(x as int, 0x04) <==> x & 0x04 != 0
    ensures HasBit(x as int, 0x08) <==> x & 0x08 != 0
  {
  }

  lemma Bits45(x: bv8)
    ensures HasBit(x as int, 0x10) <==> x & 0x10 != 0
    ensures HasBit(x as int, 0x20) <==> x & 0x20 != 0
  {
  }

  lemma Bits67(x: bv8)
    ensures HasBit(x as int, 0x40) <==> x & 0x40 != 0
    ensures HasBit(x as int, 0x80) <==> x & 0x80 != 0
  {
  }

  lemma Logic01(x: bv8, y: bv8)
    ensures HasBit((x & y) as int, 0x01) <==> HasBit(x as int, 0x01) && HasBit(y as int, 0x01)
    ensures HasBit((x | y) as int, 0x01) <==> HasBit(x as int, 0x01) || HasBit(y as int, 0x01)
    ensures HasBit((x ^ y) as int, 0x01) <==> HasBit(x as int, 0x01) != HasBit(y as int, 0x01)
    ensures HasBit((x & y) as int, 0x02) <==> HasBit(x as int, 0x02) && HasBit(y as int, 0x02)
    ensures HasBit((x | y) as int, 0x02) <==> HasBit(x as int, 0x02) || HasBit(y as int, 0x02)
    ensures HasBit((x ^ y) as int, 0x02) <==> HasBit(x as int, 0x02) != HasBit(y as int, 0x02)
  {
    hide HasBit;
    Bits01(x);
    Bits01(y);
    Bits01(x & y);
    Bits01(x | y);
    Bits01(x ^ y);
  }

  lemma Logic23(x: bv8, y: bv8)
    ensures HasBit((x & y) as int, 0x04) <==> HasBit(x as int, 0x04) && HasBit(y as int, 0x04)
    ensures HasBit((x | y) as int, 0x04) <==> HasBit(x as int, 0x04) || HasBit(y as int, 0x04)
    ensures HasBit((x ^ y) as int, 0x04) <==> HasBit(x as int, 0x04) != HasBit(y as int, 0x04)
    ensures HasBit((x & y) as int, 0x08) <==> HasBit(x as int, 0x08) && HasBit(y as int, 0x08)
    ensures HasBit((x | y) as int, 0x08) <==> HasBit(x as int, 0x08) || HasBit(y as int, 0x08)
    ensures HasBit((x ^ y) as int, 0x08) <==> HasBit(x as int, 0x08) != HasBit(y as int, 0x08)
  {
    hide HasBit;
    Bits23(x);
    Bits23(y);
    Bits23(x & y);
    Bits23(x | y);
    Bits23(x ^ y);
  }

  lemma Logic45(x: bv8, y: bv8)
    ensures HasBit((x & y) as int, 0x10) <==> HasBit(x as int, 0x10) && HasBit(y as int, 0x10)
    ensures HasBit((x | y) as int, 0x10) <==> HasBit(x as int, 0x10) || HasBit(y as int, 0x10)
    ensures HasBit((x ^ y) as int, 0x10) <==> HasBit(x as int, 0x10) != HasBit(y as int, 0x10)
    ensures HasBit((x & y) as int, 0x20) <==> HasBit(x as int, 0x20) && HasBit(y as int, 0x20)
    ensures HasBit((x | y) as int, 0x20) <==> HasBit(x as int, 0x20) || HasBit(y as int, 0x20)
    ensures HasBit((x ^ y) as int, 0x20) <==> HasBit(x as int, 0x20) != HasBit(y as int, 0x20)
  {
    hide HasBit;
    Bits45(x);
    Bits45(y);
    Bits45(x & y);
    Bits45(x | y);
    Bits45(x ^ y);
  }

  lemma Logic67(x: bv8, y: bv8)
    ensures HasBit((x & y) as int, 0x40) <==> HasBit(x as int, 0x40) && HasBit(y as int, 0x40)
    ensures HasBit((x | y) as int, 0x40) <==> HasBit(x as int, 0x40) || HasBit(y as int, 0x40)
    ensures HasBit((x ^ y) as int, 0x40) <==> HasBit(x as int, 0x40) != HasBit(y as int, 0x40)
    ensures HasBit((x & y) as int, 0x80) <==> HasBit(x as int, 0x80) && HasBit(y as int, 0x80)
    ensures HasBit((x | y) as int, 0x80) <==> HasBit(x as int, 0x80) || HasBit(y as int, 0x80)
    ensures HasBit((x ^ y) as int, 0x80) <==> HasBit(x as int, 0x80) != HasBit(y as int, 0x80)
  {
    hide HasBit;
    Bits67(x);
    Bits67(y);
    Bits67(x & y);
    Bits67(x | y);
    Bits67(x ^ y);
  }

  function BitsOf(a: u8): (x: bv8)
    ensures x as int == a
  {
    ByteRound(a);
    a as bv8
  }

  lemma AndIs(a: u8, b: u8)
    ensures AndB(a, b) == (BitsOf(a) & BitsOf(b)) as int
  {
  }

  lemma OrIs(a: u8, b: u8)
    ensures OrB(a, b) == (BitsOf(a) | BitsOf(b)) as int
  {
  }

  lemma XorIs(a: u8, b: u8)
    ensures XorB(a, b) == (BitsOf(a) ^ BitsOf(b)) as int
  {
  }

  predicate BitwiseAt(a: u8, b: u8, w: int)
    requires w > 0
  {
    && (HasBit(AndB(a, b), w) <==> HasBit(a, w) && HasBit(b, w))
    && (HasBit(OrB(a, b), w) <==> HasBit(a, w) || HasBit(b, w))
    && (HasBit(XorB(a, b), w) <==> HasBit(a, w) != HasBit(b, w))
  }

  lemma Bitwise01(a: u8, b: u8)
    ensures BitwiseAt(a, b, 0x01) && BitwiseAt(a, b, 0x02)
  {
    hide HasBit, AndB, OrB, XorB, BitsOf;
    AndIs(a, b);
    OrIs(a, b);
    XorIs(a, b);
    Logic01(BitsOf(a), BitsOf(b));
  }

  lemma Bitwise23(a: u8, b: u8)
    ensures BitwiseAt(a, b, 0x04) && BitwiseAt(a, b, 0x08)
  {
    hide HasBit, AndB, OrB, XorB, BitsOf;
    AndIs(a, b);
    OrIs(a, b);
    XorIs(a, b);
    Logic23(BitsOf(a), BitsOf(b));
  }

  lemma Bitwise45(a: u8, b: u8)
    ensures BitwiseAt(a, b, 0x10) && BitwiseAt(a, b, 0x20)
  {
    hide HasBit, AndB, OrB, XorB, BitsOf;
    AndIs(a, b);
    OrIs(a, b);
    XorIs(a, b);
    Logic45(BitsOf(a), BitsOf(b));
  }

  lemma Bitwise67(a: u8, b: u8)
    ensures BitwiseAt(a, b, 0x40) && BitwiseAt(a, b, 0x80)
  {
    hide HasBit, AndB, OrB, XorB, BitsOf;
    AndIs(a, b);
    OrIs(a, b);
    XorIs(a, b);
    Logic67(BitsOf(a), BitsOf(b));
  }

  /** AND, OR and EOR work bit by bit. */
  lemma LogicBits(a: u8, b: u8, w: int)
    requires IsWeight(w)
    ensures HasBit(AndB(a, b), w) <==> HasBit(a, w) && HasBit(b, w)
    ensures HasBit(OrB(a, b), w) <==> HasBit(a, w) || HasBit(b, w)
    ensures HasBit(XorB(a, b), w) <==> HasBit(a, w) != HasBit(b, w)
  {
    hide HasBit, AndB, OrB, XorB;
    Bitwise01(a, b);
    Bitwise23(a, b);
    Bitwise45(a, b);
    Bitwise67(a, b);
  }

  lemma LowHalves(x: int)
    ensures x == 2 * (x / 2) + Weight(HasBit(x, 0x01), 1)
    ensures x / 2 == 2 * (x / 4) + Weight(HasBit(x, 0x02), 1)
    ensures x / 4 == 2 * (x / 8) + Weight(HasBit(x, 0x04), 1)
    ensures x / 8 == 2 * (x / 0x10) + Weight(HasBit(x, 0x08), 1)
  {
  }

  lemma HighHalves(x: u8)
    ensures x / 0x10 == 2 * (x / 0x20) + Weight(HasBit(x, 0x10), 1)
    ensures x / 0x20 == 2 * (x / 0x40) + Weight(HasBit(x, 0x20), 1)
    ensures x / 0x40 == 2 * (x / 0x80) + Weight(HasBit(x, 0x40), 1)
    ensures x / 0x80 == Weight(HasBit(x, 0x80), 1)
  {
  }

  /** The eight bits make the byte. */
  lemma BitsMakeByte(x: u8)
    ensures x == Weight(HasBit(x, 0x01), 0x01) + Weight(HasBit(x, 0x02), 0x02) + Weight(HasBit(x, 0x04), 0x04)
                 + Weight(HasBit(x, 0x08), 0x08) + Weight(HasBit(x, 0x10), 0x10) + Weight(HasBit(x, 0x20), 0x20)
                 + Weight(HasBit(x, 0x40), 0x40) + Weight(HasBit(x, 0x80), 0x80)
  {
    hide HasBit;
    LowHalves(x);
    HighHalves(x);
  }

  // ----- The status register -----

  /** Where the flags stand in the status register; bit 5 is always set, and bit 4 unless an interrupt pushes it. */
  lemma StatusBits(r: Regs, c: Ctl)
    ensures var p := PushedByte(PushSR, r, c);
            && (HasBit(p, 0x80) <==> r.f.n) && (HasBit(p, 0x40) <==> r.f.v) && HasBit(p, 0x20) && (HasBit(p, 0x10) <==> !c.d1x1)
            && (HasBit(p, 0x08) <==> r.f.d) && (HasBit(p, 0x04) <==> c.i) && (HasBit(p, 0x02) <==> r.f.z)
            && (HasBit(p, 0x01) <==> r.f.c)
  {
    hide HasBit;
    var p := PushedByte(PushSR, r, c);
    var f := r.f;
    var b := if c.d1x1 then 2 else 3;
    var low := Weight(f.c, 1) + 2 * Weight(f.z, 1) + 4 * Weight(c.i, 1);
    LowFlags(p, f.c, f.z, c.i, Weight(f.d, 1) + 2 * b + 8 * Weight(f.v, 1) + 0x10 * Weight(f.n, 1));
    HighFlags(p, low, f.d, b, f.v, f.n);
    BitOf(p, 0x20, Weight(f.v, 1) + 2 * Weight(f.n, 1), true, low + 8 * Weight(f.d, 1) + 0x10 * (b - 2));
    BitOf(p, 0x10, 1 + 2 * Weight(f.v, 1) + 4 * Weight(f.n, 1), !c.d1x1, low + 8 * Weight(f.d, 1));
  }

  // ----- Addition and subtraction -----

  /** ADC: the carry is the ninth bit of the sum; V says that the signed sum does not fit. */
  lemma BinaryAdc(r: Regs)
    requires !r.f.d
    ensures var t := AluStep(Adc, r);
            var c := Weight(r.f.c, 1);
            && t.a + Weight(t.f.c, 0x100) == r.a + r.data + c
            && (t.f.v <==> !(-0x80 <= Signed(r.a) + Signed(r.data) + c < 0x80))
            && (t.f.z <==> t.a == 0) && (t.f.n <==> t.a >= 0x80)
            && t == r.(a := t.a, f := r.f.(c := t.f.c, v := t.f.v, z := t.f.z, n := t.f.n))
  {
  }

  /** SBC: the carry is set unless a borrow is needed; V says that the signed difference does not fit. */
  lemma BinarySbc(r: Regs)
    requires !r.f.d
    ensures var t := AluStep(Sbc, r);
            var b := Weight(!r.f.c, 1);
            && t.a - Weight(!t.f.c, 0x100) == r.a - r.data - b
            && (t.f.v <==> !(-0x80 <= Signed(r.a) - Signed(r.data) - b < 0x80))
            && (t.f.z <==> t.a == 0) && (t.f.n <==> t.a >= 0x80)
            && t == r.(a := t.a, f := r.f.(c := t.f.c, v := t.f.v, z := t.f.z, n := t.f.n))
  {
  }

  /** SBC adds the complement. */
  lemma SbcAddsComplement(r: Regs)
    requires !r.f.d
    ensures AluStep(Sbc, r).(data := 0xff - r.data) == AluStep(Adc, r.(data := 0xff - r.data))
  {
    BinaryAdc(r.(data := 0xff - r.data));
    BinarySbc(r);
    hide AluStep;
  }

  /** In decimal mode all flags of SBC are those of the binary difference. */
  lemma DecimalSbcFlags(r: Regs)
    ensures AluStep(Sbc, r).f == AluStep(Sbc, r.(f := r.f.(d := false))).f.(d := r.f.d)
  {
  }

  /** In decimal mode Z tells of the binary sum, and N and V of the sum before the high digit is adjusted. */
  lemma DecimalAdcFlags(r: Regs)
    requires r.f.d
    ensures var t := AluStep(Adc, r);
            var c := Weight(r.f.c, 1);
            && (t.f.z <==> (r.a + r.data + c) % 0x100 == 0)
            && (t.f.n <==> HasBit(AddMiddle(r.a, r.data, c), 0x80))
            && (t.f.v <==> ((r.a >= 0x80) == (r.data >= 0x80) && (r.a >= 0x80) != t.f.n))
            && t.f.d
  {
  }

  // ----- Comparisons -----

  function Compared(op: AluOp, r: Regs): u8
    requires op.Cmp? || op.Cpx? || op.Cpy?
  {
    if op.Cmp? then r.a else if op.Cpx? then r.x else r.y
  }

  /** A comparison is a binary subtraction without borrow that keeps the register and V. */
  lemma ComparisonSubtracts(op: AluOp, r: Regs)
    requires op.Cmp? || op.Cpx? || op.Cpy?
    ensures var reg := Compared(op, r);
            var t := AluStep(Sbc, r.(a := reg, f := r.f.(c := true, d := false)));
            && AluStep(op, r) == r.(f := t.f.(v := r.f.v, d := r.f.d))
            && (AluStep(op, r).f.c <==> reg >= r.data) && (AluStep(op, r).f.z <==> reg == r.data)
  {
    CompareSubtracts(r, Compared(op, r));
    hide DoSBC, Compare;
  }

  lemma CompareSubtracts(r: Regs, reg: u8)
    ensures var t := DoSBC(r.(a := reg, f := r.f.(c := true, d := false)));
            Compare(r, reg) == r.(f := t.f.(v := r.f.v, d := r.f.d))
    ensures Compare(r, reg).f.c <==> reg >= r.data
    ensures Compare(r, reg).f.z <==> reg == r.data
  {
  }

  /** BIT tells of the operand: Z of its conjunction with A, N and V of its bits 7 and 6. */
  lemma BitTells(r: Regs)
    ensures var t := AluStep(Bit, r);
            && t == r.(f := r.f.(z := t.f.z, n := t.f.n, v := t.f.v))
            && (t.f.z <==> AluStep(And, r).f.z) && (t.f.n <==> HasBit(r.data, 0x80)) && (t.f.v <==> HasBit(r.data, 0x40))
  {
    hide AndB;
  }

  // ----- Shifts -----

  /** The bit shifted out goes into the carry, and nothing is lost. */
  lemma ShiftsConserve(r: Regs)
    ensures var t := AluStep(Asla, r); t.a + Weight(t.f.c, 0x100) == 2 * r.a
    ensures var t := AluStep(Rola, r); t.a + Weight(t.f.c, 0x100) == 2 * r.a + Weight(r.f.c, 1)
    ensures var t := AluStep(Lsra, r); 2 * t.a + Weight(t.f.c, 1) == r.a
    ensures var t := AluStep(Rora, r); 2 * t.a + Weight(t.f.c, 1) == r.a + Weight(r.f.c, 0x100)
  {
    LeftShift(r.a, false);
    LeftShift(r.a, r.f.c);
    hide RotateLeft;
  }

  lemma LeftShift(x: u8, c: bool)
    ensures RotateLeft(x, c) + Weight(x >= 0x80, 0x100) == 2 * x + Weight(c, 1)
  {
  }

  /** ROR undoes ROL, and ROL ROR, in A and in the carry. */
  lemma RotationsUndo(r: Regs)
    ensures var t := AluStep(Rora, AluStep(Rola, r)); t.a == r.a && t.f.c == r.f.c
    ensures var t := AluStep(Rola, AluStep(Rora, r)); t.a == r.a && t.f.c == r.f.c
  {
    ShiftsConserve(r);
    ShiftsConserve(AluStep(Rola, r));
    ShiftsConserve(AluStep(Rora, r));
    hide AluStep;
  }

  /** The shifts of memory do to the operand, and to the flags, what those of A do to A. */
  lemma MemoryShifts(a: Octal, r: Regs)
    requires a < 4
    ensures Modify(a).RmwI? && ModifyRegister(a).AluI?
    ensures var t := RmwStep(Modify(a).rmw, r);
            var u := AluStep(ModifyRegister(a).alu, r.(a := r.data));
            t == r.(data := u.a, f := u.f)
  {
    hide RotateLeft, RotateRight, SetNZ;
  }

  // ----- Counting -----

  /** N and Z tell of the byte, the other flags stay. */
  predicate FlagsTell(f: Flags, was: Flags, value: u8) {
    f == was.(n := f.n, z := f.z) && (f.z <==> value == 0) && (f.n <==> HasBit(value, 0x80))
  }

  /** Counting up and counting down undo each other, in X, in Y and in memory. */
  lemma CountingUndoes(r: Regs)
    ensures AluStep(Dex, AluStep(Inx, r)).x == r.x && AluStep(Inx, AluStep(Dex, r)).x == r.x
    ensures AluStep(Dey, AluStep(Iny, r)).y == r.y && AluStep(Iny, AluStep(Dey, r)).y == r.y
    ensures RmwStep(Dec, RmwStep(Inc, r)).data == r.data && RmwStep(Inc, RmwStep(Dec, r)).data == r.data
  {
    ByteBack(r.x);
    ByteBack(r.y);
    ByteBack(r.data);
    hide SetNZ, Byte;
  }

  lemma ByteBack(x: u8)
    ensures Byte(Byte(x + 1) - 1) == x && Byte(Byte(x - 1) + 1) == x
  {
  }

  /** Counting up adds one, beyond $FF to 0; nothing else but N and Z changes. */
  lemma CountsUp(r: Regs)
    ensures var t := AluStep(Inx, r);
            t == r.(x := t.x, f := t.f) && FlagsTell(t.f, r.f, t.x) && t.x == if r.x == 0xff then 0 else r.x + 1
    ensures var t := AluStep(Iny, r);
            t == r.(y := t.y, f := t.f) && FlagsTell(t.f, r.f, t.y) && t.y == if r.y == 0xff then 0 else r.y + 1
    ensures var t := RmwStep(Inc, r);
            t == r.(data := t.data, f := t.f) && FlagsTell(t.f, r.f, t.data) && t.data == if r.data == 0xff then 0 else r.data + 1
  {
    hide FlagsTell, SetNZ, Byte;
    SetTells(r.f, Byte(r.x + 1));
    SetTells(r.f, Byte(r.y + 1));
    SetTells(r.f, Byte(r.data + 1));
    NextByte(r.x);
    NextByte(r.y);
    NextByte(r.data);
  }

  lemma NextByte(x: u8)
    ensures Byte(x + 1) == if x == 0xff then 0 else x + 1
  {
  }

  // ----- Transfers and loads -----

  /** The register an instruction reads and the one it fills: 0 for A, 1 for X, 2 for Y, 3 for S, 4 for the operand. */
  function Cell(r: Regs, k: nat): u8
    requires k < 5
  {
    match k
    case 0 => r.a
    case 1 => r.x
    case 2 => r.y
    case 3 => r.s
    case _ => r.data
  }

  predicate Moves(op: AluOp, from: nat, to: nat, r: Regs)
    requires from < 5 && to < 5
  {
    var t := AluStep(op, r);
    && Cell(t, to) == Cell(r, from)
    && (to != 0 ==> t.a == r.a) && (to != 1 ==> t.x == r.x) && (to != 2 ==> t.y == r.y) && (to != 3 ==> t.s == r.s)
    && t.data == r.data && t.pc == r.pc && t.ea == r.ea && FlagsTell(t.f, r.f, Cell(r, from))
  }

  /** Transfers and loads move one byte and set N and Z by it. */
  lemma MovesOneByte(r: Regs)
    ensures Moves(Tax, 0, 1, r) && Moves(Tay, 0, 2, r) && Moves(Tsx, 3, 1, r) && Moves(Txa, 1, 0, r) && Moves(Tya, 2, 0, r)
    ensures Moves(Lda, 4, 0, r) && Moves(Ldx, 4, 1, r) && Moves(Ldy, 4, 2, r)
  {
    hide Moves;
    MovesFromA(r);
    MovesToA(r);
    LoadsMove(r);
  }

  lemma SetTells(f: Flags, value: u8)
    ensures FlagsTell(SetNZ(f, value), f, value)
  {
  }

  lemma MovesFromA(r: Regs)
    ensures Moves(Tax, 0, 1, r) && Moves(Tay, 0, 2, r) && Moves(Tsx, 3, 1, r)
  {
    hide FlagsTell, SetNZ;
    SetTells(r.f, r.a);
    SetTells(r.f, r.s);
  }

  lemma MovesToA(r: Regs)
    ensures Moves(Txa, 1, 0, r) && Moves(Tya, 2, 0, r)
  {
    hide FlagsTell, SetNZ;
    SetTells(r.f, r.x);
    SetTells(r.f, r.y);
  }

  lemma LoadsMove(r: Regs)
    ensures Moves(Lda, 4, 0, r) && Moves(Ldx, 4, 1, r) && Moves(Ldy, 4, 2, r)
  {
    hide FlagsTell, SetNZ;
    SetTells(r.f, r.data);
  }

  /** TXS alone sets no flags; TSX brings the byte back. */
  lemma StackPointerMoves(r: Regs)
    ensures AluStep(Txs, r).f == r.f && AluStep(Tsx, AluStep(Txs, r)).x == r.x && AluStep(Txs, AluStep(Tsx, r)).s == r.s
  {
  }

  // ----- Flags -----

  /** The flag the bits 6 and 7 of a flag instruction select. */
  function SetFlag(which: int, f: Flags, on: bool): Flags {
    match which
    case 0 => f.(c := on)
    case 2 => f.(v := on)
    case 3 => f.(d := on)
    case _ => f
  }

  lemma FlagFields(i: u8)
    requires i % 0x20 == 0x18
    ensures i / 4 % 8 == 6 && i % 4 == 0
    ensures i / 0x20 / 2 == i / 0x40
  {
  }

  lemma FlagInstrSets(a: Octal, r: Regs)
    requires a != 4
    ensures FlagInstr(a).AluI?
    ensures AluStep(FlagInstr(a).alu, r) == r.(f := SetFlag(a / 2, r.f, a % 2 == 1 && a != 5))
    ensures FlagInstr(a).alu == Cli <==> a == 2
    ensures FlagInstr(a).alu == Sei <==> a == 3
  {
  }

  /** The instructions of row 6 in column 0, TYA apart, give the flag that bits 6 and 7 select (C, I, V or D) the value of
      bit 5; only there is no instruction that sets V: $B8 clears it. I belongs to the sequencer. */
  lemma FlagDecoding(i: u8, r: Regs)
    requires i % 0x20 == 0x18 && i != 0x98
    ensures InstrOf(i).AluI?
    ensures AluStep(InstrOf(i).alu, r) == r.(f := SetFlag(i / 0x40, r.f, i / 0x20 % 2 == 1 && i != 0xb8))
    ensures InstrOf(i).alu == Cli <==> i == 0x58
    ensures InstrOf(i).alu == Sei <==> i == 0x78
  {
    hide InstrOf, ModeOf, ReadsOperand, AluStep, SetFlag, FlagInstr;
    Decoding(i);
    FlagFields(i);
    FlagInstrSets(i / 0x20, r);
  }

  /** CLI and SEI change I, whatever else the sequencer decides in that cycle. */
  lemma InterruptFlag(c: Ctl, sig: Signals)
    ensures !CtlStep(Alu(Cli), c, sig).i && CtlStep(Alu(Sei), c, sig).i
  {
    LookKeepsFlag(c.(i := false));
    NextKeepsFlag(CalculateInterruptTriggerCycle(c.(i := false)), sig.opcode);
    NextKeepsFlag(c.(i := true), sig.opcode);
    hide NextOpcode, CalculateInterruptTriggerCycle;
  }

  lemma LookKeepsFlag(c: Ctl)
    ensures CalculateInterruptTriggerCycle(c).i == c.i
  {
  }

  lemma NextKeepsFlag(c: Ctl, opcode: u8)
    ensures NextOpcode(c, opcode).i == c.i
  {
    hide CheckInterrupts;
  }

  // ----- The undocumented instructions -----

  /** In column 3 a read-modify-write instruction does the one of column 2 and then, with the result, the one of
      column 1 in the same row. */
  lemma CombinedDoesBoth(a: Octal, r: Regs)
    requires a != 4 && a != 5
    ensures Combined(a).RmwI? && Modify(a).RmwI? && Accumulator(a).AluI?
    ensures RmwStep(Combined(a).rmw, r) == AluStep(Accumulator(a).alu, RmwStep(Modify(a).rmw, r))
  {
    hide RmwStep, AluStep;
    ShiftThenLogic(r);
    RotateThenAdd(r);
    CountThenSubtract(r);
  }

  lemma ShiftThenLogic(r: Regs)
    ensures RmwStep(Aso, r) == AluStep(Ora, RmwStep(Asl, r))
    ensures RmwStep(Rla, r) == AluStep(And, RmwStep(Rol, r))
    ensures RmwStep(Lse, r) == AluStep(Eor, RmwStep(Lsr, r))
  {
    hide RotateLeft, OrB, AndB, XorB;
  }

  lemma RotateThenAdd(r: Regs)
    ensures RmwStep(Rra, r) == AluStep(Adc, RmwStep(Ror, r))
  {
    hide RotateRight, Byte, AddLow, AddMiddle, AddHigh, HasBit;
  }

  lemma CountThenSubtract(r: Regs)
    ensures RmwStep(Ins, r) == AluStep(Sbc, RmwStep(Inc, r))
    ensures RmwStep(Dcm, r) == AluStep(Cmp, RmwStep(Dec, r))
  {
    hide Byte, SubDecimal, HasBit;
  }

  /** The loads and stores of the column do both as well: LAX loads A and X, SAX stores the bits they share. */
  lemma LaxLoadsBoth(r: Regs)
    ensures AluStep(Lax, r) == AluStep(Ldx, AluStep(Lda, r)) == AluStep(Lda, AluStep(Ldx, r))
    ensures AluStep(Lax, r) == AluStep(Tax, AluStep(Lda, r))
    ensures StoreStep(Axs, r, false).data == AluStep(And, r.(a := StoreStep(Sta, r, false).data, data := StoreStep(Stx, r, false).data)).a
  {
    hide AndB;
  }

  /** With an immediate operand: AND first, and then ASR shifts right, ANC copies N to the carry, and ARR rotates right
      but takes C and V from bits 6 and 5. */
  lemma ImmediateAndFirst(r: Regs)
    ensures AluStep(Alr, r) == AluStep(Lsra, AluStep(And, r))
    ensures var t := AluStep(And, r); AluStep(Anc, r) == t.(f := t.f.(c := t.f.n))
    ensures !r.f.d ==>
            var t := AluStep(Rora, AluStep(And, r));
            AluStep(Arr, r) == t.(f := t.f.(c := HasBit(t.a, 0x40), v := HasBit(t.a, 0x40) != HasBit(t.a, 0x20)))
  {
    SharedAnd(r.a, r.data);
    hide AndB, RotateRight, HasBit;
  }

  /** SBX compares the bits A and X share with the operand and keeps the difference in X; LAS shares the operand with S
      among A, X and S. */
  lemma SharedBits(r: Regs)
    ensures var t := AluStep(Sbx, r);
            && t.x == Byte(AndB(r.a, r.x) - r.data) && t.f == AluStep(Cmp, r.(a := AndB(r.a, r.x))).f
            && t == r.(x := t.x, f := t.f)
    ensures var t := AluStep(Las, r); t.a == t.x == t.s == AndB(r.data, r.s) && FlagsTell(t.f, r.f, t.a)
  {
    SharedAnd(r.a, r.x);
    hide AndB;
  }

  lemma SharedAnd(a: u8, b: u8)
    ensures AndB(a, b) == AndB(b, a)
  {
  }
}
