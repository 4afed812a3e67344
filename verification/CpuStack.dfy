/**
 The stack of the 6510 (src/c64/CPU/mos6510.cpp): an interrupt and its RTI, and nested JSR and RTS.
 */
module CpuStack {
  import opened Arith
  import opened CpuTable
  import opened CpuCore
  import opened CpuSequencer
  import opened CpuRuns

  // ----- Walking through a row -----

  /** Micro-operations that always go on to the next slot. */
  predicate Plain(op: Op) {
    !Ends(op, true) && !Ends(op, false) && !MaySkip(op) && op != InvalidOpcode
  }

  function Fold(s: Cpu, ops: seq<Op>): Cpu
    decreases |ops|
  {
    if ops == [] then s else Fold(Exec(ops[0], s).0, ops[1..])
  }

  lemma PlainAdvances(op: Op, s: Cpu)
    requires Plain(op)
    ensures Exec(op, s).0.c.cycleCount == s.c.cycleCount + 1
  {
    hide DataStep, BusOf;
  }

  /** Stepping through plain slots of a row is running their micro-operations. */
  lemma {:induction false} WalkRow(s: Cpu, i: u8, k: nat, ops: seq<Op>)
    requires s.c.cycleCount == 8 * i + k && k + |ops| < |Slots(i)| <= 8
    requires forall j | 0 <= j < |ops| :: Slots(i)[k + j].op == ops[j] && Plain(ops[j])
    ensures CanStep(s, |ops|) && Steps(s, |ops|) == Fold(s, ops)
    ensures Fold(s, ops).c.cycleCount == 8 * i + k + |ops|
    decreases |ops|
  {
    hide Slots, Exec, Plain;
    if ops != [] {
      SlotInRow(s.c, i, k);
      PlainIsNotInvalid(ops[0]);
      PlainAdvances(ops[0], s);
      assert Step(s) == Exec(ops[0], s).0;
      WalkRow(Step(s), i, k + 1, ops[1..]);
    }
  }

  lemma PlainIsNotInvalid(op: Op)
    requires Plain(op)
    ensures op != InvalidOpcode
  {
  }

  lemma SlotInRow(c: Ctl, i: u8, k: nat)
    requires c.cycleCount == 8 * i + k && k < |Slots(i)| && k < 8
    ensures InTable(c) && SlotAt(c) == Slots(i)[k]
  {
    hide Slots;
    assert c.cycleCount / 8 == i && c.cycleCount % 8 == k;
  }

  // ----- Single micro-operations -----

  lemma FlagsRoundTrip(f: Flags, i: bool, extra: int)
    requires extra == 0x20 || extra == 0x30
    ensures UnpackFlags(PackFlags(f, i) + extra) == f && UnpackI(PackFlags(f, i) + extra) == i
  {
    var b := extra / 0x10;
    var x := PackFlags(f, i) + extra;
    var c, z, k, d, v, n := Weight(f.c, 1), Weight(f.z, 1), Weight(i, 1), Weight(f.d, 1), Weight(f.v, 1), Weight(f.n, 1);
    assert x == c + 2 * z + 4 * k + 8 * d + 0x10 * b + 0x40 * v + 0x80 * n;
    hide HasBit, PackFlags;
    LowFlags(x, f.c, f.z, i, d + 2 * b + 8 * v + 0x10 * n);
    HighFlags(x, c + 2 * z + 4 * k, f.d, b, f.v, f.n);
  }

  lemma LowFlags(x: int, c: bool, z: bool, i: bool, high: int)
    requires x == Weight(c, 1) + 2 * Weight(z, 1) + 4 * Weight(i, 1) + 8 * high
    ensures HasBit(x, 0x01) == c && HasBit(x, 0x02) == z && HasBit(x, 0x04) == i
  {
    hide HasBit;
    BitOf(x, 0x01, Weight(z, 1) + 2 * Weight(i, 1) + 4 * high, c, 0);
    BitOf(x, 0x02, Weight(i, 1) + 2 * high, z, Weight(c, 1));
    BitOf(x, 0x04, high, i, Weight(c, 1) + 2 * Weight(z, 1));
  }

  lemma HighFlags(x: int, low: int, d: bool, b: int, v: bool, n: bool)
    requires 0 <= low < 8 && 0 <= b < 4
    requires x == low + 8 * Weight(d, 1) + 0x10 * b + 0x40 * Weight(v, 1) + 0x80 * Weight(n, 1)
    ensures HasBit(x, 0x08) == d && HasBit(x, 0x40) == v && HasBit(x, 0x80) == n
  {
    hide HasBit;
    BitOf(x, 0x08, b + 4 * Weight(v, 1) + 8 * Weight(n, 1), d, low);
    BitOf(x, 0x40, Weight(n, 1), v, low + 8 * Weight(d, 1) + 0x10 * b);
    BitOf(x, 0x80, 0, n, low + 8 * Weight(d, 1) + 0x10 * b + 0x40 * Weight(v, 1));
  }

  lemma BitOf(x: int, weight: int, high: int, on: bool, low: int)
    requires weight > 0 && 0 <= low < weight
    requires x == (2 * high + Weight(on, 1)) * weight + low
    ensures HasBit(x, weight) == on
  {
    DivModUnique(x, weight, 2 * high + Weight(on, 1), low);
  }

  /** Memory with a byte in the stack page changed. */
  function Pushed(mem: Memory, sp: u8, value: u8): Memory { mem[StackAddr(sp) := value] }

  // What the stack micro-operations do, apart from moving to the next slot.

  lemma PushEffect(op: Op, s: Cpu)
    requires op == PushHighPC || op == PushLowPC || op == PushSR
    ensures var t := Exec(op, s).0;
            t.r == s.r.(s := Byte(s.r.s - 1)) && t.c == s.c.(cycleCount := s.c.cycleCount + 1)
            && t.mem == Pushed(s.mem, s.r.s, PushedByte(op, s.r, s.c))
  {
  }

  lemma PushPcEffect(s: Cpu)
    ensures var sp := Byte(s.r.s - 1);
            && Exec(PushHighPC, s).0 == Cpu(s.r.(s := sp), s.c.(cycleCount := s.c.cycleCount + 1), Pushed(s.mem, s.r.s, Hi(s.r.pc)))
            && Exec(PushLowPC, s).0 == Cpu(s.r.(s := sp), s.c.(cycleCount := s.c.cycleCount + 1), Pushed(s.mem, s.r.s, Lo(s.r.pc)))
  {
    hide Exec, Pushed, Byte, Hi, Lo;
    PushEffect(PushHighPC, s);
    PushEffect(PushLowPC, s);
  }

  lemma PushSrEffect(s: Cpu)
    requires s.c.d1x1
    ensures PackFlags(s.r.f, s.c.i) <= 0xcf
    ensures var t := Exec(PushSR, s).0;
            t.r == s.r.(s := Byte(s.r.s - 1)) && t.mem == Pushed(s.mem, s.r.s, PackFlags(s.r.f, s.c.i) + 0x20)
  {
    PackLeavesTwoBits(s.r.f, s.c.i);
    hide Exec, Pushed, Byte, PackFlags;
    PushEffect(PushSR, s);
  }

  lemma BrkPushEffect(s: Cpu)
    ensures var t := Exec(BrkPushLowPC, s).0;
            && t.r == s.r.(s := Byte(s.r.s - 1), ea := Vector(s.c))
            && t.c.i == s.c.i && t.c.d1x1 == s.c.d1x1
            && t.mem == Pushed(s.mem, s.r.s, Lo(s.r.pc))
  {
  }

  lemma PopPcEffect(s: Cpu)
    ensures var b := s.mem[StackAddr(Byte(s.r.s + 1))];
            && Exec(PopLowPC, s).0.r == s.r.(s := Byte(s.r.s + 1), ea := WithLo(s.r.ea, b))
            && Exec(PopHighPC, s).0.r == s.r.(s := Byte(s.r.s + 1), ea := WithHi(s.r.ea, b))
            && Exec(PopLowPC, s).0.mem == Exec(PopHighPC, s).0.mem == s.mem
            && Exec(PopLowPC, s).0.c.i == Exec(PopHighPC, s).0.c.i == s.c.i
  {
  }

  lemma PopSrEffect(s: Cpu)
    ensures var b := s.mem[StackAddr(Byte(s.r.s + 1))];
            && Exec(PopSR, s).0.r == s.r.(s := Byte(s.r.s + 1), f := UnpackFlags(b))
            && Exec(PopSR, s).0.c.i == UnpackI(b)
            && Exec(PopSR, s).0.mem == s.mem
  {
  }

  /** Micro-operations that leave the stack, and what the stack micro-operations read, alone. */
  lemma FetchEffect(s: Cpu)
    ensures var t := Exec(FetchDataByte, s).0;
            && t.r.s == s.r.s && t.r.f == s.r.f && t.mem == s.mem && t.c == s.c.(cycleCount := s.c.cycleCount + 1)
            && t.r.pc == (if s.c.d1x1 then s.r.pc else Word(s.r.pc + 1))
    ensures Exec(WasteCycle, s).0 == s.(c := s.c.(cycleCount := s.c.cycleCount + 1))
  {
  }

  // ----- Interrupt and RTI -----

  const EnterOps := [FetchDataByte, PushHighPC, BrkPushLowPC, PushSR]
  const LeaveOps := [FetchDataByte, WasteCycle, PopSR, PopLowPC, PopHighPC]

  /** The cell n bytes above the stack pointer. */
  function Above(s: Cpu, n: nat): u8 { s.mem[StackAddr(Byte(s.r.s + n))] }

  lemma FoldFour(s: Cpu, a: Op, b: Op, c: Op, d: Op)
    ensures Fold(s, [a, b, c, d]) == Exec(d, Exec(c, Exec(b, Exec(a, s).0).0).0).0
  {
    hide Exec;
    var s1 := Exec(a, s).0;
    var s2 := Exec(b, s1).0;
    assert [a, b, c, d][1..] == [b, c, d] && [b, c, d][1..] == [c, d] && [c, d][1..] == [d] && [d][1..] == [];
    assert Fold(s, [a, b, c, d]) == Fold(s1, [b, c, d]) == Fold(s2, [c, d]);
    assert Fold(s2, [c, d]) == Fold(Exec(c, s2).0, [d]);
  }

  lemma FoldFive(s: Cpu, a: Op, b: Op, c: Op, d: Op, e: Op)
    ensures Fold(s, [a, b, c, d, e]) == Exec(e, Exec(d, Exec(c, Exec(b, Exec(a, s).0).0).0).0).0
  {
    hide Exec;
    assert [a, b, c, d, e][1..] == [b, c, d, e];
    FoldFour(Exec(a, s).0, b, c, d, e);
  }

  /** The stack pointer wraps within its page; three pushes hit three different cells. */
  lemma ThreePushes(mem: Memory, sp: u8, x: u8, y: u8, z: u8)
    ensures var m := Pushed(Pushed(Pushed(mem, sp, x), Byte(sp - 1), y), Byte(Byte(sp - 1) - 1), z);
            var t := Byte(Byte(Byte(sp - 1) - 1) - 1);
            m[StackAddr(Byte(t + 1))] == z && m[StackAddr(Byte(t + 2))] == y && m[StackAddr(Byte(t + 3))] == x
  {
  }

  lemma EnterWrites(s: Cpu)
    requires s.c.d1x1
    ensures var t := Fold(s, EnterOps);
            var sp := s.r.s;
            && t.r.s == Byte(Byte(Byte(sp - 1) - 1) - 1)
            && t.mem == Pushed(Pushed(Pushed(s.mem, sp, Hi(s.r.pc)), Byte(sp - 1), Lo(s.r.pc)),
                               Byte(Byte(sp - 1) - 1), PackFlags(s.r.f, s.c.i) + 0x20)
  {
    hide Exec, PackFlags, Vector, Pushed, Byte, Word, StackAddr, Hi, Lo;
    PackLeavesTwoBits(s.r.f, s.c.i);
    var s1 := Exec(FetchDataByte, s).0;
    FetchEffect(s);
    var s2 := Exec(PushHighPC, s1).0;
    PushPcEffect(s1);
    BrkPushEffect(s2);
    PushSrEffect(Exec(BrkPushLowPC, s2).0);
    FoldFour(s, FetchDataByte, PushHighPC, BrkPushLowPC, PushSR);
  }

  lemma PackLeavesTwoBits(f: Flags, i: bool)
    ensures PackFlags(f, i) <= 0xcf
  {
  }

  /** Entering an interrupt leaves the flags and the return address on the stack. */
  lemma EnterPushes(s: Cpu)
    requires s.c.d1x1
    ensures var t := Fold(s, EnterOps);
            && t.r.s == Byte(Byte(Byte(s.r.s - 1) - 1) - 1)
            && Above(t, 1) == PackFlags(s.r.f, s.c.i) + 0x20
            && Above(t, 2) == Lo(s.r.pc) && Above(t, 3) == Hi(s.r.pc)
  {
    hide Exec, PackFlags, Fold, Pushed, StackAddr, Byte, Hi, Lo;
    PackLeavesTwoBits(s.r.f, s.c.i);
    EnterWrites(s);
    ThreePushes(s.mem, s.r.s, Hi(s.r.pc), Lo(s.r.pc), PackFlags(s.r.f, s.c.i) + 0x20);
  }

  /** Leaving takes the flags and the address off again. */
  lemma LeavePops(u: Cpu)
    ensures var v := Fold(u, LeaveOps);
            && v.r.s == Byte(u.r.s + 3)
            && v.r.f == UnpackFlags(Above(u, 1)) && v.c.i == UnpackI(Above(u, 1))
            && v.r.ea == Join(Above(u, 3), Above(u, 2))
  {
    hide Exec, UnpackFlags, UnpackI, Byte, StackAddr, Join, WithLo, WithHi, Word;
    FetchEffect(u);
    var u2 := Exec(WasteCycle, Exec(FetchDataByte, u).0).0;
    FetchEffect(Exec(FetchDataByte, u).0);
    PopSrEffect(u2);
    var u3 := Exec(PopSR, u2).0;
    PopPcEffect(u3);
    var u4 := Exec(PopLowPC, u3).0;
    PopPcEffect(u4);
    ByteTwice(u.r.s);
    ByteThrice(u.r.s);
    JoinBytes(u3.r.ea, Above(u, 2), Above(u, 3));
    FoldFive(u, FetchDataByte, WasteCycle, PopSR, PopLowPC, PopHighPC);
  }

  lemma RtiRow()
    ensures Slots(RTIn) ==
            [Free(FetchDataByte), Free(WasteCycle), Free(PopSR), Free(PopLowPC), Free(PopHighPC), Free(Rti),
             Free(InterruptsAndNextOpcode)]
  {
  }

  // ----- Among stolen cycles and moving interrupt lines -----

  /** What the stack micro-operations go by; the interrupt lines may move meanwhile. */
  predicate SameStack(a: Cpu, b: Cpu) {
    && a.r.pc == b.r.pc && a.r.s == b.r.s && a.r.f == b.r.f && a.mem == b.mem
    && a.c.cycleCount == b.c.cycleCount && a.c.i == b.c.i && a.c.d1x1 == b.c.d1x1
  }

  predicate StackOp(op: Op) {
    op in EnterOps || op in LeaveOps
  }

  lemma StackOpIsPlain(op: Op)
    requires StackOp(op)
    ensures Plain(op)
    ensures op.FetchDataByte? || op.PushHighPC? || op.BrkPushLowPC? || op.PushSR?
            || op.WasteCycle? || op.PopSR? || op.PopLowPC? || op.PopHighPC?
  {
  }

  lemma PushSame(op: Op, a: Cpu, b: Cpu)
    requires op.PushHighPC? || op.PushSR?
    requires SameStack(a, b)
    ensures SameStack(Exec(op, a).0, Exec(op, b).0)
    ensures Exec(op, a).0.r.ea == a.r.ea && Exec(op, b).0.r.ea == b.r.ea
  {
    PushEffect(op, a);
    PushEffect(op, b);
    hide Exec, Pushed, Byte, PackFlags, Hi, Lo;
  }

  lemma BrkPushSame(a: Cpu, b: Cpu)
    requires SameStack(a, b)
    ensures SameStack(Exec(BrkPushLowPC, a).0, Exec(BrkPushLowPC, b).0)
  {
    BrkPushEffect(a);
    BrkPushEffect(b);
    PlainAdvances(BrkPushLowPC, a);
    PlainAdvances(BrkPushLowPC, b);
    hide Exec, Pushed, Byte, Lo;
  }

  lemma FetchSame(a: Cpu, b: Cpu)
    requires SameStack(a, b)
    ensures SameStack(Exec(FetchDataByte, a).0, Exec(FetchDataByte, b).0)
    ensures SameStack(Exec(WasteCycle, a).0, Exec(WasteCycle, b).0)
    ensures Exec(FetchDataByte, a).0.r.ea == Exec(WasteCycle, a).0.r.ea == a.r.ea
  {
    FetchEffect(a);
    FetchEffect(b);
    FetchKeepsEa(a);
    hide Exec, Word;
  }

  lemma FetchKeepsEa(a: Cpu)
    ensures Exec(FetchDataByte, a).0.r.ea == Exec(WasteCycle, a).0.r.ea == a.r.ea
  {
  }

  lemma PopSame(op: Op, a: Cpu, b: Cpu)
    requires op.PopSR? || op.PopLowPC? || op.PopHighPC?
    requires SameStack(a, b)
    ensures SameStack(Exec(op, a).0, Exec(op, b).0)
    ensures a.r.ea == b.r.ea ==> Exec(op, a).0.r.ea == Exec(op, b).0.r.ea
  {
    hide Exec, SameStack;
    if op.PopSR? {
      PopSrSame(a, b);
    } else {
      PopPcSame(op, a, b);
    }
  }

  lemma PopSrSame(a: Cpu, b: Cpu)
    requires SameStack(a, b)
    ensures SameStack(Exec(PopSR, a).0, Exec(PopSR, b).0)
    ensures Exec(PopSR, a).0.r.ea == a.r.ea && Exec(PopSR, b).0.r.ea == b.r.ea
  {
    PopSrEffect(a);
    PopSrEffect(b);
    PopKeepsD(PopSR, a);
    PopKeepsD(PopSR, b);
    hide Exec, Byte, StackAddr, UnpackFlags, UnpackI;
  }

  lemma PopPcSame(op: Op, a: Cpu, b: Cpu)
    requires op.PopLowPC? || op.PopHighPC?
    requires SameStack(a, b)
    ensures SameStack(Exec(op, a).0, Exec(op, b).0)
    ensures a.r.ea == b.r.ea ==> Exec(op, a).0.r.ea == Exec(op, b).0.r.ea
  {
    PopPcEffect(a);
    PopPcEffect(b);
    PopKeepsD(op, a);
    PopKeepsD(op, b);
    hide Exec, Byte, StackAddr, WithLo, WithHi;
  }

  lemma PopKeepsD(op: Op, a: Cpu)
    requires op.PopSR? || op.PopLowPC? || op.PopHighPC?
    ensures Exec(op, a).0.c.d1x1 == a.c.d1x1 && Exec(op, a).0.c.cycleCount == a.c.cycleCount + 1
  {
  }

  /** The stack micro-operations do the same to states that agree in this much. */
  lemma ExecSame(op: Op, a: Cpu, b: Cpu)
    requires StackOp(op) && SameStack(a, b)
    ensures SameStack(Exec(op, a).0, Exec(op, b).0)
    ensures a.r.ea == b.r.ea && !op.BrkPushLowPC? ==> Exec(op, a).0.r.ea == Exec(op, b).0.r.ea
  {
    StackOpIsPlain(op);
    hide Exec, SameStack, StackOp;
    if op.PushHighPC? || op.PushSR? {
      PushSame(op, a, b);
    } else if op.BrkPushLowPC? {
      BrkPushSame(a, b);
    } else if op.FetchDataByte? || op.WasteCycle? {
      FetchSame(a, b);
      FetchKeepsEa(b);
    } else {
      PopSame(op, a, b);
    }
  }

  /** So do the events between them, in a row whose first cycle is not that of CLI or SEI. */
  lemma QuietSame(s: Cpu, b: Cpu, e: Event)
    requires Running(s.c) && !Executes(s.c, e) && !e.Memory? && s.c.cycleCount != 8 * CLIn && s.c.cycleCount != 8 * SEIn
    requires SameStack(s, b)
    ensures SameStack(React(s, e), b) && React(s, e).r == s.r
  {
    QuietCtl(s.c, e);
    hide Slots, Step, Exec, LineEvent, Stall;
  }

  lemma QuietCtl(c: Ctl, e: Event)
    requires c.cycleCount != 8 * CLIn && c.cycleCount != 8 * SEIn
    ensures var t := LineEvent(c, e); t.cycleCount == c.cycleCount && t.i == c.i && t.d1x1 == c.d1x1
    ensures var t := Stall(c); t.cycleCount == c.cycleCount && t.i == c.i && t.d1x1 == c.d1x1
  {
  }

  predicate NoMemory(events: seq<Event>) { forall e | e in events :: !e.Memory? }

  /** From slot k on, row i runs these micro-operations, and at least one more. */
  ghost predicate InRow(i: u8, k: nat, ops: seq<Op>) {
    k + |ops| < |Slots(i)| <= 8 && forall j | 0 <= j < |ops| :: Slots(i)[k + j].op == ops[j] && StackOp(ops[j])
  }

  lemma FirstInRow(i: u8, k: nat, ops: seq<Op>)
    requires InRow(i, k, ops) && ops != []
    ensures k < |Slots(i)| <= 8 && Slots(i)[k].op == ops[0] && StackOp(ops[0]) && InRow(i, k + 1, ops[1..])
  {
    hide Slots, StackOp;
    assert Slots(i)[k + 0].op == ops[0];
    forall j | 0 <= j < |ops[1..]| ensures Slots(i)[k + 1 + j].op == ops[1..][j] && StackOp(ops[1..][j]) {
      assert ops[1..][j] == ops[j + 1];
    }
  }

  predicate KeepsVector(ops: seq<Op>) { forall op | op in ops :: !op.BrkPushLowPC? }

  /** One event of a run through a row: it runs the first micro-operation, or none. */
  lemma RunFoldStep(s: Cpu, b: Cpu, i: u8, k: nat, ops: seq<Op>, e: Event)
    requires s.c.cycleCount == 8 * i + k && k < |Slots(i)| <= 8 && i != CLIn && i != SEIn && !e.Memory?
    requires Running(s.c) && SameStack(s, b) && SlotAt(s.c) == Slots(i)[k]
    requires ops != [] ==> Slots(i)[k].op == ops[0] && StackOp(ops[0])
    ensures !Executes(s.c, e) ==> React(s, e).c.cycleCount == s.c.cycleCount && SameStack(React(s, e), b) && React(s, e).r == s.r
    ensures Executes(s.c, e) && ops != [] ==>
            && React(s, e).c.cycleCount == 8 * i + k + 1 && SameStack(React(s, e), Exec(ops[0], b).0)
            && (s.r.ea == b.r.ea && !ops[0].BrkPushLowPC? ==> React(s, e).r.ea == Exec(ops[0], b).0.r.ea)
  {
    hide Slots, Exec, Plain, StackOp;
    if Executes(s.c, e) {
      if ops != [] {
        StackOpIsPlain(ops[0]);
        PlainAdvances(ops[0], s);
        ExecSame(ops[0], s, b);
        assert React(s, e) == Exec(ops[0], s).0;
      }
    } else {
      QuietSame(s, b, e);
    }
  }

  /** However the cycles of a row are spread over a run, the run does what its micro-operations do in a row. */
  lemma {:induction false} RunFold(s: Cpu, b: Cpu, i: u8, k: nat, ops: seq<Op>, events: seq<Event>)
    requires s.c.cycleCount == 8 * i + k && k + |ops| < |Slots(i)| <= 8 && i != CLIn && i != SEIn
    requires InRow(i, k, ops)
    requires SameStack(s, b) && NoMemory(events) && IsRun(s, events) && Executed(s, events) == |ops|
    ensures SameStack(Run(s, events), Fold(b, ops)) && Run(s, events).c.cycleCount == 8 * i + k + |ops|
    ensures s.r.ea == b.r.ea && KeepsVector(ops) ==> Run(s, events).r.ea == Fold(b, ops).r.ea
    decreases |events|
  {
    hide Slots, Exec, Plain, StackOp, InRow, SameStack, React, Executes, SlotAt;
    SlotInRow(s.c, i, k);
    if events != [] {
      var e := events[0];
      assert e in events;
      if ops != [] {
        FirstInRow(i, k, ops);
      }
      RunFoldStep(s, b, i, k, ops, e);
      if Executes(s.c, e) {
        RunFold(React(s, e), Exec(ops[0], b).0, i, k + 1, ops[1..], events[1..]);
      } else {
        RunFold(React(s, e), b, i, k, ops, events[1..]);
      }
    }
  }

  lemma EnterInRow()
    ensures InRow(BRKn, 0, EnterOps) && |EnterOps| == 4
  {
    hide Slots;
    BrkRow();
  }

  lemma EnterRun(s: Cpu, events: seq<Event>)
    requires s.c.cycleCount == 8 * BRKn && NoMemory(events) && IsRun(s, events) && Executed(s, events) == 4
    ensures SameStack(Run(s, events), Fold(s, EnterOps))
  {
    hide Exec, Slots, Fold, Run, IsRun, Executed, StackOp;
    BrkRow();
    EnterInRow();
    RunFold(s, s, BRKn, 0, EnterOps, events);
  }

  lemma LeaveInRow()
    ensures InRow(RTIn, 0, LeaveOps) && KeepsVector(LeaveOps) && |LeaveOps| == 5
  {
    hide Slots;
    RtiRow();
  }

  lemma LeaveRun(u: Cpu, events: seq<Event>)
    requires u.c.cycleCount == 8 * RTIn && NoMemory(events) && IsRun(u, events) && Executed(u, events) == 5
    ensures SameStack(Run(u, events), Fold(u, LeaveOps)) && Run(u, events).r.ea == Fold(u, LeaveOps).r.ea
    ensures InTable(Run(u, events).c) && SlotAt(Run(u, events).c).op == Rti
  {
    hide Exec, Slots, Fold, Run, IsRun, Executed, SlotAt, StackOp;
    RtiRow();
    LeaveInRow();
    RunFold(u, u, RTIn, 0, LeaveOps, events);
    SlotInRow(Run(u, events).c, RTIn, 5);
  }

  /** An interrupt taken in state s, with cycles stolen and interrupt lines moving while it pushes; any handler that
      leaves the three cells and S as it found them; and its RTI, run from u, again with whatever happens
      meanwhile: the CPU is about to go on at the interrupted PC with all six flags and S restored, wherever S
      stood in its page. */
  lemma RtiUndoesInterrupt(s: Cpu, enter: seq<Event>, u: Cpu, leave: seq<Event>)
    requires s.c.cycleCount == 8 * BRKn && s.c.d1x1 && NoMemory(enter) && IsRun(s, enter) && Executed(s, enter) == 4
    requires u.c.cycleCount == 8 * RTIn && NoMemory(leave) && IsRun(u, leave) && Executed(u, leave) == 5
    requires var t := Run(s, enter);
             u.r.s == t.r.s && Above(u, 1) == Above(t, 1) && Above(u, 2) == Above(t, 2) && Above(u, 3) == Above(t, 3)
    ensures var v := Run(u, leave);
            && InTable(v.c) && SlotAt(v.c).op == Rti
            && v.r.ea == s.r.pc && v.r.f == s.r.f && v.c.i == s.c.i && v.r.s == s.r.s
  {
    hide Run, IsRun, Executed, Fold, Slots, Exec, SlotAt, PackFlags, UnpackFlags, UnpackI, StackAddr, Hi, Lo, InTable, NoMemory;
    EnterRun(s, enter);
    LeaveRun(u, leave);
    EnterPushes(s);
    LeavePops(u);
    FlagsRoundTrip(s.r.f, s.c.i, 0x20);
    JoinHiLo(s.r.pc);
    hide Join, Byte;
    SameAbove(Run(s, enter), Fold(s, EnterOps));
    hide Above, SameStack;
    ThreeBack(s.r.s);
  }

  lemma SameAbove(a: Cpu, b: Cpu)
    requires SameStack(a, b)
    ensures a.r.s == b.r.s && forall n: nat :: Above(a, n) == Above(b, n)
  {
  }

  lemma ThreeBack(sp: u8)
    ensures Byte(Byte(Byte(Byte(sp - 1) - 1) - 1) + 3) == sp
  {
  }

  /** The last cycle of RTI goes on at the address it has pulled. */
  lemma RtiGoesOn(v: Cpu)
    ensures var w := Exec(Rti, v).0;
            && (w.r.pc == v.r.ea || (w.r.pc == Word(v.r.ea + 1) && w.c.cycleCount == 8 * (v.mem[v.r.ea] as int)))
            && w.r.f == v.r.f && w.r.s == v.r.s && w.c.i == v.c.i
  {
  }

  // ----- JSR and RTS -----

  const JsrOps := [FetchLowAddr, WasteCycle, PushHighPC, PushLowPC, FetchHighAddr]
  const RtsOps := [FetchDataByte, WasteCycle, PopLowPC, PopHighPC, Rts]

  lemma JumpEffects(s: Cpu)
    ensures var t := Exec(FetchLowAddr, s).0; t.r.s == s.r.s && t.mem == s.mem && t.r.pc == Word(s.r.pc + 1)
    ensures var t := Exec(FetchHighAddr, s).0; t.r.s == s.r.s && t.mem == s.mem
  {
    hide Word, WithHi;
  }

  lemma GoEffects(s: Cpu)
    ensures var t := Exec(Jmp, s).0; t.r.s == s.r.s && t.mem == s.mem
    ensures var t := Exec(Rts, s).0; t.r.s == s.r.s && t.mem == s.mem && t.r.pc == Word(s.r.ea + 1)
  {
    hide Word, NextOpcode;
  }

  /** JSR pushes the address of its last byte. */
  lemma JsrWrites(s: Cpu)
    ensures var t := Fold(s, JsrOps);
            var ret := Word(s.r.pc + 1);
            && t.r.s == Byte(Byte(s.r.s - 1) - 1)
            && t.mem == Pushed(Pushed(s.mem, s.r.s, Hi(ret)), Byte(s.r.s - 1), Lo(ret))
  {
    hide Exec, Pushed, Byte, Word, StackAddr, Hi, Lo;
    var s1 := Exec(FetchLowAddr, s).0;
    JumpEffects(s);
    var s2 := Exec(WasteCycle, s1).0;
    FetchEffect(s1);
    var s3 := Exec(PushHighPC, s2).0;
    PushPcEffect(s2);
    PushPcEffect(s3);
    JumpEffects(Exec(PushLowPC, s3).0);
    FoldFive(s, FetchLowAddr, WasteCycle, PushHighPC, PushLowPC, FetchHighAddr);
  }

  lemma ByteTwice(x: u8)
    ensures Byte(Byte(x + 1) + 1) == Byte(x + 2)
  {
  }

  lemma ByteThrice(x: u8)
    ensures Byte(Byte(Byte(x + 1) + 1) + 1) == Byte(x + 3)
  {
  }

  lemma JoinBytes(w: u16, lo: u8, hi: u8)
    ensures WithHi(WithLo(w, lo), hi) == Join(hi, lo)
  {
  }

  /** RTS goes on one past the address it pulls. */
  lemma RtsPops(u: Cpu)
    ensures var v := Fold(u, RtsOps);
            v.r.s == Byte(u.r.s + 2) && v.mem == u.mem && v.r.pc == Word(Join(Above(u, 2), Above(u, 1)) + 1)
  {
    hide Exec, Byte, StackAddr, Join, WithLo, WithHi, Word;
    FetchEffect(u);
    var u2 := Exec(WasteCycle, Exec(FetchDataByte, u).0).0;
    FetchEffect(Exec(FetchDataByte, u).0);
    PopPcEffect(u2);
    var u3 := Exec(PopLowPC, u2).0;
    PopPcEffect(u3);
    GoEffects(Exec(PopHighPC, u3).0);
    ByteTwice(u.r.s);
    JoinBytes(u2.r.ea, Above(u, 1), Above(u, 2));
    FoldFive(u, FetchDataByte, WasteCycle, PopLowPC, PopHighPC, Rts);
  }

  lemma JsrRow()
    ensures Slots(JSRw) ==
            [Free(FetchLowAddr), Free(WasteCycle), Kept(PushHighPC), Kept(PushLowPC), Free(FetchHighAddr), Free(Jmp),
             Free(InterruptsAndNextOpcode)]
  {
  }

  lemma RtsRow()
    ensures Slots(RTSn) ==
            [Free(FetchDataByte), Free(WasteCycle), Free(PopLowPC), Free(PopHighPC), Free(Rts), Free(InterruptsAndNextOpcode)]
  {
  }

  /** These are the steps the sequencer makes. */
  lemma JsrRtsWalk(s: Cpu)
    ensures s.c.cycleCount == 8 * JSRw ==>
              CanStep(s, 5) && Steps(s, 5) == Fold(s, JsrOps) && InTable(Steps(s, 5).c) && SlotAt(Steps(s, 5).c).op == Jmp
    ensures s.c.cycleCount == 8 * RTSn ==> CanStep(s, 5) && Steps(s, 5) == Fold(s, RtsOps)
  {
    JsrRow();
    RtsRow();
    hide Exec, Slots, SlotAt;
    if s.c.cycleCount == 8 * JSRw {
      WalkRow(s, JSRw, 0, JsrOps);
      SlotInRow(Fold(s, JsrOps).c, JSRw, 5);
    } else if s.c.cycleCount == 8 * RTSn {
      WalkRow(s, RTSn, 0, RtsOps);
    }
  }

  /** From s to u the stack pointer comes back and only `room` bytes below it may have changed. */
  ghost predicate Undisturbed(s: Cpu, u: Cpu, room: nat) {
    u.r.s == s.r.s && forall k: nat | 1 <= k <= 0x100 - room :: Above(u, k) == Above(s, k)
  }

  /** Well-nested subroutine calls: other work, which may use some stack of its own, a call, or a sequence. */
  datatype Trace =
    | Work(start: Cpu, end: Cpu, room: nat)
    | Call(start: Cpu, body: Trace, end: Cpu)
    | Then(first: Trace, second: Trace)

  function Start(t: Trace): Cpu { if t.Then? then Start(t.first) else t.start }
  function End(t: Trace): Cpu { if t.Then? then End(t.second) else t.end }

  /** The stack bytes a trace needs: two for every call in progress. */
  function Room(t: Trace): nat {
    match t
    case Work(_, _, room) => room
    case Call(_, body, _) => 2 + Room(body)
    case Then(first, second) => if Room(first) > Room(second) then Room(first) else Room(second)
  }

  ghost predicate IsTrace(t: Trace) {
    match t
    case Work(s, u, room) => Undisturbed(s, u, room)
    case Call(s, body, u) =>
      && s.c.cycleCount == 8 * JSRw && Start(body) == Exec(Jmp, Fold(s, JsrOps)).0
      && IsTrace(body)
      && End(body).c.cycleCount == 8 * RTSn && u == Fold(End(body), RtsOps)
    case Then(first, second) => IsTrace(first) && IsTrace(second) && End(first) == Start(second)
  }

  /** Every call in the trace returns to the instruction after its JSR. */
  predicate AllReturn(t: Trace) {
    match t
    case Work(_, _, _) => true
    case Call(s, body, u) => u.r.pc == Word(s.r.pc + 2) && AllReturn(body)
    case Then(first, second) => AllReturn(first) && AllReturn(second)
  }

  /** Two pushes, seen from the cell k bytes above where the stack pointer was. */
  lemma TwoPushes(mem: Memory, sp: u8, x: u8, y: u8, k: nat)
    requires 1 <= k <= 0xfe
    ensures var m := Pushed(Pushed(mem, sp, x), Byte(sp - 1), y);
            var t := Byte(Byte(sp - 1) - 1);
            && m[StackAddr(Byte(t + 1))] == y && m[StackAddr(Byte(t + 2))] == x
            && m[StackAddr(Byte(sp + k))] == mem[StackAddr(Byte(sp + k))]
            && Byte(t + k + 2) == Byte(sp + k)
            && Byte(t + 2) == sp
  {
  }

  /** As long as the stack holds them all, up to 128 calls deep, calls return and leave the stack alone. */
  lemma {:induction false} CallsReturn(t: Trace)
    requires IsTrace(t) && Room(t) <= 0x100
    ensures AllReturn(t) && Undisturbed(Start(t), End(t), Room(t))
  {
    hide Exec, Fold;
    match t
    case Work(_, _, _) =>
    case Then(first, second) =>
      CallsReturn(first);
      CallsReturn(second);
    case Call(s, body, u) =>
      CallsReturn(body);
      CallReturns(s, Start(body), End(body), u, Room(body));
  }

  lemma CallReturns(s: Cpu, b: Cpu, e: Cpu, u: Cpu, room: nat)
    requires b == Exec(Jmp, Fold(s, JsrOps)).0 && u == Fold(e, RtsOps)
    requires Undisturbed(b, e, room) && room + 2 <= 0x100
    ensures u.r.pc == Word(s.r.pc + 2) && Undisturbed(s, u, room + 2)
  {
    hide Exec, Fold, Pushed, StackAddr, Byte, Join, Word, Hi, Lo;
    JsrWrites(s);
    GoEffects(Fold(s, JsrOps));
    RtsPops(e);
    var ret := Word(s.r.pc + 1);
    TwoPushes(s.mem, s.r.s, Hi(ret), Lo(ret), 1);
    ReturnAddress(s.r.pc);
    assert Above(e, 1) == Above(b, 1) && Above(e, 2) == Above(b, 2);
    forall k: nat | 1 <= k <= 0x100 - (room + 2) ensures Above(u, k) == Above(s, k) {
      TwoPushes(s.mem, s.r.s, Hi(ret), Lo(ret), k);
      assert Above(e, k + 2) == Above(b, k + 2);
    }
  }

  lemma JoinHiLo(w: u16)
    ensures Join(Hi(w), Lo(w)) == w
  {
  }

  lemma ReturnAddress(pc: u16)
    ensures var ret := Word(pc + 1); Word(Join(Hi(ret), Lo(ret)) + 1) == Word(pc + 2)
  {
    JoinHiLo(Word(pc + 1));
    hide Join, Hi, Lo;
    if pc == 0xffff {
      assert Word(pc + 1) == 0;
    } else {
      assert Word(pc + 1) == pc + 1;
    }
  }
}
