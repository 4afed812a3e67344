/**
 The 6510 as the source has it (src/c64/CPU/mos6510.cpp, src/c64/CPU/mos6510.h): an object whose micro-operations
 update its registers, driven by two events on the scheduler, against the functions of CpuCore and CpuRuns.
 */
module CpuChip {
  import EventQueue
  import opened Scheduling
  import opened CpuTable
  import opened CpuCore
  import opened CpuSequencer
  import CpuRuns

  /** interruptsAndNextOpcode(): an interrupt is entered, or the next opcode fetched. */
  function GoneOn(r: Regs, c: Ctl, mem: Memory): Cpu {
    Cpu(if Recognised(c) then r else r.(pc := Word(r.pc + 1)), NextOpcode(c, mem[r.pc]), mem)
  }

  /** The registers and the memory after a micro-operation that leaves the interrupt logic alone. */
  function RegsAfter(op: Op, r: Regs, c: Ctl, mem: Memory): Regs { DataStep(op, r, c, Answer(BusOf(op, r, c), mem)) }
  function MemAfter(op: Op, r: Regs, c: Ctl, mem: Memory): Memory { MemoryAfter(mem, BusOf(op, r, c)) }

  class MOS6510 {
    const eventScheduler: EventScheduler
    const nosteal: Event
    const steal: Event
    const clearInt: Event
    var cycleCount: int
    var interruptCycle: int
    var irqAssertedOnPin: bool
    var nmiFlag: bool
    var rstFlag: bool
    var rdy: bool
    var d1x1: bool
    var rdyOnThrowAwayRead: bool
    var flagI: bool
    /** The registers, the flags but I, and what the instruction in progress has fetched so far. */
    var r: Regs
    /** The bus: an arbitrary memory. */
    var mem: Memory

    function Ctl(): Ctl
      reads this`cycleCount, this`interruptCycle, this`irqAssertedOnPin, this`nmiFlag, this`rstFlag, this`d1x1,
            this`rdyOnThrowAwayRead, this`flagI
    {
      CpuCore.Ctl(cycleCount, interruptCycle, irqAssertedOnPin, nmiFlag, rstFlag, d1x1, rdyOnThrowAwayRead, flagI)
    }

    function State(): Cpu
      reads this
    {
      Cpu(r, Ctl(), mem)
    }

    /** The state before the cycle counter was moved on. */
    function Before(): Cpu
      reads this
    {
      Cpu(r, Ctl().(cycleCount := cycleCount - 1), mem)
    }

    ghost predicate Events() { nosteal != steal && nosteal != clearInt && steal != clearInt }

    /** With RDY high the CPU runs through one event; with RDY low through the other, which is not queued while the
        CPU waits. */
    ghost predicate Valid()
      reads this, eventScheduler, eventScheduler.Chain()
    {
      && eventScheduler.Valid() && Events()
      && (nosteal in eventScheduler.Chain() <==> rdy)
      && (steal in eventScheduler.Chain() ==> !rdy)
    }

    constructor (scheduler: EventScheduler)
      requires scheduler.Valid()
      modifies scheduler, scheduler.Chain()`next
      ensures Valid() && eventScheduler == scheduler && rdy
      ensures Ctl() == CpuCore.Ctl(8 * BRKn + 6, MAX, false, false, false, false, false, false)
    {
      eventScheduler := scheduler;
      var e0 := new Event();
      var e1 := new Event();
      var e2 := new Event();
      nosteal, steal, clearInt := e0, e1, e2;
      r := Regs(0, 0, 0, 0, 0xff, 0, 0, 0, false, Flags(false, false, false, false, false));
      cycleCount, interruptCycle := 8 * BRKn + 6, MAX;
      flagI, irqAssertedOnPin, nmiFlag, rstFlag, rdy, d1x1, rdyOnThrowAwayRead := false, false, false, false, true, false, false;
      mem := seq(0x1_0000, _ => 0);
      new;
      hide EventQueue.PhasedTime;
      scheduler.SchedulePhased(nosteal, 0, EventQueue.Phi2);
    }

    // ----- Bus and stack -----

    method CpuRead(addr: u16) returns (value: u8)
      ensures value == mem[addr]
    {
      value := mem[addr];
    }

    method CpuWrite(addr: u16, value: u8)
      modifies this`mem
      ensures mem == old(mem)[addr := value]
    {
      mem := mem[addr := value];
    }

    method Push(value: u8)
      modifies this`mem, this`r
      ensures mem == old(mem)[StackAddr(old(r).s) := value] && r == old(r).(s := Byte(old(r).s - 1))
    {
      CpuWrite(StackAddr(r.s), value);
      r := r.(s := Byte(r.s - 1));
    }

    method Pop() returns (value: u8)
      modifies this`r
      ensures r == old(r).(s := Byte(old(r).s + 1)) && value == mem[StackAddr(r.s)]
    {
      r := r.(s := Byte(r.s + 1));
      value := CpuRead(StackAddr(r.s));
    }

    // ----- Interrupts -----

    method CalculateInterruptTriggerCycle()
      modifies this`interruptCycle
      ensures Ctl() == CpuCore.CalculateInterruptTriggerCycle(old(Ctl()))
    {
      if interruptCycle == MAX {
        if rstFlag || nmiFlag || (irqAssertedOnPin && !flagI) {
          interruptCycle := cycleCount;
        }
      }
    }

    method FetchNextOpcode()
      modifies this`rdyOnThrowAwayRead, this`cycleCount, this`r, this`interruptCycle
      ensures Ctl() == FetchNext(old(Ctl()), mem[old(r).pc]) && r == old(r).(pc := Word(old(r).pc + 1))
    {
      rdyOnThrowAwayRead := false;
      var opcode: int := CpuRead(r.pc);
      cycleCount := 8 * opcode;
      r := r.(pc := Word(r.pc + 1));
      if !(rstFlag || nmiFlag || (irqAssertedOnPin && !flagI)) {
        interruptCycle := MAX;
      } else if interruptCycle != MAX {
        interruptCycle := -MAX;
      }
    }

    method InterruptsAndNextOpcode()
      modifies this`rdyOnThrowAwayRead, this`cycleCount, this`r, this`interruptCycle, this`d1x1
      ensures State() == GoneOn(old(r), old(Ctl()), mem)
    {
      if cycleCount > interruptCycle + INTERRUPT_DELAY {
        var _ := CpuRead(r.pc);
        cycleCount := 8 * BRKn;
        d1x1 := true;
        interruptCycle := MAX;
      } else {
        FetchNextOpcode();
      }
    }

    method IrqLoRequest()
      modifies this`r, this`d1x1
      ensures r == old(r).(pc := WithLo(old(r).pc, mem[old(r).ea])) && !d1x1
    {
      var low := CpuRead(r.ea);
      r := r.(pc := WithLo(r.pc, low));
      d1x1 := false;
    }

    method IrqHiRequest()
      modifies this`r, this`flagI
      ensures r == old(r).(pc := WithHi(old(r).pc, mem[Word(old(r).ea + 1)])) && flagI
    {
      var high := CpuRead(Word(r.ea + 1));
      r := r.(pc := WithHi(r.pc, high));
      flagI := true;
    }

    method PopSR()
      modifies this`r, this`flagI, this`interruptCycle
      ensures var s := Byte(old(r).s + 1);
              && r == old(r).(s := s, f := UnpackFlags(mem[StackAddr(s)]))
              && Ctl() == CpuCore.CalculateInterruptTriggerCycle(old(Ctl()).(i := UnpackI(mem[StackAddr(s)])))
    {
      hide UnpackFlags, UnpackI;
      var sr := Pop();
      r, flagI := r.(f := UnpackFlags(sr)), UnpackI(sr);
      CalculateInterruptTriggerCycle();
    }

    /** Reset goes before NMI, and NMI before IRQ and BRK. */
    method BrkPushLowPC()
      modifies this`mem, this`r, this`rstFlag, this`nmiFlag, this`interruptCycle
      ensures mem == old(mem)[StackAddr(old(r).s) := Lo(old(r).pc)]
      ensures r == old(r).(s := Byte(old(r).s - 1), ea := Vector(old(Ctl())))
      ensures Ctl() == CpuCore.CalculateInterruptTriggerCycle(old(Ctl()).(rst := false, nmi := false))
    {
      Push(Lo(r.pc));
      if rstFlag {
        r := r.(ea := 0xfffc);
      } else if nmiFlag {
        r := r.(ea := 0xfffa);
      } else {
        r := r.(ea := 0xfffe);
      }
      rstFlag, nmiFlag := false, false;
      CalculateInterruptTriggerCycle();
    }

    // ----- Branches -----

    method BranchInstr(condition: bool)
      modifies this`rdyOnThrowAwayRead, this`cycleCount, this`r, this`interruptCycle, this`d1x1
      ensures if condition then
                && r == BranchStep(old(r))
                && Ctl() == (if r.adlCarry then old(Ctl()) else DelayPastBranch(old(Ctl()).(cycleCount := old(cycleCount) + 1)))
              else State() == GoneOn(old(r), old(Ctl()), mem)
    {
      hide GoneOn, WithLo, Byte, Lo;
      if condition {
        var _ := CpuRead(r.pc);
        var sum := Lo(r.pc) + r.data;
        r := r.(ea := WithLo(r.pc, Byte(sum)), adlCarry := (sum > 0xff) != (r.data > 0x7f));
        r := r.(pc := r.ea);
        if !r.adlCarry {
          cycleCount := cycleCount + 1;
          if interruptCycle / 8 == cycleCount / 8 {
            interruptCycle := interruptCycle + 2;
          }
        }
      } else {
        InterruptsAndNextOpcode();
      }
    }

    // ----- Arithmetic -----

    method DoADC()
      modifies this`r
      ensures r == CpuCore.DoADC(old(r))
    {
      hide AddLow, AddMiddle, AddHigh, Byte, HasBit, SetNZ;
      var a: int, data: int, f := r.a, r.data, r.f;
      var c := Weight(f.c, 1);
      var sum := a + data + c;
      if f.d {
        var lo, mid, hi := AddDigits(a, data, c);
        f := f.(z := sum % 0x100 == 0, n := HasBit(mid, 0x80), v := HasBit(mid, 0x80) != (a >= 0x80) && (a >= 0x80) == (data >= 0x80));
        r := r.(f := f.(c := hi > 0xff), a := Byte(hi / 0x10 * 0x10 + lo % 0x10));
      } else {
        f := f.(c := sum > 0xff, v := HasBit(sum, 0x80) != (a >= 0x80) && (a >= 0x80) == (data >= 0x80));
        r := r.(f := SetNZ(f, Byte(sum)), a := Byte(sum));
      }
    }

    /** The decimal correction, one digit after the other. */
    static method AddDigits(a: u8, data: u8, c: int) returns (lo: int, mid: int, hi: int)
      ensures lo == AddLow(a, data, c) && mid == AddMiddle(a, data, c) && hi == AddHigh(a, data, c)
    {
      lo := a % 0x10 + data % 0x10 + c;
      hi := a / 0x10 * 0x10 + data / 0x10 * 0x10;
      if lo > 0x09 {
        lo := lo + 0x06;
      }
      if lo > 0x0f {
        hi := hi + 0x10;
      }
      mid := hi;
      if hi > 0x90 {
        hi := hi + 0x60;
      }
    }

    method DoSBC()
      modifies this`r
      ensures r == CpuCore.DoSBC(old(r))
    {
      hide SubDecimal, Byte, HasBit, SetNZ;
      var a: int, data: int, f := r.a, r.data, r.f;
      var c := Weight(!f.c, 1);
      var diff := a - data - c;
      f := f.(c := diff >= 0, v := HasBit(diff, 0x80) != (a >= 0x80) && (a >= 0x80) != (data >= 0x80));
      r := r.(f := SetNZ(f, Byte(diff)));
      if f.d {
        var difference := SubtractDigits(a, data, c);
        r := r.(a := difference);
      } else {
        r := r.(a := Byte(diff));
      }
    }

    static method SubtractDigits(a: u8, data: u8, c: int) returns (difference: u8)
      ensures difference == SubDecimal(a, data, c)
    {
      hide HasBit, Byte;
      var lo := a % 0x10 - data % 0x10 - c;
      var hi := a / 0x10 * 0x10 - data / 0x10 * 0x10;
      if HasBit(lo, 0x10) {
        lo := lo - 0x06;
        hi := hi - 0x10;
      }
      if HasBit(hi, 0x100) {
        hi := hi - 0x60;
      }
      difference := Byte(hi / 0x10 * 0x10 + lo % 0x10);
    }

    // ----- Instructions that look for the next opcode -----

    method CliInstr()
      modifies this`rdyOnThrowAwayRead, this`cycleCount, this`r, this`interruptCycle, this`d1x1, this`flagI
      ensures State() == Exec(Alu(Cli), old(Before())).0
    {
      CliExec(Before());
      hide Exec, GoneOn, CpuCore.CalculateInterruptTriggerCycle;
      flagI := false;
      CalculateInterruptTriggerCycle();
      InterruptsAndNextOpcode();
    }

    method SeiInstr()
      modifies this`rdyOnThrowAwayRead, this`cycleCount, this`r, this`interruptCycle, this`d1x1, this`flagI
      ensures State() == Exec(Alu(Sei), old(Before())).0
    {
      SeiExec(Before());
      hide Exec, GoneOn;
      flagI := true;
      InterruptsAndNextOpcode();
      if !rstFlag && !nmiFlag {
        interruptCycle := MAX;
      }
    }

    method AluInstr(alu: AluOp)
      requires alu != Cli && alu != Sei
      modifies this`rdyOnThrowAwayRead, this`cycleCount, this`r, this`interruptCycle, this`d1x1
      ensures State() == Exec(Alu(alu), old(Before())).0
    {
      AluExec(alu, Before());
      hide Exec, AluStep, GoneOn;
      Compute(alu);
      InterruptsAndNextOpcode();
    }

    method PutNZ(value: u8)
      modifies this`r
      ensures r == old(r).(f := SetNZ(old(r).f, value))
    {
      r := r.(f := r.f.(z := value == 0, n := value >= 0x80));
    }

    method PutC(carry: bool)
      modifies this`r
      ensures r == old(r).(f := old(r).f.(c := carry))
    {
      r := r.(f := r.f.(c := carry));
    }

    method Compute(alu: AluOp)
      requires alu != Cli && alu != Sei
      modifies this`r
      ensures r == AluStep(alu, old(r))
    {
      hide AluStep;
      if IsLoad(alu) {
        Load(alu);
      } else if IsTransfer(alu) {
        Transfer(alu);
      } else if IsFlagOp(alu) {
        SetFlag(alu);
      } else if IsShift(alu) {
        ShiftA(alu);
      } else if IsLogic(alu) {
        Logic(alu);
      } else {
        CountAndCompare(alu);
      }
    }

    method Load(alu: AluOp)
      requires IsLoad(alu)
      modifies this`r
      ensures r == AluStep(alu, old(r))
    {
      hide SetNZ, AndB;
      match alu {
        case Lda => r := r.(a := r.data); PutNZ(r.a);
        case Ldx => r := r.(x := r.data); PutNZ(r.x);
        case Ldy => r := r.(y := r.data); PutNZ(r.y);
        case Lax => r := r.(x := r.data); r := r.(a := r.x); PutNZ(r.a);
      }
    }

    method Transfer(alu: AluOp)
      requires IsTransfer(alu)
      modifies this`r
      ensures r == AluStep(alu, old(r))
    {
      hide SetNZ, AndB;
      match alu {
        case Tax => r := r.(x := r.a); PutNZ(r.x);
        case Tay => r := r.(y := r.a); PutNZ(r.y);
        case Tsx => r := r.(x := r.s); PutNZ(r.x);
        case Txa => r := r.(a := r.x); PutNZ(r.a);
        case Tya => r := r.(a := r.y); PutNZ(r.a);
        case Txs => r := r.(s := r.x);
      }
    }

    method SetFlag(alu: AluOp)
      requires IsFlagOp(alu)
      modifies this`r
      ensures r == AluStep(alu, old(r))
    {
      match alu {
        case Clc => PutC(false);
        case Sec => PutC(true);
        case Cld => r := r.(f := r.f.(d := false));
        case Sed => r := r.(f := r.f.(d := true));
        case Clv => r := r.(f := r.f.(v := false));
      }
    }

    method ShiftA(alu: AluOp)
      requires IsShift(alu)
      modifies this`r
      ensures r == AluStep(alu, old(r))
    {
      hide SetNZ, AndB;
      match alu {
        case Asla =>
          PutC(r.a >= 0x80);
          r := r.(a := Byte(r.a * 2));
          PutNZ(r.a);
        case Lsra =>
          PutC(r.a % 2 == 1);
          r := r.(a := r.a / 2);
          PutNZ(r.a);
        case Rola => RolaInstr();
        case Rora => RoraInstr();
        case Alr =>
          r := r.(a := AndB(r.a, r.data));
          PutC(r.a % 2 == 1);
          r := r.(a := r.a / 2);
          PutNZ(r.a);
      }
    }

    method RolaInstr()
      modifies this`r
      ensures r == AluStep(Rola, old(r))
    {
      RolaStep(r);
      hide AluStep, RotateLeft;
      var newC := r.a >= 0x80;
      r := r.(a := Byte(r.a * 2));
      if r.f.c {
        r := r.(a := r.a + 1);
      }
      PutNZ(r.a);
      PutC(newC);
    }

    method RoraInstr()
      modifies this`r
      ensures r == AluStep(Rora, old(r))
    {
      var newC := r.a % 2 == 1;
      r := r.(a := r.a / 2);
      if r.f.c {
        r := r.(a := r.a + 0x80);
      }
      PutNZ(r.a);
      PutC(newC);
    }

    method Logic(alu: AluOp)
      requires IsLogic(alu)
      modifies this`r
      ensures r == AluStep(alu, old(r))
    {
      hide SetNZ, AndB, OrB, XorB;
      match alu {
        case And => r := r.(a := AndB(r.a, r.data)); PutNZ(r.a);
        case Ora => r := r.(a := OrB(r.a, r.data)); PutNZ(r.a);
        case Eor => r := r.(a := XorB(r.a, r.data)); PutNZ(r.a);
        case Anc => r := r.(a := AndB(r.a, r.data)); PutNZ(r.a); PutC(r.f.n);
        case Ane => r := r.(a := AndB(AndB(OrB(r.a, 0xef), r.x), r.data)); PutNZ(r.a);
        case Oal => r := r.(a := AndB(r.data, OrB(r.a, 0xee))); r := r.(x := r.a); PutNZ(r.x);
        case Las =>
          r := r.(data := AndB(r.data, r.s));
          PutNZ(r.data);
          r := r.(a := r.data, x := r.data, s := r.data);
        case Bit =>
          r := r.(f := r.f.(z := AndB(r.a, r.data) == 0));
          r := r.(f := r.f.(n := r.data >= 0x80));
          r := r.(f := r.f.(v := HasBit(r.data, 0x40)));
      }
    }

    /** The carry of a comparison is set if the register is not less. */
    method CompareWith(reg: u8)
      modifies this`r
      ensures r == Compare(old(r), reg)
    {
      hide Byte;
      var tmp := reg - r.data;
      PutNZ(Byte(tmp));
      PutC(tmp >= 0);
    }

    method CountAndCompare(alu: AluOp)
      requires alu != Cli && alu != Sei && !IsLoad(alu) && !IsTransfer(alu) && !IsFlagOp(alu) && !IsShift(alu) && !IsLogic(alu)
      modifies this`r
      ensures r == AluStep(alu, old(r))
    {
      hide SetNZ, AndB, CpuCore.DoADC, CpuCore.DoSBC, Compare, DoARR;
      match alu {
        case Adc => DoADC();
        case Sbc => DoSBC();
        case Arr => ArrInstr();
        case Cmp => CompareWith(r.a);
        case Cpx => CompareWith(r.x);
        case Cpy => CompareWith(r.y);
        case Dex => r := r.(x := Byte(r.x - 1)); PutNZ(r.x);
        case Dey => r := r.(y := Byte(r.y - 1)); PutNZ(r.y);
        case Inx => r := r.(x := Byte(r.x + 1)); PutNZ(r.x);
        case Iny => r := r.(y := Byte(r.y + 1)); PutNZ(r.y);
        case Sbx => SbxInstr();
      }
    }

    method SbxInstr()
      modifies this`r
      ensures r == AluStep(Sbx, old(r))
    {
      hide AndB, Byte;
      var tmp: int := AndB(r.x, r.a);
      tmp := tmp - r.data;
      r := r.(x := Byte(tmp));
      PutNZ(r.x);
      PutC(tmp >= 0);
    }

    method ArrInstr()
      modifies this`r
      ensures r == DoARR(old(r))
    {
      hide SetNZ, AndB, HasBit, Byte;
      var data := AndB(r.data, r.a);
      var rotated := data / 2 + if r.f.c then 0x80 else 0;
      if r.f.d {
        ArrDecimal(data, rotated);
      } else {
        r := r.(a := rotated);
        PutNZ(r.a);
        r := r.(f := r.f.(c := HasBit(r.a, 0x40), v := HasBit(r.a, 0x40) != HasBit(r.a, 0x20)));
      }
    }

    method ArrDecimal(data: u8, rotated: u8)
      requires r.f.d && data == AndB(r.data, r.a) && rotated == RotateRight(data, r.f.c)
      modifies this`r
      ensures r == DoARR(old(r))
    {
      hide SetNZ, AndB, HasBit, Byte, RotateRight;
      r := r.(a := rotated, f := r.f.(n := r.f.c, z := rotated == 0, v := HasBit(data, 0x40) != HasBit(rotated, 0x40)));
      if data % 0x10 + data % 2 > 5 {
        r := r.(a := r.a / 0x10 * 0x10 + (r.a + 6) % 0x10);
      }
      PutC((data + Weight(HasBit(data, 0x10), 0x10)) / 0x10 * 0x10 > 0x50);
      if r.f.c {
        r := r.(a := Byte(r.a + 0x60));
      }
    }

    /** JMP and RTI. */
    method JumpInstr(op: Op)
      requires op.Jmp? || op.Rti?
      modifies this`rdyOnThrowAwayRead, this`cycleCount, this`r, this`interruptCycle, this`d1x1
      ensures State() == Exec(op, old(Before())).0
    {
      JumpExec(op, Before());
      hide Exec, GoneOn;
      r := r.(pc := r.ea);
      InterruptsAndNextOpcode();
    }

    method NextOp()
      modifies this`rdyOnThrowAwayRead, this`cycleCount, this`r, this`interruptCycle, this`d1x1
      ensures State() == Exec(Op.InterruptsAndNextOpcode, old(Before())).0
    {
      NextExec(Before());
      hide Exec, GoneOn;
      InterruptsAndNextOpcode();
    }

    method FetchOp()
      modifies this`rdyOnThrowAwayRead, this`cycleCount, this`r, this`interruptCycle
      ensures State() == Exec(Op.FetchNextOpcode, old(Before())).0
    {
      FetchExec(Before());
      hide Exec, FetchNext, Word;
      FetchNextOpcode();
    }

    method BranchOp(condition: Condition)
      modifies this`rdyOnThrowAwayRead, this`cycleCount, this`r, this`interruptCycle, this`d1x1
      ensures State() == Exec(Branch(condition), old(Before())).0
    {
      BranchExec(condition, Before());
      hide Exec, GoneOn, BranchStep, DelayPastBranch, Holds;
      BranchInstr(Holds(condition, r.f));
    }

    method PopSROp()
      modifies this`r, this`flagI, this`interruptCycle
      ensures State() == Exec(Op.PopSR, old(Before())).0
    {
      PopSRExec(Before());
      hide Exec, UnpackFlags, UnpackI, CpuCore.CalculateInterruptTriggerCycle, Byte, StackAddr;
      PopSR();
    }

    method BrkPushLowPCOp()
      modifies this`mem, this`r, this`rstFlag, this`nmiFlag, this`interruptCycle
      ensures State() == Exec(Op.BrkPushLowPC, old(Before())).0
    {
      BrkExec(Before());
      hide Exec, CpuCore.CalculateInterruptTriggerCycle, Byte, StackAddr, Lo;
      BrkPushLowPC();
    }

    method VectorOp(op: Op)
      requires op.IrqLoRequest? || op.IrqHiRequest?
      modifies this`r, this`d1x1, this`flagI
      ensures State() == Exec(op, old(Before())).0
    {
      VectorExec(op, Before());
      hide Exec, Word, WithLo, WithHi;
      if op.IrqLoRequest? {
        IrqLoRequest();
      } else {
        IrqHiRequest();
      }
    }

    // ----- Addressing -----

    /** Reads the byte at PC and moves on. */
    method Fetch() returns (value: u8)
      modifies this`r
      ensures value == mem[old(r).pc] && r == old(r).(pc := Word(old(r).pc + 1))
    {
      value := CpuRead(r.pc);
      r := r.(pc := Word(r.pc + 1));
    }

    /** Adds an index to the low byte; the carry says that the page is wrong. */
    method AddIndex(index: u8)
      modifies this`r
      ensures r == Indexed(old(r), index)
    {
      r := r.(ea := Word(r.ea + index));
      r := r.(adlCarry := r.ea > 0xff);
    }

    method FetchLow(op: Op)
      requires IsFetchLow(op)
      modifies this`r
      ensures r == RegsAfter(op, old(r), Ctl(), mem) && mem == MemAfter(op, old(r), Ctl(), mem)
    {
      hide Word, Byte, WithHi;
      var b := Fetch();
      if op.FetchLowAddr? {
        r := r.(ea := b);
      } else if op.FetchLowAddrX? {
        r := r.(ea := Byte(b + r.x));
      } else if op.FetchLowAddrY? {
        r := r.(ea := Byte(b + r.y));
      } else if op.FetchLowPointer? {
        r := r.(pointer := b);
      } else {
        r := r.(pointer := WithHi(r.pointer, b));
      }
    }

    method FetchHigh(op: Op)
      requires IsFetchHigh(op)
      modifies this`r
      ensures r == RegsAfter(op, old(r), Ctl(), mem) && mem == MemAfter(op, old(r), Ctl(), mem)
    {
      IndexKeepsRest(r);
      hide Word, WithHi, Indexed;
      if op.FetchHighAddrX? || op.FetchHighAddrX2? {
        AddIndex(r.x);
      } else if op.FetchHighAddrY? || op.FetchHighAddrY2? {
        AddIndex(r.y);
      }
      var b := Fetch();
      r := r.(ea := WithHi(r.ea, b));
    }

    lemma IndexKeepsRest(r: Regs)
      ensures forall index :: Indexed(r, index).pc == r.pc && Indexed(r, index).pointer == r.pointer
    {
    }

    method FetchEffAddr(op: Op)
      requires IsFetchEffAddr(op)
      modifies this`r
      ensures r == RegsAfter(op, old(r), Ctl(), mem) && mem == MemAfter(op, old(r), Ctl(), mem)
    {
      IndexKeepsRest(r);
      hide WithLo, WithHi, Byte, Indexed;
      if !op.FetchHighEffAddr? {
        AddIndex(r.y);
      }
      r := r.(pointer := WithLo(r.pointer, Byte(r.pointer + 1)));
      var b := CpuRead(r.pointer);
      r := r.(ea := WithHi(r.ea, b));
    }

    /** Reads that change no register but the data byte and the effective address. */
    method ReadOp(op: Op)
      requires IsRead(op)
      modifies this`r
      ensures r == RegsAfter(op, old(r), Ctl(), mem) && mem == MemAfter(op, old(r), Ctl(), mem)
    {
      hide Word;
      if op.ThrowAwayFetch? {
        var _ := CpuRead(r.pc);
      } else if op.FetchDataByte? {
        var b := CpuRead(r.pc);
        r := r.(data := b);
        if !d1x1 {
          r := r.(pc := Word(r.pc + 1));
        }
      } else if op.FetchLowEffAddr? {
        var b := CpuRead(r.pointer);
        r := r.(ea := b);
      } else {
        var b := CpuRead(r.ea);
        r := r.(data := b);
      }
    }

    /** The cycles that put an address right, and those that do nothing. */
    method FixOp(op: Op)
      requires IsFix(op)
      modifies this`r
      ensures r == RegsAfter(op, old(r), Ctl(), mem) && mem == MemAfter(op, old(r), Ctl(), mem)
    {
      hide WithLo, Byte, Word, RmwStep, StoreStep, AluStep, BranchStep, PushedByte, Indexed;
      if op.FetchLowPointerX? {
        r := r.(pointer := WithLo(r.pointer, Byte(r.pointer + r.x)));
      } else if op.ThrowAwayRead? {
        var _ := CpuRead(r.ea);
        if r.adlCarry {
          r := r.(ea := Word(r.ea + 0x100));
        }
      } else if op.FixBranch? {
        var _ := CpuRead(r.ea);
        r := r.(pc := Word(r.pc + if r.data < 0x80 then 0x0100 else 0xff00));
      } else if op.Rts? {
        var _ := CpuRead(r.ea);
        r := r.(pc := r.ea);
        r := r.(pc := Word(r.pc + 1));
      }
    }

    // ----- Stack -----

    method PushOp(op: Op)
      requires IsPush(op)
      modifies this`mem, this`r
      ensures r == RegsAfter(op, old(r), Ctl(), old(mem)) && mem == MemAfter(op, old(r), Ctl(), old(mem))
    {
      PushResult(op, r, Ctl(), mem);
      hide RegsAfter, MemAfter, PackFlags, Lo, Hi, Byte, StackAddr;
      if op.PushLowPC? {
        Push(Lo(r.pc));
      } else if op.PushHighPC? {
        Push(Hi(r.pc));
      } else if op.PushSR? {
        PackedFits(r.f, flagI);
        Push(PackFlags(r.f, flagI) + if d1x1 then 0x20 else 0x30);
      } else {
        Push(r.a);
      }
    }

    method PopOp(op: Op)
      requires IsPop(op)
      modifies this`r
      ensures r == RegsAfter(op, old(r), Ctl(), mem) && mem == MemAfter(op, old(r), Ctl(), mem)
    {
      PopResult(op, r, Ctl(), mem);
      hide RegsAfter, MemAfter, WithLo, WithHi, SetNZ, Byte, StackAddr;
      var b := Pop();
      if op.PopLowPC? {
        r := r.(ea := WithLo(r.ea, b));
      } else if op.PopHighPC? {
        r := r.(ea := WithHi(r.ea, b));
      } else {
        r := r.(a := b);
        PutNZ(r.a);
      }
    }

    lemma PackedFits(f: Flags, i: bool)
      ensures PackFlags(f, i) <= 0xcf
    {
    }

    // ----- Instructions that write -----

    /** The old operand is written back while the new one is computed. */
    method RmwInstr(op: RmwOp)
      modifies this`mem, this`r
      ensures mem == old(mem)[old(r).ea := old(r).data] && r == RmwStep(op, old(r))
    {
      CpuWrite(r.ea, r.data);
      hide RmwStep;
      if op in {Asl, Lsr, Rol, Ror, Inc, Dec} {
        ChangeOperand(op);
      } else {
        ChangeBoth(op);
      }
    }

    method ChangeOperand(op: RmwOp)
      requires op in {Asl, Lsr, Rol, Ror, Inc, Dec}
      modifies this`r
      ensures r == RmwStep(op, old(r))
    {
      var c := if op == Asl || op == Rol then r.data >= 0x80 else if op == Lsr || op == Ror then r.data % 2 == 1 else r.f.c;
      hide Byte;
      match op {
        case Asl => r := r.(data := RotateLeft(r.data, false));
        case Lsr => r := r.(data := r.data / 2);
        case Rol => r := r.(data := RotateLeft(r.data, r.f.c));
        case Ror => r := r.(data := RotateRight(r.data, r.f.c));
        case Inc => r := r.(data := Byte(r.data + 1));
        case Dec => r := r.(data := Byte(r.data - 1));
      }
      PutNZ(r.data);
      PutC(c);
    }

    method ChangeBoth(op: RmwOp)
      requires op !in {Asl, Lsr, Rol, Ror, Inc, Dec}
      modifies this`r
      ensures r == RmwStep(op, old(r))
    {
      hide AndB, OrB, XorB, Byte, RotateLeft, RotateRight, CpuCore.DoADC, CpuCore.DoSBC, Compare;
      match op {
        case Aso =>
          PutC(r.data >= 0x80);
          r := r.(data := RotateLeft(r.data, false));
          r := r.(a := OrB(r.a, r.data));
          PutNZ(r.a);
        case Lse =>
          PutC(r.data % 2 == 1);
          r := r.(data := r.data / 2);
          r := r.(a := XorB(r.a, r.data));
          PutNZ(r.a);
        case Rla =>
          var newC := r.data >= 0x80;
          r := r.(data := RotateLeft(r.data, r.f.c));
          PutC(newC);
          r := r.(a := AndB(r.a, r.data));
          PutNZ(r.a);
        case Rra =>
          var newC := r.data % 2 == 1;
          r := r.(data := RotateRight(r.data, r.f.c));
          PutC(newC);
          DoADC();
        case Dcm =>
          r := r.(data := Byte(r.data - 1));
          CompareWith(r.a);
        case Ins =>
          r := r.(data := Byte(r.data + 1));
          DoSBC();
      }
    }

    method StoreInstr(op: StoreOp)
      modifies this`mem, this`r
      ensures r == StoreStep(op, old(r), rdyOnThrowAwayRead) && mem == old(mem)[r.ea := r.data]
    {
      hide AndB, ShStep;
      match op {
        case Sta => r := r.(data := r.a);
        case Stx => r := r.(data := r.x);
        case Sty => r := r.(data := r.y);
        case Axs => r := r.(data := AndB(r.a, r.x));
        case Axa => r := r.(data := AndB(r.x, r.a)); ShInstr();
        case Say => r := r.(data := r.y); ShInstr();
        case Xas => r := r.(data := r.x); ShInstr();
        case Shs => r := r.(s := AndB(r.a, r.x)); r := r.(data := r.s); ShInstr();
      }
      CpuWrite(r.ea, r.data);
    }

    method WriteOp(op: Op)
      requires op.Rmw? || op.Store? || op.PutEffAddrDataByte?
      modifies this`mem, this`r
      ensures r == RegsAfter(op, old(r), Ctl(), old(mem)) && mem == MemAfter(op, old(r), Ctl(), old(mem))
    {
      WriteResult(op, r, Ctl(), mem);
      hide RegsAfter, MemAfter, RmwStep, StoreStep;
      if op.Rmw? {
        RmwInstr(op.rmw);
      } else if op.Store? {
        StoreInstr(op.store);
      } else {
        CpuWrite(r.ea, r.data);
      }
    }

    method ShInstr()
      modifies this`r
      ensures r == ShStep(old(r), rdyOnThrowAwayRead)
    {
      hide AndB, WithHi, Hi, Byte;
      var hi: int := Hi(r.ea);
      var mask := Byte(hi + 1);
      if r.adlCarry {
        mask := Hi(r.ea);
        r := r.(ea := WithHi(r.ea, AndB(mask, r.data)));
      }
      if !rdyOnThrowAwayRead {
        r := r.(data := AndB(r.data, mask));
      }
    }

    /** The bus access and the registers of a micro-operation. */
    method DataCycle(op: Op)
      requires IsDataOp(op)
      modifies this`mem, this`r
      ensures r == RegsAfter(op, old(r), Ctl(), old(mem)) && mem == MemAfter(op, old(r), Ctl(), old(mem))
    {
      Groups(op);
      hide RegsAfter, MemAfter, IsFetchLow, IsFetchHigh, IsFetchEffAddr, IsRead, IsFix, IsPop, IsPush, IsDataOp;
      if op.Rmw? || op.Store? || op.PutEffAddrDataByte? {
        WriteOp(op);
      } else if IsPush(op) {
        PushOp(op);
      } else if IsPop(op) {
        PopOp(op);
      } else if IsFetchLow(op) {
        FetchLow(op);
      } else if IsFetchHigh(op) {
        FetchHigh(op);
      } else if IsFetchEffAddr(op) {
        FetchEffAddr(op);
      } else if IsRead(op) {
        ReadOp(op);
      } else {
        FixOp(op);
      }
    }

    /** A micro-operation that leaves the interrupt logic alone; some skip the next slot if no page was crossed. */
    method DataOp(op: Op)
      requires IsDataOp(op)
      modifies this`mem, this`r, this`cycleCount
      ensures State() == Exec(op, old(Before())).0
    {
      DataExecMoved(op, r, Ctl(), mem);
      hide Exec, RegsAfter, MemAfter, MaySkip, IsDataOp;
      DataCycle(op);
      if MaySkip(op) && !r.adlCarry {
        SkipSlot();
      }
    }

    method SkipSlot()
      modifies this`cycleCount
      ensures Ctl() == old(Ctl()).(cycleCount := old(cycleCount) + 1)
    {
      cycleCount := cycleCount + 1;
    }

    /** Runs a micro-operation. */
    method Execute(op: Op)
      requires op != InvalidOpcode
      modifies this`mem, this`r, this`cycleCount, this`interruptCycle, this`d1x1, this`flagI, this`rdyOnThrowAwayRead,
               this`rstFlag, this`nmiFlag
      ensures State() == Exec(op, old(Before())).0
    {
      hide Exec, State, Before;
      if op.Alu? {
        if op.alu == Cli {
          CliInstr();
        } else if op.alu == Sei {
          SeiInstr();
        } else {
          AluInstr(op.alu);
        }
      } else if op.Branch? {
        BranchOp(op.condition);
      } else if op.Jmp? || op.Rti? {
        JumpInstr(op);
      } else if op.InterruptsAndNextOpcode? {
        NextOp();
      } else if op.FetchNextOpcode? {
        FetchOp();
      } else if op.PopSR? {
        PopSROp();
      } else if op.BrkPushLowPC? {
        BrkPushLowPCOp();
      } else if op.IrqLoRequest? || op.IrqHiRequest? {
        VectorOp(op);
      } else {
        DataOp(op);
      }
    }

    // ----- Events -----

    /** The micro-operation of the current slot; the cycle counter is on the next slot when it runs. */
    method RunSlot()
      requires Running(Ctl())
      modifies this`mem, this`r, this`cycleCount, this`interruptCycle, this`d1x1, this`flagI, this`rdyOnThrowAwayRead,
               this`rstFlag, this`nmiFlag
      ensures State() == Step(old(State()))
    {
      hide Exec, Slots;
      var op := SlotAt(Ctl()).op;
      cycleCount := cycleCount + 1;
      Execute(op);
    }

    /** A cycle with RDY high; the event has just been taken from the queue. */
    method EventWithoutSteals()
      requires eventScheduler.Valid() && Events() && rdy && Running(Ctl())
      requires nosteal !in eventScheduler.Chain() && steal !in eventScheduler.Chain()
      modifies this, eventScheduler, eventScheduler.Chain()`next, nosteal
      ensures Valid() && rdy && State() == CpuRuns.React(old(State()), CpuRuns.Cycle)
      ensures nosteal.triggerTime == EventQueue.PlainTime(eventScheduler.currentTime, 1)
      ensures eventScheduler.currentTime == old(eventScheduler.currentTime)
    {
      hide Step, Slots;
      RunSlot();
      eventScheduler.Schedule(nosteal, 1);
    }

    /** A cycle with RDY low: only a write goes on, and unless one does the event is not queued again. */
    method EventWithSteals()
      requires eventScheduler.Valid() && Events() && !rdy && Running(Ctl())
      requires nosteal !in eventScheduler.Chain() && steal !in eventScheduler.Chain()
      modifies this, eventScheduler, eventScheduler.Chain()`next, steal
      ensures Valid() && !rdy && State() == CpuRuns.React(old(State()), CpuRuns.Stolen)
      ensures steal in eventScheduler.Chain() <==> SlotAt(old(Ctl())).nosteal
      ensures steal in eventScheduler.Chain() ==> steal.triggerTime == EventQueue.PlainTime(eventScheduler.currentTime, 1)
      ensures eventScheduler.currentTime == old(eventScheduler.currentTime)
    {
      hide Step, Slots, CpuCore.Stall;
      if SlotAt(Ctl()).nosteal {
        RunSlot();
        eventScheduler.Schedule(steal, 1);
      } else {
        Stall();
      }
    }

    method Stall()
      modifies this`flagI, this`interruptCycle, this`rdyOnThrowAwayRead
      ensures Ctl() == CpuCore.Stall(old(Ctl()))
    {
      if cycleCount == 8 * CLIn {
        flagI := false;
        if irqAssertedOnPin && interruptCycle == MAX {
          interruptCycle := -MAX;
        }
      } else if cycleCount == 8 * SEIn {
        flagI := true;
        if !rstFlag && !nmiFlag && cycleCount <= interruptCycle + INTERRUPT_DELAY {
          interruptCycle := MAX;
        }
      } else if cycleCount in {8 * SHAiy + 3, 8 * SHSay + 2, 8 * SHYax + 2, 8 * SHXay + 2, 8 * SHAay + 2} {
        rdyOnThrowAwayRead := true;
      }
      if interruptCycle == cycleCount {
        interruptCycle := interruptCycle - 1;
      }
    }

    /** The RDY line changes, which it does not do twice the same way: the other event takes over. */
    method SetRDY(newRDY: bool)
      requires Valid() && newRDY != rdy
      modifies this`rdy, eventScheduler, eventScheduler.Chain()`next, nosteal, steal
      ensures Valid() && rdy == newRDY && State() == old(State())
      ensures !rdy ==> steal in eventScheduler.Chain()
      ensures (if rdy then nosteal else steal).triggerTime == EventQueue.PhasedTime(eventScheduler.currentTime, 0, EventQueue.Phi2)
      ensures eventScheduler.currentTime == old(eventScheduler.currentTime)
    {
      rdy := newRDY;
      if rdy {
        eventScheduler.Cancel(steal);
        eventScheduler.SchedulePhased(nosteal, 0, EventQueue.Phi2);
      } else {
        eventScheduler.Cancel(nosteal);
        eventScheduler.SchedulePhased(steal, 0, EventQueue.Phi2);
      }
    }

    /** The waiting CPU has its turn in the next PHI2 slot, which may be this one. */
    ghost predicate Awake()
      reads this, eventScheduler, steal
    {
      && steal in eventScheduler.Chain()
      && steal.triggerTime == EventQueue.PhasedTime(eventScheduler.currentTime, 0, EventQueue.Phi2)
    }

    /** A waiting CPU gets one more turn, for the first clock of the interrupt delay. */
    method Wake()
      requires Valid() && !rdy
      modifies eventScheduler, eventScheduler.Chain()`next, steal
      ensures Valid() && Awake()
      ensures eventScheduler.currentTime == old(eventScheduler.currentTime)
    {
      eventScheduler.Cancel(steal);
      eventScheduler.SchedulePhased(steal, 0, EventQueue.Phi2);
    }

    method TriggerNMI()
      requires Valid()
      modifies this`nmiFlag, this`interruptCycle, eventScheduler, eventScheduler.Chain()`next, steal
      ensures Valid() && Ctl() == CpuRuns.LineEvent(old(Ctl()), CpuRuns.TriggerNMI)
      ensures if rdy then eventScheduler.queue == old(eventScheduler.queue) else Awake()
      ensures eventScheduler.currentTime == old(eventScheduler.currentTime)
    {
      nmiFlag := true;
      CalculateInterruptTriggerCycle();
      if !rdy {
        Wake();
      }
    }

    method TriggerIRQ()
      requires Valid()
      modifies this`irqAssertedOnPin, this`interruptCycle, eventScheduler, eventScheduler.Chain()`next, steal
      ensures Valid() && Ctl() == CpuRuns.LineEvent(old(Ctl()), CpuRuns.TriggerIRQ)
      ensures if !rdy && interruptCycle == cycleCount then Awake() else eventScheduler.queue == old(eventScheduler.queue)
      ensures eventScheduler.currentTime == old(eventScheduler.currentTime)
    {
      irqAssertedOnPin := true;
      CalculateInterruptTriggerCycle();
      if !rdy && interruptCycle == cycleCount {
        Wake();
      }
    }

    /** Nothing sees to it that the removal event of an earlier release is not queued any more: IrqRelease says when it
        is not. If it is, the chain of events is damaged. */
    method ClearIRQ()
      requires Valid()
      modifies this`irqAssertedOnPin, eventScheduler, eventScheduler.Chain()`next, clearInt
      ensures Ctl() == CpuRuns.LineEvent(old(Ctl()), CpuRuns.ClearIRQ)
      ensures clearInt.triggerTime == EventQueue.PhasedTime(eventScheduler.currentTime, INTERRUPT_DELAY, EventQueue.Phi1)
      ensures clearInt !in old(eventScheduler.Chain()) ==> Valid() && clearInt in eventScheduler.Chain()
      ensures clearInt in old(eventScheduler.Chain()) && old(clearInt.triggerTime) <= clearInt.triggerTime ==>
                Knotted(clearInt, old(eventScheduler.nodes))
    {
      irqAssertedOnPin := false;
      eventScheduler.ScheduleUnguarded(clearInt, INTERRUPT_DELAY, EventQueue.Phi1);
    }

    method RemoveIRQ()
      modifies this`interruptCycle
      ensures Ctl() == CpuRuns.LineEvent(old(Ctl()), CpuRuns.RemoveIRQ)
    {
      if !rstFlag && !nmiFlag && interruptCycle != MAX {
        interruptCycle := MAX;
      }
    }
  }

  predicate IsLoad(alu: AluOp) { alu in {Lda, Ldx, Ldy, Lax} }

  predicate IsTransfer(alu: AluOp) { alu in {Tax, Tay, Tsx, Txa, Tya, Txs} }

  predicate IsFlagOp(alu: AluOp) { alu in {Clc, Sec, Cld, Sed, Clv} }

  predicate IsShift(alu: AluOp) { alu in {Asla, Lsra, Rola, Rora, Alr} }

  predicate IsLogic(alu: AluOp) { alu in {And, Ora, Eor, Anc, Ane, Oal, Las, Bit} }

  predicate IsFetchLow(op: Op) {
    op.FetchLowAddr? || op.FetchLowAddrX? || op.FetchLowAddrY? || op.FetchLowPointer? || op.FetchHighPointer?
  }

  predicate IsFetchHigh(op: Op) {
    op.FetchHighAddr? || op.FetchHighAddrX? || op.FetchHighAddrX2? || op.FetchHighAddrY? || op.FetchHighAddrY2?
  }

  predicate IsFetchEffAddr(op: Op) { op.FetchHighEffAddr? || op.FetchHighEffAddrY? || op.FetchHighEffAddrY2? }

  predicate IsRead(op: Op) { op.ThrowAwayFetch? || op.FetchDataByte? || op.FetchLowEffAddr? || op.FetchEffAddrDataByte? }

  predicate IsFix(op: Op) { op.FetchLowPointerX? || op.ThrowAwayRead? || op.FixBranch? || op.Rts? || op.WasteCycle? }

  predicate IsPush(op: Op) { op.PushLowPC? || op.PushHighPC? || op.PushSR? || op.PushA? }

  predicate IsPop(op: Op) { op.PopLowPC? || op.PopHighPC? || op.PopA? }

  predicate IsDataOp(op: Op) {
    && !op.Alu? && !op.Branch? && !op.Jmp? && !op.Rti? && !op.InterruptsAndNextOpcode? && !op.FetchNextOpcode?
    && !op.PopSR? && !op.BrkPushLowPC? && !op.IrqLoRequest? && !op.IrqHiRequest? && !op.InvalidOpcode?
  }

  // ----- Exec, one group of micro-operations at a time -----

  lemma JumpExec(op: Op, s: Cpu)
    requires op.Jmp? || op.Rti?
    ensures var c := s.c.(cycleCount := s.c.cycleCount + 1);
            var r := s.r.(pc := s.r.ea);
            Exec(op, s).0 == GoneOn(r, c, s.mem)
  {
    hide NextOpcode, Word, AluStep, RmwStep, StoreStep, BranchStep, Indexed, PushedByte, PackFlags, UnpackFlags, FetchNext,
         DelayPastBranch, CpuCore.CalculateInterruptTriggerCycle;
  }

  lemma NextExec(s: Cpu)
    ensures var c := s.c.(cycleCount := s.c.cycleCount + 1);
            Exec(Op.InterruptsAndNextOpcode, s).0 ==
              GoneOn(s.r, c, s.mem)
  {
    hide NextOpcode, Word;
  }

  lemma FetchExec(s: Cpu)
    ensures var c := s.c.(cycleCount := s.c.cycleCount + 1);
            Exec(Op.FetchNextOpcode, s).0 == Cpu(s.r.(pc := Word(s.r.pc + 1)), FetchNext(c, s.mem[s.r.pc]), s.mem)
  {
    hide FetchNext, Word;
  }

  lemma BranchExec(condition: Condition, s: Cpu)
    ensures var c := s.c.(cycleCount := s.c.cycleCount + 1);
            var r := BranchStep(s.r);
            Exec(Branch(condition), s).0 ==
              if Holds(condition, s.r.f) then
                Cpu(r, if r.adlCarry then c else DelayPastBranch(c.(cycleCount := c.cycleCount + 1)), s.mem)
              else GoneOn(s.r, c, s.mem)
  {
    hide NextOpcode, BranchStep, DelayPastBranch, Word, Holds;
  }

  lemma PopSRExec(s: Cpu)
    ensures var c := s.c.(cycleCount := s.c.cycleCount + 1);
            var sp := Byte(s.r.s + 1);
            Exec(Op.PopSR, s).0 == Cpu(s.r.(s := sp, f := UnpackFlags(s.mem[StackAddr(sp)])),
                                       CpuCore.CalculateInterruptTriggerCycle(c.(i := UnpackI(s.mem[StackAddr(sp)]))), s.mem)
  {
    hide UnpackFlags, UnpackI, CpuCore.CalculateInterruptTriggerCycle, Byte, StackAddr;
  }

  lemma BrkExec(s: Cpu)
    ensures var c := s.c.(cycleCount := s.c.cycleCount + 1);
            Exec(Op.BrkPushLowPC, s).0 == Cpu(s.r.(s := Byte(s.r.s - 1), ea := Vector(c)),
                                              CpuCore.CalculateInterruptTriggerCycle(c.(rst := false, nmi := false)),
                                              s.mem[StackAddr(s.r.s) := Lo(s.r.pc)])
  {
    hide CpuCore.CalculateInterruptTriggerCycle, Byte, StackAddr, Lo;
  }

  lemma VectorExec(op: Op, s: Cpu)
    requires op.IrqLoRequest? || op.IrqHiRequest?
    ensures var c := s.c.(cycleCount := s.c.cycleCount + 1);
            Exec(op, s).0 == if op.IrqLoRequest? then Cpu(s.r.(pc := WithLo(s.r.pc, s.mem[s.r.ea])), c.(d1x1 := false), s.mem)
                             else Cpu(s.r.(pc := WithHi(s.r.pc, s.mem[Word(s.r.ea + 1)])), c.(i := true), s.mem)
  {
    hide WithLo, WithHi, Word;
  }

  lemma DataExec(op: Op, s: Cpu, c: Ctl)
    requires IsDataOp(op) && c == s.c.(cycleCount := s.c.cycleCount + 1)
    ensures var t := RegsAfter(op, s.r, c, s.mem);
            Exec(op, s).0 ==
              Cpu(t, if MaySkip(op) && !t.adlCarry then c.(cycleCount := c.cycleCount + 1) else c, MemAfter(op, s.r, c, s.mem))
  {
    DataIgnoresCycle(op, s.r, s.c, c);
    hide BusOf, DataStep, Answer, MemoryAfter, NextOpcode, FetchNext, CpuCore.CalculateInterruptTriggerCycle, DelayPastBranch;
  }

  /** The same, told from the state in which the cycle counter has been moved on. */
  lemma DataExecMoved(op: Op, r: Regs, c: Ctl, mem: Memory)
    requires IsDataOp(op)
    ensures var t := RegsAfter(op, r, c, mem);
            Exec(op, Cpu(r, c.(cycleCount := c.cycleCount - 1), mem)).0 ==
              Cpu(t, if MaySkip(op) && !t.adlCarry then c.(cycleCount := c.cycleCount + 1) else c, MemAfter(op, r, c, mem))
  {
    hide Exec, RegsAfter, MemAfter, MaySkip, IsDataOp;
    DataExec(op, Cpu(r, c.(cycleCount := c.cycleCount - 1), mem), c);
  }

  lemma Groups(op: Op)
    requires IsDataOp(op)
    ensures op.Rmw? || op.Store? || op.PutEffAddrDataByte? || IsPush(op) || IsPop(op) || IsFetchLow(op) || IsFetchHigh(op)
            || IsFetchEffAddr(op) || IsRead(op) || IsFix(op)
  {
  }

  /** The instructions that write. */
  lemma WriteResult(op: Op, r: Regs, c: Ctl, mem: Memory)
    ensures op.Rmw? ==> RegsAfter(op, r, c, mem) == RmwStep(op.rmw, r) && MemAfter(op, r, c, mem) == mem[r.ea := r.data]
    ensures op.Store? ==> var t := StoreStep(op.store, r, c.rdyOnThrowAwayRead);
                          RegsAfter(op, r, c, mem) == t && MemAfter(op, r, c, mem) == mem[t.ea := t.data]
    ensures op.PutEffAddrDataByte? ==> RegsAfter(op, r, c, mem) == r && MemAfter(op, r, c, mem) == mem[r.ea := r.data]
  {
    hide RmwStep, StoreStep;
  }

  lemma PushResult(op: Op, r: Regs, c: Ctl, mem: Memory)
    requires IsPush(op)
    ensures RegsAfter(op, r, c, mem) == r.(s := Byte(r.s - 1))
    ensures Pushes(op) && MemAfter(op, r, c, mem) == mem[StackAddr(r.s) := PushedByte(op, r, c)]
  {
    hide PushedByte, StackAddr, Byte;
  }

  lemma PopResult(op: Op, r: Regs, c: Ctl, mem: Memory)
    requires IsPop(op)
    ensures var s := Byte(r.s + 1);
            var b := mem[StackAddr(s)];
            RegsAfter(op, r, c, mem) == (if op.PopLowPC? then r.(s := s, ea := WithLo(r.ea, b))
                                         else if op.PopHighPC? then r.(s := s, ea := WithHi(r.ea, b))
                                         else LoadA(r.(s := s), b))
    ensures MemAfter(op, r, c, mem) == mem
  {
    hide StackAddr, Byte, WithLo, WithHi, LoadA;
  }

  /** The data side does not look at the cycle counter. */
  lemma DataIgnoresCycle(op: Op, r: Regs, c: Ctl, d: Ctl)
    requires d == c.(cycleCount := d.cycleCount)
    ensures BusOf(op, r, c) == BusOf(op, r, d)
    ensures forall b: u8 :: DataStep(op, r, c, b) == DataStep(op, r, d, b)
  {
    hide StoreStep, AluStep, RmwStep, BranchStep, Word, Byte, WithLo, WithHi, Lo, Hi, PackFlags, UnpackFlags;
  }

  lemma AluExec(alu: AluOp, s: Cpu)
    requires alu != Cli && alu != Sei
    ensures var c := s.c.(cycleCount := s.c.cycleCount + 1);
            var r := AluStep(alu, s.r);
            && r.pc == s.r.pc
            && Exec(Alu(alu), s).0 == GoneOn(r, c, s.mem)
  {
    AluKeepsPc(alu, s.r);
    hide AluStep, NextOpcode, Word;
  }

  lemma CliExec(s: Cpu)
    ensures var c := CpuCore.CalculateInterruptTriggerCycle(s.c.(cycleCount := s.c.cycleCount + 1, i := false));
            Exec(Alu(Cli), s).0 == GoneOn(s.r, c, s.mem)
  {
    AluKeepsPc(Cli, s.r);
    hide AluStep, NextOpcode, Word;
  }

  lemma SeiExec(s: Cpu)
    ensures var c := s.c.(cycleCount := s.c.cycleCount + 1, i := true);
            var t := GoneOn(s.r, c, s.mem);
            Exec(Alu(Sei), s).0 == if !t.c.rst && !t.c.nmi then t.(c := t.c.(interruptCycle := MAX)) else t
  {
    AluKeepsPc(Sei, s.r);
    hide AluStep, NextOpcode, Word;
  }

  lemma RolaStep(r: Regs)
    ensures var a := RotateLeft(r.a, r.f.c);
            AluStep(Rola, r) == r.(a := a, f := SetNZ(r.f, a).(c := r.a >= 0x80))
    ensures RotateLeft(r.a, r.f.c) == Byte(r.a * 2) + Weight(r.f.c, 1)
  {
  }

  lemma AluKeepsPc(alu: AluOp, r: Regs)
    ensures AluStep(alu, r).pc == r.pc
    ensures alu == Cli || alu == Sei ==> AluStep(alu, r) == r
  {
    ArithmeticKeepsPc(r);
    hide AndB, OrB, XorB, Byte, RotateLeft, RotateRight, HasBit, SetNZ, CpuCore.DoADC, CpuCore.DoSBC, DoARR, Compare;
  }

  lemma ArithmeticKeepsPc(r: Regs)
    ensures CpuCore.DoADC(r).pc == CpuCore.DoSBC(r).pc == DoARR(r).pc == r.pc
    ensures Compare(r, r.a).pc == Compare(r, r.x).pc == Compare(r, r.y).pc == r.pc
  {
    hide Byte, HasBit, SetNZ, AndB, RotateRight, AddLow, AddMiddle, AddHigh, SubDecimal;
  }
}
