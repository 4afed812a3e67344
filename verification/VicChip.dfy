/**
 The VIC object (src/c64/VIC_II/mos656x.cpp, src/c64/VIC_II/mos656x.h): its fields, the raster event in the
 shared scheduler and the comparison event, proved against the jumping VIC on values.
 */
module VicChip {
  import opened EventQueue
  import opened Scheduling
  import opened SpriteLogic
  import opened SpriteUnit
  import opened VicCore
  import VicSkipping
  import IrqLine

  class Mos656x {
    const chip: Chip
    const scheduler: EventScheduler
    const event: Event      // the VIC itself as an event
    const edgeEvent: Event  // rasterYIRQEdgeDetectorEvent
    const regs: array<bv8>
    const sprites: Sprites
    var rasterClk: nat
    var lineCycle: nat
    var rasterY: nat
    var yscroll: nat
    var areBadLinesEnabled: bool
    var isBadLine: bool
    var rasterYIRQCondition: bool
    var vblanking: bool
    var lpAsserted: bool
    var irqFlags: bv8
    var irqMask: bv8
    var irqSignal: bool // what interrupt() was told last
    var pen: Pen
    var ba: bool  // the level given to setBA

    ghost function Raster(): Raster
      reads this
    {
      VicCore.Raster(rasterY, yscroll, areBadLinesEnabled, isBadLine, rasterYIRQCondition, vblanking,
                     irqFlags, irqMask, lpAsserted, pen)
    }

    ghost predicate Parts()
      reads this, sprites
    {
      && regs.Length == 0x40 && sprites.regs == regs && sprites.Valid()
      && chip.cycles > 0 && event != edgeEvent
      && irqSignal == IrqLine.Requests(irqFlags)
    }

    ghost function Vic(): Vic
      requires Parts()
      reads this, regs, sprites, sprites.mc, sprites.mc_base
    {
      VicCore.Vic(lineCycle, ba, sprites.Bank(), Raster(), regs[..])
    }

    constructor (chip: Chip, scheduler: EventScheduler)
      requires IsModel(chip) && scheduler.Valid()
      ensures Parts() && this.chip == chip && this.scheduler == scheduler
      ensures Vic() == VicSkipping.ResetVic(chip) && rasterClk == 0
      ensures fresh(event) && fresh(edgeEvent)
    {
      this.chip, this.scheduler := chip, scheduler;
      var e0 := new Event();
      var e1 := new Event();
      event, edgeEvent := e0, e1;
      var r := new bv8[0x40](_ => 0);
      regs := r;
      sprites := new Sprites(r);
      rasterClk, lineCycle, rasterY, yscroll := 0, 0, chip.rasters - 1, 0;
      areBadLinesEnabled, isBadLine, rasterYIRQCondition, vblanking, lpAsserted := false, false, false, false, false;
      irqFlags, irqMask, irqSignal, pen, ba := 0, 0, false, Pen(false, 0, 0), true;
      new;
      assert regs[..] == seq(0x40, _ => 0);
    }

    /** interrupt(): the machine is never told twice the same. */
    method Interrupt(state: bool)
      requires irqSignal != state
      modifies this`irqSignal
      ensures irqSignal == state
    {
      irqSignal := state;
    }

    /** The machine hears of the line exactly when bit 7 changes. */
    method HandleIrqState()
      requires irqSignal == IrqLine.Requests(irqFlags)
      modifies this`irqFlags, this`irqSignal
      ensures irqFlags == IrqState(old(irqFlags), irqMask) && irqSignal == IrqLine.Requests(irqFlags)
    {
      if irqFlags & irqMask & 0x0f != 0 {
        if irqFlags & 0x80 == 0 {
          Interrupt(true);
          irqFlags := irqFlags | 0x80;
        }
      } else {
        if irqFlags & 0x80 != 0 {
          Interrupt(false);
          irqFlags := irqFlags & 0x7f;
        }
      }
    }

    method ActivateIrqFlag(flag: bv8)
      requires irqSignal == IrqLine.Requests(irqFlags) && flag & 0x0f == flag
      modifies this`irqFlags, this`irqSignal
      ensures irqFlags == IrqState(old(irqFlags) | flag, irqMask) && irqSignal == IrqLine.Requests(irqFlags)
    {
      IrqLine.OtherBits(irqFlags, flag, 0);
      hide IrqState, IrqLine.Requests;
      irqFlags := irqFlags | flag;
      HandleIrqState();
    }

    method EdgeDetector()
      requires Parts()
      modifies this`irqFlags, this`irqSignal, this`rasterYIRQCondition
      ensures Parts() && Raster() == VicCore.EdgeDetector(old(Raster()), regs[..])
    {
      hide IrqState;
      var before := rasterYIRQCondition;
      rasterYIRQCondition := rasterY == RasterLineIrq(regs[..]);
      if !before && rasterYIRQCondition {
        ActivateIrqFlag(IRQ_RASTER);
      }
    }

    // checkVblank(), in the three steps of VicCore.CheckVblank

    method BadLineWindow()
      requires Parts()
      modifies this`areBadLinesEnabled, this`isBadLine
      ensures Raster() == VicCore.BadLineWindow(old(Raster()), regs[..])
    {
      if rasterY == FIRST_DMA_LINE && !areBadLinesEnabled && ReadDen(regs[..]) {
        areBadLinesEnabled := true;
      }
      if rasterY == LAST_DMA_LINE {
        areBadLinesEnabled := false;
      }
      isBadLine := false;
    }

    method NextLine()
      requires Parts()
      modifies this`rasterY, this`irqFlags, this`irqSignal, this`rasterYIRQCondition, this`areBadLinesEnabled
      ensures Parts() && Raster() == VicCore.NextLine(old(Raster()), regs[..])
    {
      hide IrqState, VicCore.EdgeDetector, RasterLineIrq, ReadDen;
      rasterY := rasterY + 1;
      EdgeDetector();
      if rasterY == FIRST_DMA_LINE && !areBadLinesEnabled {
        areBadLinesEnabled := ReadDen(regs[..]);
      }
    }

    method CheckVblank()
      requires Parts()
      modifies this`rasterY, this`irqFlags, this`irqSignal, this`rasterYIRQCondition, this`areBadLinesEnabled, this`isBadLine, this`vblanking
      ensures Parts() && Raster() == VicCore.CheckVblank(old(Raster()), regs[..], chip.rasters)
    {
      hide VicCore.BadLineWindow, VicCore.NextLine;
      if rasterY == chip.rasters - 1 {
        vblanking := true;
      }
      BadLineWindow();
      if !vblanking {
        NextLine();
      }
      if areBadLinesEnabled && FIRST_DMA_LINE <= rasterY <= LAST_DMA_LINE && rasterY % 8 == yscroll {
        isBadLine := true;
      }
    }

    method Retrigger()
      requires Parts()
      modifies this`irqFlags, this`irqSignal, this`pen
      ensures Parts() && Raster() == VicCore.Retrigger(old(Raster()), chip.cycles)
    {
      hide IrqState;
      pen := Pen(true, if chip.cycles == 65 then 0xd5 else 0xd1, 0);
      ActivateIrqFlag(IRQ_LIGHTPEN);
    }

    method Vblank()
      requires Parts()
      modifies this`vblanking, this`rasterY, this`irqFlags, this`irqSignal, this`rasterYIRQCondition, this`pen
      ensures Parts() && Raster() == VicCore.Vblank(old(Raster()), regs[..], chip.cycles)
    {
      hide VicCore.EdgeDetector, VicCore.Retrigger;
      if vblanking {
        vblanking := false;
        rasterY := 0;
        EdgeDetector();
        pen := pen.(triggered := false);
        if lpAsserted {
          Retrigger();
        }
      }
    }

    // What the line clocks are made of

    method StartDma(n: nat)
      requires Parts()
      modifies this`ba
      ensures var active := old(Dma(Vic())) & StartMask(n) != 0;
              ba == if n == 0 then !active else old(ba) && !active
    {
      hide StartMask, DmaMask;
      var active := sprites.IsDma(StartMask(n));
      if n == 0 {
        ba := !active;
      } else if active {
        ba := false;
      }
    }

    method EndDma(n: nat)
      requires Parts()
      modifies this`ba
      ensures ba == (old(ba) || old(Dma(Vic())) & EndMask(n) == 0)
    {
      hide EndMask, DmaMask;
      var active := sprites.IsDma(EndMask(n));
      if !active {
        ba := true;
      }
    }

    method BusAct(act: Act)
      requires Parts() && (act.StartDma? || act.EndDma? || act.StartBadline? || act.ReleaseBa?)
      modifies this`ba
      ensures Vic() == Do(chip, old(Vic()), act)
    {
      hide StartMask, EndMask, DmaMask;
      match act {
        case StartDma(n) => StartDma(n);
        case EndDma(n) => EndDma(n);
        case StartBadline =>
          if isBadLine {
            ba := false;
          }
        case ReleaseBa => ba := true;
      }
    }

    method SpriteAct(act: Act)
      requires Parts()
      requires act.DoUpdateMc? || act.DoUpdateMcBase? || act.DoCheckDma? || act.DoCheckExp? || act.DoCheckDisplay?
      modifies sprites, sprites.mc, sprites.mc_base
      ensures Parts() && Vic() == Do(chip, old(Vic()), act)
    {
      hide SpriteLogic.UpdateMc, SpriteLogic.UpdateMcBase, SpriteLogic.CheckDma, SpriteLogic.CheckExp, SpriteLogic.CheckDisplay;
      match act {
        case DoUpdateMc => sprites.UpdateMc();
        case DoUpdateMcBase => sprites.UpdateMcBase();
        case DoCheckDma => sprites.CheckDma(rasterY);
        case DoCheckExp => sprites.CheckExp();
        case DoCheckDisplay => sprites.CheckDisplay();
      }
    }

    method Act(act: Act)
      requires Parts()
      modifies this, sprites, sprites.mc, sprites.mc_base
      ensures Parts() && Vic() == Do(chip, old(Vic()), act)
      ensures rasterClk == old(rasterClk)
    {
      hide VicCore.CheckVblank, VicCore.Vblank, StartMask, EndMask, DmaMask;
      if act.DoCheckVblank? {
        CheckVblank();
      } else if act.DoVblank? {
        Vblank();
      } else if act.StartDma? || act.EndDma? || act.StartBadline? || act.ReleaseBa? {
        BusAct(act);
      } else if !act.Nothing? {
        SpriteAct(act);
      }
    }

    /** One cycle of the line clock; returns how far away the next interesting cycle is. */
    method LineClock() returns (delay: int)
      requires Parts()
      modifies this, sprites, sprites.mc, sprites.mc_base
      ensures Parts() && Vic() == VicCore.Clock(chip, old(Vic())) && delay == Delay(chip, Vic()) && delay >= 1
      ensures rasterClk == old(rasterClk)
    {
      hide Do, WorkOf, DelayOf;
      var work := WorkOf(chip.clock, lineCycle);
      Act(work.first);
      Act(work.second);
      Act(work.third);
      sprites.DmaIsMask();
      delay := DelayOf(chip.clock, lineCycle, sprites.dma);
      VicSkipping.DelayIsPositive(chip.clock, lineCycle, Dma(Vic()));
    }

    // The raster event and the register file

    ghost function State(): VicSkipping.Jumping
      requires Parts()
      reads this, regs, sprites, sprites.mc, sprites.mc_base, scheduler, event
    {
      VicSkipping.Jumping(Vic(), edgeEvent in scheduler.Chain(), rasterClk, event.triggerTime / 2)
    }

    /** The raster event is queued for a PHI1, and rasterClk is not in the future. */
    ghost predicate Valid()
      reads this, sprites, scheduler, scheduler.Chain(), event
    {
      && Parts() && scheduler.Valid()
      && event in scheduler.Chain()
      && rasterClk <= scheduler.currentTime / 2
    }

    /** Queues the raster event for the PHI1 `delay` cycles from now, in whichever phase we are. */
    method Requeue(delay: nat)
      requires scheduler.Valid() && event !in scheduler.Chain() && event != edgeEvent && delay >= 1
      modifies scheduler, scheduler.Chain()`next, event
      ensures scheduler.Valid() && scheduler.Chain() == old(scheduler.Chain()) + {event}
      ensures scheduler.currentTime == old(scheduler.currentTime)
      ensures event.triggerTime / 2 == scheduler.currentTime / 2 + delay
    {
      hide EventQueue.Valid;
      scheduler.SchedulePhased(event, delay - scheduler.currentTime % 2, Phi1);
    }

    /** Moves to the given cycle and runs the line clock there, unless it has been run already. */
    method CatchUp(now: nat) returns (delay: int)
      requires Parts() && rasterClk <= now
      modifies this, sprites, sprites.mc, sprites.mc_base
      ensures Parts() && rasterClk == now && delay >= 1
      ensures (Vic(), delay) == VicSkipping.CatchUp(chip, old(Vic()), now - old(rasterClk))
    {
      hide VicCore.Clock, DelayOf;
      var cycles := now - rasterClk;
      delay := 1;
      if cycles > 0 {
        rasterClk := rasterClk + cycles;
        lineCycle := (lineCycle + cycles) % chip.cycles;
        delay := LineClock();
      }
    }

    /** event(), with the raster event out of the queue; in PHI1 or, for a catch-up, in PHI2. */
    method RasterEvent()
      requires Parts() && scheduler.Valid() && event !in scheduler.Chain()
      requires rasterClk <= scheduler.currentTime / 2
      modifies this, sprites, sprites.mc, sprites.mc_base, scheduler, scheduler.Chain()`next, event
      ensures Valid()
      ensures State() == VicSkipping.Event(chip, old(State()), old(scheduler.currentTime) / 2)
      ensures scheduler.Chain() == old(scheduler.Chain()) + {event}
    {
      hide VicSkipping.CatchUp, EventQueue.Valid;
      var phase := if scheduler.currentTime % 2 == 0 then Phi1 else Phi2;
      var delay := CatchUp(GetTime(scheduler.currentTime, phase));
      Requeue(delay);
    }

    /** Brings the VIC up to date in the middle of a cycle. */
    method Sync()
      requires Valid()
      modifies this, sprites, sprites.mc, sprites.mc_base, scheduler, scheduler.Chain()`next, event
      ensures Valid()
      ensures State() == VicSkipping.Event(chip, old(State()), old(scheduler.currentTime) / 2)
      ensures scheduler.Chain() == old(scheduler.Chain())
    {
      hide VicSkipping.Event, EventQueue.Valid;
      scheduler.Cancel(event);
      RasterEvent();
    }

    method Read(addr: nat) returns (value: bv8)
      requires Valid() && addr < 0x40
      modifies this, sprites, sprites.mc, sprites.mc_base, scheduler, scheduler.Chain()`next, event
      ensures Valid()
      ensures State() == VicSkipping.JumpingAccess(chip, old(State()), old(scheduler.currentTime) / 2, VicCore.Read(addr))
      ensures value == ReadValue(Vic(), addr)
    {
      hide VicSkipping.Event;
      Sync();
      if addr == 0x11 {
        value := (regs[addr] & 0x7f) | (if rasterY / 0x100 % 2 == 1 then 0x80 else 0);
      } else if addr == 0x12 {
        value := (rasterY % 0x100) as bv8;
      } else if addr == 0x13 {
        value := pen.x as bv8;
      } else if addr == 0x14 {
        value := pen.y as bv8;
      } else if addr == 0x19 {
        value := irqFlags | 0x70;
      } else if addr == 0x1a {
        value := irqMask | 0xf0;
      } else if addr < 0x20 {
        value := regs[addr];
      } else if addr < 0x2f {
        value := regs[addr] | 0xf0;
      } else {
        value := 0xff;
      }
    }

    /** What a write does once the VIC is up to date. */
    method WriteEffect(addr: nat, data: bv8)
      requires Parts() && addr < 0x40 && addr != 0x11
      modifies this`irqFlags, this`irqSignal, this`irqMask, sprites, sprites.mc, sprites.mc_base
      ensures Parts() && Vic() == Effect(chip, old(Vic()), VicCore.Write(addr, data))
    {
      hide IrqState, SpriteLogic.LineCrunch;
      if addr == 0x17 {
        sprites.LineCrunch(data, lineCycle);
      } else {
        IrqWrite(addr, data);
      }
    }

    method IrqWrite(addr: nat, data: bv8)
      requires Parts() && addr < 0x40 && addr != 0x11 && addr != 0x17
      modifies this`irqFlags, this`irqSignal, this`irqMask
      ensures Parts() && Vic() == Effect(chip, old(Vic()), VicCore.Write(addr, data))
    {
      hide IrqState, Acknowledged, IrqLine.Requests, SpriteLogic.LineCrunch, SpriteLogic.DmaMask;
      if addr == 0x19 {
        IrqLine.OtherBits(irqFlags, 0, data);
        irqFlags := Acknowledged(irqFlags, data);
        HandleIrqState();
      } else if addr == 0x1a {
        irqMask := data & 0x0f;
        HandleIrqState();
      }
    }

    method AskForEdge()
      requires Valid() && edgeEvent !in scheduler.Chain()
      modifies scheduler, scheduler.Chain()`next, edgeEvent
      ensures Valid() && State() == old(State()).(edge := true)
    {
      hide EventQueue.Valid;
      scheduler.SchedulePhased(edgeEvent, 0, Phi1);
    }

    /** A register write in PHI2; the CPU writes at most once a cycle, so no comparison is pending yet. */
    method Write(addr: nat, data: bv8)
      requires Valid() && addr < 0x40 && addr != 0x11
      requires edgeEvent !in scheduler.Chain()
      modifies this, regs, sprites, sprites.mc, sprites.mc_base, scheduler, scheduler.Chain()`next, event, edgeEvent
      ensures Valid()
      ensures State() == VicSkipping.JumpingAccess(chip, old(State()), old(scheduler.currentTime) / 2, VicCore.Write(addr, data))
    {
      hide VicSkipping.Event, Effect, EventQueue.Valid;
      regs[addr] := data;
      Sync();
      WriteEffect(addr, data);
      if addr == 0x12 {
        AskForEdge();
      }
    }
  }
}
