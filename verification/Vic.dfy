/**
 The VIC-II raster, sprite DMA and BA machine (src/c64/VIC_II/mos656x.cpp, src/c64/VIC_II/mos656x.h)
 as a value that is clocked once per cycle.
 */
module VicCore {
  import opened SpriteLogic

  /** The three line clocks. */
  datatype LineClock = Pal | Ntsc | OldNtsc

  datatype Chip = Chip(rasters: nat, cycles: nat, clock: LineClock)

  const MOS6567R56A := Chip(262, 64, OldNtsc)
  const MOS6567R8 := Chip(263, 65, Ntsc)
  const MOS6569 := Chip(312, 63, Pal)
  const MOS6572 := Chip(312, 65, Ntsc)
  const MOS6573 := Chip(263, 65, Ntsc)

  predicate IsModel(chip: Chip) {
    chip in {MOS6567R56A, MOS6567R8, MOS6569, MOS6572, MOS6573}
  }

  /** What the five models have in common: the line clock fits the length of the line. */
  predicate Fits(chip: Chip) {
    chip.cycles == (match chip.clock case Pal => 63 case Ntsc => 65 case OldNtsc => 64)
  }

  lemma ModelsFit(chip: Chip)
    requires IsModel(chip)
    ensures Fits(chip)
  {
  }

  const IRQ_RASTER: bv8 := 0x01
  const IRQ_LIGHTPEN: bv8 := 0x08
  const FIRST_DMA_LINE := 0x30
  const LAST_DMA_LINE := 0xf7

  datatype Pen = Pen(triggered: bool, x: u8, y: u8)

  datatype Raster = Raster(
    y: nat, yscroll: nat, badLinesEnabled: bool, isBadLine: bool, irqCondition: bool, vblanking: bool,
    irqFlags: bv8, irqMask: bv8, penAsserted: bool, pen: Pen)

  datatype Vic = Vic(lineCycle: nat, ba: bool, sprites: Bank, raster: Raster, regs: Regs)

  function Dma(v: Vic): bv8 { DmaMask(v.sprites) }

  // ----- Interrupts -----

  /** Bit 7 is set iff an enabled flag is pending. */
  function IrqState(flags: bv8, mask: bv8): bv8 {
    if flags & mask & 0x0f != 0 then flags | 0x80 else flags & 0x7f
  }

  /** A write to $D019 clears the flags it names, and never bit 7. */
  function Acknowledged(flags: bv8, data: bv8): bv8 { flags & ((!data & 0x0f) | 0x80) }

  function HandleIrqState(r: Raster): Raster {
    r.(irqFlags := IrqState(r.irqFlags, r.irqMask))
  }

  function ActivateIrqFlag(r: Raster, flag: bv8): Raster {
    HandleIrqState(r.(irqFlags := r.irqFlags | flag))
  }

  function RasterLineIrq(regs: Regs): nat {
    regs[0x12] as int + (if regs[0x11] & 0x80 != 0 then 0x100 else 0)
  }

  predicate ReadDen(regs: Regs) { regs[0x11] & 0x10 != 0 }

  function EdgeDetector(r: Raster, regs: Regs): Raster {
    var now := r.y == RasterLineIrq(regs);
    var r' := r.(irqCondition := now);
    if !r.irqCondition && now then ActivateIrqFlag(r', IRQ_RASTER) else r'
  }

  // ----- The lines -----

  predicate EvaluateIsBadLine(r: Raster) {
    r.badLinesEnabled && FIRST_DMA_LINE <= r.y <= LAST_DMA_LINE && r.y % 8 == r.yscroll
  }

  /** What the first cycle of a line decides about bad lines before the counter moves. */
  function BadLineWindow(r: Raster, regs: Regs): Raster {
    var allowed := r.badLinesEnabled || (r.y == FIRST_DMA_LINE && ReadDen(regs));
    r.(badLinesEnabled := allowed && r.y != LAST_DMA_LINE, isBadLine := false)
  }

  function NextLine(r: Raster, regs: Regs): Raster {
    var r' := EdgeDetector(r.(y := r.y + 1), regs);
    if r'.y == FIRST_DMA_LINE && !r'.badLinesEnabled then r'.(badLinesEnabled := ReadDen(regs)) else r'
  }

  function CheckVblank(r: Raster, regs: Regs, rasters: nat): Raster {
    var r1 := if r.y == rasters - 1 then r.(vblanking := true) else r;
    var r2 := BadLineWindow(r1, regs);
    var r3 := if r2.vblanking then r2 else NextLine(r2, regs);
    if EvaluateIsBadLine(r3) then r3.(isBadLine := true) else r3
  }

  /** The pen fires again at the top of the frame if its line is still held. */
  function Retrigger(r: Raster, cycles: nat): Raster {
    ActivateIrqFlag(r.(pen := Pen(true, if cycles == 65 then 0xd5 else 0xd1, 0)), IRQ_LIGHTPEN)
  }

  function Vblank(r: Raster, regs: Regs, cycles: nat): Raster {
    if !r.vblanking then r
    else
      var r' := EdgeDetector(r.(vblanking := false, y := 0), regs);
      var r'' := r'.(pen := r'.pen.(triggered := false));
      if r''.penAsserted then Retrigger(r'', cycles) else r''
  }

  // ----- One cycle -----

  /** The things a line clock can do in one cycle. */
  datatype Act =
    | Nothing
    | DoCheckVblank
    | DoVblank
    | StartDma(n: nat)
    | EndDma(n: nat)
    | StartBadline
    | DoUpdateMc
    | DoUpdateMcBase
    | DoCheckDma
    | DoCheckExp
    | DoCheckDisplay
    | ReleaseBa

  /** The two sprites whose DMA keeps the bus after the one of sprite n; past sprite 7 there is none. */
  function EndMask(n: nat): bv8 {
    match n
    case 0 => 0x06 case 1 => 0x0c case 2 => 0x18 case 3 => 0x30 case 4 => 0x60 case 5 => 0xc0 case 6 => 0x80 case _ => 0
  }

  function StartMask(n: nat): bv8 {
    match n
    case 0 => 0x01 case 1 => 0x02 case 2 => 0x04 case 3 => 0x08 case 4 => 0x10 case 5 => 0x20 case 6 => 0x40 case _ => 0x80
  }

  function Do(chip: Chip, v: Vic, act: Act): Vic {
    match act
    case Nothing => v
    case DoCheckVblank => v.(raster := CheckVblank(v.raster, v.regs, chip.rasters))
    case DoVblank => v.(raster := Vblank(v.raster, v.regs, chip.cycles))
    case StartDma(n) =>
      var active := Dma(v) & StartMask(n) != 0;
      v.(ba := if n == 0 then !active else v.ba && !active)
    case EndDma(n) => v.(ba := v.ba || Dma(v) & EndMask(n) == 0)
    case StartBadline => if v.raster.isBadLine then v.(ba := false) else v
    case DoUpdateMc => v.(sprites := UpdateMc(v.sprites))
    case DoUpdateMcBase => v.(sprites := UpdateMcBase(v.sprites))
    case DoCheckDma => v.(sprites := CheckDma(v.sprites, v.raster.y, v.regs))
    case DoCheckExp => v.(sprites := CheckExp(v.sprites, v.regs))
    case DoCheckDisplay => v.(sprites := CheckDisplay(v.sprites))
    case ReleaseBa => v.(ba := true)
  }

  /** Up to three things, one after the other. */
  datatype Work = Work(first: Act, second: Act, third: Act)

  function Perform(chip: Chip, v: Vic, w: Work): Vic {
    Do(chip, Do(chip, Do(chip, v, w.first), w.second), w.third)
  }

  function One(a: Act): Work { Work(a, Nothing, Nothing) }

  /** Cycles 0 to 15 are the same for PAL and old NTSC. */
  function EarlyWork(c: nat): Work {
    match c
    case 0 => Work(DoCheckVblank, EndDma(2), Nothing)
    case 1 => Work(DoVblank, StartDma(5), Nothing)
    case 2 => One(EndDma(3))
    case 3 => One(StartDma(6))
    case 4 => One(EndDma(4))
    case 5 => One(StartDma(7))
    case 6 => One(EndDma(5))
    case 8 => One(EndDma(6))
    case 10 => One(EndDma(7))
    case 11 => One(StartBadline)
    case 14 => One(DoUpdateMc)
    case 15 => One(DoUpdateMcBase)
    case _ => One(Nothing)
  }

  function WorkPal(c: nat): Work {
    if c <= 15 then EarlyWork(c)
    else match c
      case 54 => Work(DoCheckDma, StartDma(0), Nothing)
      case 55 => Work(DoCheckDma, DoCheckExp, StartDma(0))
      case 56 => One(StartDma(1))
      case 57 => One(DoCheckDisplay)
      case 58 => One(StartDma(2))
      case 59 => One(EndDma(0))
      case 60 => One(StartDma(3))
      case 61 => One(EndDma(1))
      case 62 => One(StartDma(4))
      case _ => One(Nothing)
  }

  function WorkNtsc(c: nat): Work {
    match c
    case 0 => Work(DoCheckVblank, StartDma(5), Nothing)
    case 1 => Work(DoVblank, EndDma(3), Nothing)
    case 2 => One(StartDma(6))
    case 3 => One(EndDma(4))
    case 4 => One(StartDma(7))
    case 5 => One(EndDma(5))
    case 7 => One(EndDma(6))
    case 9 => One(EndDma(7))
    case 11 => One(StartBadline)
    case 14 => One(DoUpdateMc)
    case 15 => One(DoUpdateMcBase)
    case 54 => One(ReleaseBa)
    case 55 => Work(DoCheckDma, DoCheckExp, StartDma(0))
    case 56 => Work(DoCheckDma, StartDma(0), Nothing)
    case 57 => One(StartDma(1))
    case 58 => One(DoCheckDisplay)
    case 59 => One(StartDma(2))
    case 60 => One(EndDma(0))
    case 61 => One(StartDma(3))
    case 62 => One(EndDma(1))
    case 63 => One(StartDma(4))
    case 64 => One(EndDma(2))
    case _ => One(Nothing)
  }

  function WorkOldNtsc(c: nat): Work {
    if c <= 15 then EarlyWork(c)
    else match c
      case 54 => One(ReleaseBa)
      case 55 => Work(DoCheckDma, DoCheckExp, StartDma(0))
      case 56 => Work(DoCheckDma, StartDma(0), Nothing)
      case 57 => Work(DoCheckDisplay, StartDma(1), Nothing)
      case 59 => One(StartDma(2))
      case 60 => One(EndDma(0))
      case 61 => One(StartDma(3))
      case 62 => One(EndDma(1))
      case 63 => One(StartDma(4))
      case _ => One(Nothing)
  }

  function WorkOf(clock: LineClock, c: nat): Work {
    match clock
    case Pal => WorkPal(c)
    case Ntsc => WorkNtsc(c)
    case OldNtsc => WorkOldNtsc(c)
  }

  /** What the line clock does in the current line cycle. */
  function Clock(chip: Chip, v: Vic): Vic {
    Perform(chip, v, WorkOf(chip.clock, v.lineCycle))
  }

  // ----- The delay the line clock returns, with the DMA mask it leaves -----

  function DelayPal(c: nat, dma: bv8): int {
    match c
    case 1 => if dma & 0xf8 == 0 then 10 else 1
    case 6 => if dma & 0xc0 != 0 then 2 else 5
    case 8 => 2
    case 11 => 3
    case 12 => 2
    case 15 => 39
    case 57 => if dma & 0x1f == 0 then 6 else 1
    case _ => if 16 <= c < 54 then 54 - c else 1
  }

  function DelayNtsc(c: nat, dma: bv8): int {
    match c
    case 1 => if dma & 0xf0 == 0 then 10 else 1
    case 5 => if dma & 0xc0 != 0 then 2 else 6
    case 7 => 2
    case 9 => 2
    case 11 => 3
    case 12 => 2
    case 15 => 39
    case 58 => if dma & 0x1f == 0 then 7 else 1
    case _ => if 16 <= c < 54 then 54 - c else 1
  }

  function DelayOldNtsc(c: nat, dma: bv8): int {
    match c
    case 1 => if dma & 0xf8 == 0 then 10 else 1
    case 6 => if dma & 0xc0 != 0 then 2 else 5
    case 8 => 2
    case 11 => 3
    case 12 => 2
    case 15 => 39
    case 57 => if dma & 0x1f != 0 then 2 else 7
    case _ => if 16 <= c < 54 then 54 - c else 1
  }

  function DelayOf(clock: LineClock, c: nat, dma: bv8): int {
    match clock
    case Pal => DelayPal(c, dma)
    case Ntsc => DelayNtsc(c, dma)
    case OldNtsc => DelayOldNtsc(c, dma)
  }

  function Delay(chip: Chip, v: Vic): int {
    DelayOf(chip.clock, v.lineCycle, Dma(v))
  }

  // ----- Register accesses -----

  /** What can happen in PHI2; a write to $D011 is not part of this model. */
  datatype Access =
    | Read(addr: nat)
    | Write(addr: nat, data: bv8)
    | PenLine(low: bool)  // the CIA drives the light pen line
    | PenLatch            // one cycle after the line went low

  predicate Allowed(a: Access) {
    match a
    case Read(addr) => addr < 0x40
    case Write(addr, _) => addr < 0x40 && addr != 0x11
    case PenLine(_) => true
    case PenLatch => true
  }

  function ReadValue(v: Vic, addr: nat): bv8
    requires addr < 0x40
  {
    if addr == 0x11 then (v.regs[addr] & 0x7f) | (if v.raster.y / 0x100 % 2 == 1 then 0x80 else 0)
    else if addr == 0x12 then (v.raster.y % 0x100) as bv8
    else if addr == 0x13 then v.raster.pen.x as bv8
    else if addr == 0x14 then v.raster.pen.y as bv8
    else if addr == 0x19 then v.raster.irqFlags | 0x70
    else if addr == 0x1a then v.raster.irqMask | 0xf0
    else if addr < 0x20 then v.regs[addr]
    else if addr < 0x2f then v.regs[addr] | 0xf0
    else 0xff
  }

  function PenX(lineCycle: nat, cycles: nat): u8 {
    var c := (if lineCycle < 13 then lineCycle + cycles else lineCycle) - 13;
    var c' := if cycles == 65 && c > 61 - 13 then c - 1 else c;
    c' * 4 % 0x100
  }

  function LatchPen(chip: Chip, v: Vic): Vic {
    var r := v.raster;
    if r.pen.triggered then v
    else if r.y == chip.rasters - 1 && v.lineCycle > 0 then v.(raster := r.(pen := r.pen.(triggered := true)))
    else v.(raster := ActivateIrqFlag(r.(pen := Pen(true, (PenX(v.lineCycle, chip.cycles) + 2) % 0x100, r.y % 0x100)), IRQ_LIGHTPEN))
  }

  /** The part of an access that comes before the catch-up. */
  function Store(v: Vic, a: Access): Vic
    requires Allowed(a)
  {
    match a
    case Write(addr, data) => v.(regs := v.regs[addr := data])
    case PenLine(low) => v.(raster := v.raster.(penAsserted := low))
    case _ => v
  }

  /** The part of an access that comes after the catch-up. */
  function Effect(chip: Chip, v: Vic, a: Access): Vic {
    match a
    case Write(addr, data) =>
      var r := v.raster;
      if addr == 0x17 then v.(sprites := LineCrunch(v.sprites, data, v.lineCycle))
      else if addr == 0x19 then v.(raster := HandleIrqState(r.(irqFlags := Acknowledged(r.irqFlags, data))))
      else if addr == 0x1a then v.(raster := HandleIrqState(r.(irqMask := data & 0x0f)))
      else v
    case PenLatch => LatchPen(chip, v)
    case _ => v
  }

  predicate Syncs(a: Access) { !a.PenLine? }

  /** A write to $D012 has the raster comparison made again in the next PHI1. */
  predicate AsksForEdge(a: Access) { a.Write? && a.addr == 0x12 }
}

/**
 The VIC that jumps over the cycles its line clock calls uneventful, against the one stepped every cycle.
 */
module VicSkipping {
  import opened SpriteLogic
  import opened VicCore

  /** Stepped every cycle. */
  datatype Stepped = Stepped(vic: Vic, edge: bool)

  /** As implemented: rasterClk and the cycle of the pending event. */
  datatype Jumping = Jumping(vic: Vic, edge: bool, rasterClk: int, next: int)

  function Tick(chip: Chip, v: Vic): Vic
    requires chip.cycles > 0
  {
    Clock(chip, v.(lineCycle := (v.lineCycle + 1) % chip.cycles))
  }

  function Edge(v: Vic, edge: bool): Vic {
    if edge then v.(raster := EdgeDetector(v.raster, v.regs)) else v
  }

  /** Runs the line clock `cycles` further on, unless it has been run there already; says when to come back. */
  function CatchUp(chip: Chip, v: Vic, cycles: int): (Vic, int)
    requires chip.cycles > 0 && cycles >= 0
  {
    if cycles == 0 then (v, 1)
    else
      var v' := Clock(chip, v.(lineCycle := (v.lineCycle + cycles) % chip.cycles));
      (v', Delay(chip, v'))
  }

  /** event(), in either phase of cycle now. */
  function Event(chip: Chip, s: Jumping, now: int): Jumping
    requires chip.cycles > 0 && now >= s.rasterClk
  {
    var (v, delay) := CatchUp(chip, s.vic, now - s.rasterClk);
    s.(vic := v, rasterClk := now, next := now + delay)
  }

  /** PHI1: the raster event if it is due, then the raster comparison if one was asked for. The event is ahead because
      the access that asks for the comparison has just queued it anew; the CPU makes one access a cycle, so no later
      catch-up in the same PHI2 puts it behind. */
  function JumpingPhi1(chip: Chip, s: Jumping, now: int): Jumping
    requires chip.cycles > 0 && now >= s.rasterClk
  {
    var s' := if s.next == now then Event(chip, s, now) else s;
    s'.(vic := Edge(s'.vic, s'.edge), edge := false)
  }

  function SteppedPhi1(chip: Chip, s: Stepped): Stepped
    requires chip.cycles > 0
  {
    Stepped(Edge(Tick(chip, s.vic), s.edge), false)
  }

  function JumpingAccess(chip: Chip, s: Jumping, now: int, a: Access): Jumping
    requires chip.cycles > 0 && now >= s.rasterClk && Allowed(a)
  {
    var s1 := s.(vic := Store(s.vic, a));
    var s2 := if Syncs(a) then Event(chip, s1, now) else s1;
    s2.(vic := Effect(chip, s2.vic, a), edge := s2.edge || AsksForEdge(a))
  }

  function SteppedAccess(chip: Chip, s: Stepped, a: Access): Stepped
    requires Allowed(a)
  {
    Stepped(Effect(chip, Store(s.vic, a), a), s.edge || AsksForEdge(a))
  }

  // ----- Why the jumps are safe -----

  /** Sprites whose DMA alone may hold the bus after the given line cycle; None if others may too. */
  datatype Holders = None | Some(mask: bv8)

  function HoldersOf(clock: LineClock, c: nat): Holders {
    match clock
    case Pal =>
      (match c
       case 0 => Some(0x18) case 1 => Some(0x38) case 6 => Some(0xc0)
       case 54 => Some(0x01) case 55 => Some(0x01) case 56 => Some(0x03) case 57 => Some(0x03)
       case _ => None)
    case Ntsc =>
      (match c
       case 1 => Some(0x30) case 5 => Some(0xc0)
       case 55 => Some(0x01) case 56 => Some(0x01) case 57 => Some(0x03) case 58 => Some(0x03)
       case _ => None)
    case OldNtsc =>
      (match c
       case 0 => Some(0x18) case 1 => Some(0x38) case 6 => Some(0xc0)
       case 55 => Some(0x01) case 56 => Some(0x01) case 57 => Some(0x03)
       case _ => None)
  }

  /** If none of those sprites is in DMA, the bus is free. */
  predicate FreeUnlessHeld(clock: LineClock, c: nat, ba: bool, dma: bv8) {
    var h := HoldersOf(clock, c);
    h.Some? && dma & h.mask == 0 ==> ba
  }

  predicate BusInv(chip: Chip, v: Vic) {
    v.lineCycle < chip.cycles && FreeUnlessHeld(chip.clock, v.lineCycle, v.ba, Dma(v))
  }

  /** What an act does to BA, told by the DMA mask alone. */
  function BaAfter(ba: bool, dma: bv8, bad: bool, act: Act): bool {
    match act
    case StartDma(n) => if n == 0 then dma & 0x01 == 0 else ba && dma & StartMask(n) == 0
    case EndDma(n) => ba || dma & EndMask(n) == 0
    case StartBadline => ba && !bad
    case ReleaseBa => true
    case _ => ba
  }

  predicate ChangesDma(act: Act) { act.DoUpdateMcBase? || act.DoCheckDma? }

  lemma MaskDependsOnDma(a: Bank, b: Bank)
    requires forall i | 0 <= i < SPRITES :: a[i].dma == b[i].dma
    ensures DmaMask(a) == DmaMask(b)
  {
  }

  lemma ActOnBus(chip: Chip, v: Vic, act: Act)
    ensures Do(chip, v, act).lineCycle == v.lineCycle
    ensures Do(chip, v, act).ba == BaAfter(v.ba, Dma(v), v.raster.isBadLine, act)
    ensures !ChangesDma(act) ==> Dma(Do(chip, v, act)) == Dma(v)
  {
    SpritesOnBus(v.sprites, v.regs);
    StartOnBus(Dma(v));
    hide DmaMask, UpdateMc, CheckExp, CheckDisplay, CheckVblank, Vblank, UpdateMcBase, CheckDma, EndMask, StartMask;
  }

  /** What the sprites do between updates of their bases leaves the DMA mask alone. */
  lemma SpritesOnBus(b: Bank, regs: Regs)
    ensures DmaMask(UpdateMc(b)) == DmaMask(CheckExp(b, regs)) == DmaMask(CheckDisplay(b)) == DmaMask(b)
  {
    MaskDependsOnDma(b, UpdateMc(b));
    MaskDependsOnDma(b, CheckExp(b, regs));
    MaskDependsOnDma(b, CheckDisplay(b));
  }

  lemma StartOnBus(dma: bv8)
    ensures dma & StartMask(0) == dma & 0x01
  {
  }

  /** BA and the DMA mask along the three acts of a cycle. */
  datatype Bus = Bus(ba: bool, dma: bv8, bad: bool)

  predicate Follows(b: Bus, act: Act, b': Bus) {
    b'.ba == BaAfter(b.ba, b.dma, b.bad, act) && (!ChangesDma(act) ==> b'.dma == b.dma)
  }

  predicate Worked(w: Work, b0: Bus, b1: Bus, b2: Bus, b3: Bus) {
    Follows(b0, w.first, b1) && Follows(b1, w.second, b2) && Follows(b2, w.third, b3)
  }

  lemma HoldersPal(before: nat, c: nat, b0: Bus, b1: Bus, b2: Bus, b3: Bus)
    requires FreeUnlessHeld(Pal, before, b0.ba, b0.dma) && (c > 0 ==> before == c - 1)
    requires Worked(WorkPal(c), b0, b1, b2, b3)
    ensures FreeUnlessHeld(Pal, c, b3.ba, b3.dma)
  {
  }

  lemma HoldersNtsc(before: nat, c: nat, b0: Bus, b1: Bus, b2: Bus, b3: Bus)
    requires FreeUnlessHeld(Ntsc, before, b0.ba, b0.dma) && (c > 0 ==> before == c - 1)
    requires Worked(WorkNtsc(c), b0, b1, b2, b3)
    ensures FreeUnlessHeld(Ntsc, c, b3.ba, b3.dma)
  {
  }

  lemma HoldersOldNtsc(before: nat, c: nat, b0: Bus, b1: Bus, b2: Bus, b3: Bus)
    requires FreeUnlessHeld(OldNtsc, before, b0.ba, b0.dma) && (c > 0 ==> before == c - 1)
    requires Worked(WorkOldNtsc(c), b0, b1, b2, b3)
    ensures FreeUnlessHeld(OldNtsc, c, b3.ba, b3.dma)
  {
  }

  function BusOf(v: Vic): Bus { Bus(v.ba, Dma(v), v.raster.isBadLine) }

  lemma PerformOnBus(chip: Chip, v: Vic, w: Work) returns (b1: Bus, b2: Bus)
    ensures Worked(w, BusOf(v), b1, b2, BusOf(Perform(chip, v, w)))
    ensures Perform(chip, v, w).lineCycle == v.lineCycle
  {
    var v1 := Do(chip, v, w.first);
    var v2 := Do(chip, v1, w.second);
    ActOnBus(chip, v, w.first);
    ActOnBus(chip, v1, w.second);
    ActOnBus(chip, v2, w.third);
    b1, b2 := BusOf(v1), BusOf(v2);
  }

  lemma HoldersAny(clock: LineClock, before: nat, c: nat, w: Work, b0: Bus, b1: Bus, b2: Bus, b3: Bus)
    requires FreeUnlessHeld(clock, before, b0.ba, b0.dma) && (c > 0 ==> before == c - 1)
    requires w == WorkOf(clock, c) && Worked(w, b0, b1, b2, b3)
    ensures FreeUnlessHeld(clock, c, b3.ba, b3.dma)
  {
    match clock
    case Pal => HoldersPal(before, c, b0, b1, b2, b3);
    case Ntsc => HoldersNtsc(before, c, b0, b1, b2, b3);
    case OldNtsc => HoldersOldNtsc(before, c, b0, b1, b2, b3);
  }

  lemma PerformKeepsBusInv(chip: Chip, before: nat, v: Vic, w: Work)
    requires v.lineCycle < chip.cycles
    requires FreeUnlessHeld(chip.clock, before, v.ba, Dma(v)) && (v.lineCycle > 0 ==> before == v.lineCycle - 1)
    requires w == WorkOf(chip.clock, v.lineCycle)
    ensures BusInv(chip, Perform(chip, v, w))
  {
    var b1, b2 := PerformOnBus(chip, v, w);
    HoldersAny(chip.clock, before, v.lineCycle, w, BusOf(v), b1, b2, BusOf(Perform(chip, v, w)));
  }

  /** Every cycle of the stepped machine keeps the bus invariant. */
  lemma TickKeepsBusInv(chip: Chip, v: Vic)
    requires Fits(chip) && BusInv(chip, v)
    ensures BusInv(chip, Tick(chip, v))
  {
    hide WorkOf, FreeUnlessHeld, DmaMask, Do;
    var c := (v.lineCycle + 1) % chip.cycles;
    PerformKeepsBusInv(chip, v.lineCycle, v.(lineCycle := c), WorkOf(chip.clock, c));
  }

  // ----- What a jump leaves out -----

  lemma DelayIsPositive(clock: LineClock, c: nat, dma: bv8)
    ensures DelayOf(clock, c, dma) >= 1
  {
  }

  /** An act that cannot change anything, given BA and the DMA mask. */
  predicate Idle(act: Act, ba: bool, dma: bv8) {
    match act
    case Nothing => true
    case StartDma(n) => n != 0 && dma & StartMask(n) == 0
    case EndDma(n) => ba || dma & EndMask(n) != 0
    case _ => false
  }

  predicate IdleWork(w: Work, ba: bool, dma: bv8) {
    Idle(w.first, ba, dma) && Idle(w.second, ba, dma) && Idle(w.third, ba, dma)
  }

  lemma IdleWorkDoesNothing(chip: Chip, v: Vic, w: Work)
    requires IdleWork(w, v.ba, Dma(v))
    ensures Perform(chip, v, w) == v
  {
    IdleActDoesNothing(chip, v, w.first);
    IdleActDoesNothing(chip, v, w.second);
    IdleActDoesNothing(chip, v, w.third);
  }

  lemma IdleActDoesNothing(chip: Chip, v: Vic, act: Act)
    requires Idle(act, v.ba, Dma(v))
    ensures Do(chip, v, act) == v
  {
  }

  lemma JumpPal(c: nat, j: nat, ba: bool, dma: bv8)
    requires c < 63 && FreeUnlessHeld(Pal, c, ba, dma)
    requires 1 <= j < DelayPal(c, dma)
    ensures c + j < 63 && IdleWork(WorkPal(c + j), ba, dma)
  {
  }

  lemma JumpNtsc(c: nat, j: nat, ba: bool, dma: bv8)
    requires c < 65 && FreeUnlessHeld(Ntsc, c, ba, dma)
    requires 1 <= j < DelayNtsc(c, dma)
    ensures c + j < 65 && IdleWork(WorkNtsc(c + j), ba, dma)
  {
  }

  lemma JumpOldNtsc(c: nat, j: nat, ba: bool, dma: bv8)
    requires c < 64 && FreeUnlessHeld(OldNtsc, c, ba, dma)
    requires 1 <= j < DelayOldNtsc(c, dma)
    ensures c + j < 64 && IdleWork(WorkOldNtsc(c + j), ba, dma)
  {
  }

  lemma JumpAny(clock: LineClock, c: nat, j: nat, ba: bool, dma: bv8, cycles: nat)
    requires cycles == (match clock case Pal => 63 case Ntsc => 65 case OldNtsc => 64)
    requires c < cycles && FreeUnlessHeld(clock, c, ba, dma)
    requires 1 <= j < DelayOf(clock, c, dma)
    ensures c + j < cycles && IdleWork(WorkOf(clock, c + j), ba, dma)
  {
    match clock
    case Pal => JumpPal(c, j, ba, dma);
    case Ntsc => JumpNtsc(c, j, ba, dma);
    case OldNtsc => JumpOldNtsc(c, j, ba, dma);
  }

  /** Every cycle inside the announced delay is a cycle of the same line in which nothing happens. */
  lemma NothingSkipped(chip: Chip, v: Vic, j: nat)
    requires Fits(chip) && BusInv(chip, v) && 1 <= j < Delay(chip, v)
    ensures var u := v.(lineCycle := v.lineCycle + j);
            u.lineCycle < chip.cycles && Clock(chip, u) == u
  {
    hide WorkPal, WorkNtsc, WorkOldNtsc, DelayPal, DelayNtsc, DelayOldNtsc, Do, IdleWork;
    JumpAny(chip.clock, v.lineCycle, j, v.ba, Dma(v), chip.cycles);
    var u := v.(lineCycle := v.lineCycle + j);
    IdleWorkDoesNothing(chip, u, WorkOf(chip.clock, u.lineCycle));
  }

  // ----- The relation between the two -----

  /** Between PHI1 of cycle now and PHI1 of the next: the jumping VIC stands at rasterClk, and the stepped
      one has since gone through cycles in which nothing happened. */
  predicate Agree(chip: Chip, st: Stepped, s: Jumping, now: int) {
    && s.rasterClk <= now < s.next
    && s.edge == st.edge
    && st.vic == s.vic.(lineCycle := s.vic.lineCycle + (now - s.rasterClk))
    && BusInv(chip, s.vic) && BusInv(chip, st.vic)
    && (s.next == s.rasterClk + 1 || s.next <= s.rasterClk + Delay(chip, s.vic))
  }

  /** Changes that leave the bus, the DMA mask and the place in the line alone leave the jump valid. */
  predicate SameBus(v: Vic, u: Vic) {
    v.lineCycle == u.lineCycle && v.ba == u.ba && Dma(v) == Dma(u)
  }

  lemma StoreSameBus(v: Vic, a: Access)
    requires Allowed(a)
    ensures SameBus(Store(v, a), v)
  {
  }

  lemma EffectSameBus(chip: Chip, v: Vic, a: Access)
    ensures SameBus(Effect(chip, v, a), v)
  {
    if a.Write? {
      LineCrunchKeepsDma(v.sprites, a.data, v.lineCycle);
    }
  }

  lemma AgreeTransfers(chip: Chip, st: Stepped, s: Jumping, now: int, st': Stepped, s': Jumping)
    requires Agree(chip, st, s, now)
    requires SameBus(s.vic, s'.vic) && s'.rasterClk == s.rasterClk && s'.next == s.next && s'.edge == st'.edge
    requires st'.vic == s'.vic.(lineCycle := s'.vic.lineCycle + (now - s'.rasterClk))
    ensures Agree(chip, st', s', now)
  {
  }

  /** In a jump the stepped VIC stands still. */
  lemma TickInJump(chip: Chip, st: Stepped, s: Jumping, now: int)
    requires Fits(chip) && Agree(chip, st, s, now) && now + 1 < s.next
    ensures Tick(chip, st.vic) == s.vic.(lineCycle := s.vic.lineCycle + (now + 1 - s.rasterClk))
  {
    hide Clock, DelayOf, DmaMask;
    NothingSkipped(chip, s.vic, now + 1 - s.rasterClk);
  }

  /** The raster event lands where the stepped VIC is. */
  lemma EventLands(chip: Chip, st: Stepped, s: Jumping, now: int)
    requires Fits(chip) && Agree(chip, st, s, now) && now + 1 == s.next
    ensures var s' := Event(chip, s, now + 1);
            s'.vic == Tick(chip, st.vic) && s'.rasterClk == now + 1 && s'.next == now + 1 + Delay(chip, s'.vic)
  {
  }

  /** The comparison asked for in the last PHI2 comes after the raster event. */
  lemma EdgeAgrees(chip: Chip, st: Stepped, s: Jumping, now: int)
    requires Agree(chip, st, s, now)
    ensures Agree(chip, Stepped(Edge(st.vic, st.edge), false), s.(vic := Edge(s.vic, s.edge), edge := false), now)
  {
    hide DelayOf, DmaMask, EdgeDetector;
    AgreeTransfers(chip, st, s, now, Stepped(Edge(st.vic, st.edge), false), s.(vic := Edge(s.vic, s.edge), edge := false));
  }

  lemma RasterEventAgrees(chip: Chip, st: Stepped, s: Jumping, now: int)
    requires Fits(chip) && Agree(chip, st, s, now)
    ensures Agree(chip, st.(vic := Tick(chip, st.vic)), if s.next == now + 1 then Event(chip, s, now + 1) else s, now + 1)
  {
    hide Clock, DelayOf, DmaMask;
    TickKeepsBusInv(chip, st.vic);
    var v := Tick(chip, st.vic);
    if s.next == now + 1 {
      EventLands(chip, st, s, now);
      DelayIsPositive(chip.clock, v.lineCycle, Dma(v));
    } else {
      TickInJump(chip, st, s, now);
    }
  }

  lemma Phi1Agrees(chip: Chip, st: Stepped, s: Jumping, now: int)
    requires Fits(chip) && Agree(chip, st, s, now)
    ensures Agree(chip, SteppedPhi1(chip, st), JumpingPhi1(chip, s, now + 1), now + 1)
  {
    hide Clock, DelayOf, DmaMask, EdgeDetector;
    RasterEventAgrees(chip, st, s, now);
    EdgeAgrees(chip, st.(vic := Tick(chip, st.vic)), if s.next == now + 1 then Event(chip, s, now + 1) else s, now + 1);
  }

  /** A catch-up in PHI2 brings the jumping VIC to exactly the state of the stepped one. */
  lemma SyncCatchesUp(chip: Chip, st: Stepped, s: Jumping, now: int)
    requires Fits(chip) && Agree(chip, st, s, now)
    ensures var s' := Event(chip, s, now);
            s'.vic == st.vic && s'.edge == st.edge && Agree(chip, st, s', now)
  {
    hide Clock, DelayOf, DmaMask;
    var j := now - s.rasterClk;
    if j > 0 {
      NothingSkipped(chip, s.vic, j);
      DelayIsPositive(chip.clock, st.vic.lineCycle, Dma(st.vic));
    }
  }

  lemma AccessAgrees(chip: Chip, st: Stepped, s: Jumping, now: int, a: Access)
    requires Fits(chip) && Agree(chip, st, s, now) && Allowed(a)
    ensures Agree(chip, SteppedAccess(chip, st, a), JumpingAccess(chip, s, now, a), now)
    ensures Syncs(a) ==> JumpingAccess(chip, s, now, a).vic == SteppedAccess(chip, st, a).vic
  {
    if Syncs(a) {
      SyncedAccessAgrees(chip, st, s, now, a);
    } else {
      hide DelayOf, DmaMask, Event;
      AgreeTransfers(chip, st, s, now, SteppedAccess(chip, st, a), JumpingAccess(chip, s, now, a));
    }
  }

  lemma SyncedAccessAgrees(chip: Chip, st: Stepped, s: Jumping, now: int, a: Access)
    requires Fits(chip) && Agree(chip, st, s, now) && Allowed(a) && Syncs(a)
    ensures Agree(chip, SteppedAccess(chip, st, a), JumpingAccess(chip, s, now, a), now)
    ensures JumpingAccess(chip, s, now, a).vic == SteppedAccess(chip, st, a).vic
  {
    var st1, s1 := st.(vic := Store(st.vic, a)), s.(vic := Store(s.vic, a));
    StoreSameBus(s.vic, a);
    AgreeTransfers(chip, st, s, now, st1, s1);
    hide Clock, DelayOf, DmaMask, Effect, Event, Store;
    SyncCatchesUp(chip, st1, s1, now);
    var s2 := Event(chip, s1, now);
    EffectSameBus(chip, s2.vic, a);
    AgreeTransfers(chip, st1, s2, now, SteppedAccess(chip, st, a), JumpingAccess(chip, s, now, a));
  }

  // ----- Runs -----

  /** What the rest of the machine sees of the VIC in a cycle: its state after PHI1, and what the CPU reads. */
  datatype View = View(ba: bool, raster: Raster, sprites: Bank, values: seq<bv8>)

  function Observe(v: Vic, values: seq<bv8>): View { View(v.ba, v.raster, v.sprites, values) }

  function Seen(v: Vic, a: Access): seq<bv8>
    requires Allowed(a)
  {
    if a.Read? then [ReadValue(v, a.addr)] else []
  }

  function JumpingPhi2(chip: Chip, s: Jumping, now: int, accesses: seq<Access>): (r: (Jumping, seq<bv8>))
    requires chip.cycles > 0 && now >= s.rasterClk && forall a | a in accesses :: Allowed(a)
    ensures r.0.rasterClk <= now
    decreases |accesses|
  {
    if accesses == [] then (s, [])
    else
      var s' := JumpingAccess(chip, s, now, accesses[0]);
      var (end, values) := JumpingPhi2(chip, s', now, accesses[1..]);
      (end, Seen(s'.vic, accesses[0]) + values)
  }

  function SteppedPhi2(chip: Chip, s: Stepped, accesses: seq<Access>): (Stepped, seq<bv8>)
    requires forall a | a in accesses :: Allowed(a)
    decreases |accesses|
  {
    if accesses == [] then (s, [])
    else
      var s' := SteppedAccess(chip, s, accesses[0]);
      var (end, values) := SteppedPhi2(chip, s', accesses[1..]);
      (end, Seen(s'.vic, accesses[0]) + values)
  }

  lemma {:induction false} Phi2Agrees(chip: Chip, st: Stepped, s: Jumping, now: int, accesses: seq<Access>)
    requires Fits(chip) && Agree(chip, st, s, now) && forall a | a in accesses :: Allowed(a)
    ensures Agree(chip, SteppedPhi2(chip, st, accesses).0, JumpingPhi2(chip, s, now, accesses).0, now)
    ensures SteppedPhi2(chip, st, accesses).1 == JumpingPhi2(chip, s, now, accesses).1
    decreases |accesses|
  {
    hide DelayOf, BusInv, Event, ReadValue;
    if accesses != [] {
      AccessAgrees(chip, st, s, now, accesses[0]);
      Phi2Agrees(chip, SteppedAccess(chip, st, accesses[0]), JumpingAccess(chip, s, now, accesses[0]), now, accesses[1..]);
    }
  }

  /** The next cycle and what it shows. */
  function SteppedCycle(chip: Chip, s: Stepped, accesses: seq<Access>): (Stepped, View)
    requires chip.cycles > 0 && forall a | a in accesses :: Allowed(a)
  {
    var s' := SteppedPhi1(chip, s);
    var (end, values) := SteppedPhi2(chip, s', accesses);
    (end, Observe(s'.vic, values))
  }

  function JumpingCycle(chip: Chip, s: Jumping, now: int, accesses: seq<Access>): (r: (Jumping, View))
    requires chip.cycles > 0 && s.rasterClk <= now && forall a | a in accesses :: Allowed(a)
    ensures r.0.rasterClk <= now + 1
  {
    var s' := JumpingPhi1(chip, s, now + 1);
    var (end, values) := JumpingPhi2(chip, s', now + 1, accesses);
    (end, Observe(s'.vic, values))
  }

  lemma CycleAgrees(chip: Chip, st: Stepped, s: Jumping, now: int, accesses: seq<Access>)
    requires Fits(chip) && Agree(chip, st, s, now) && forall a | a in accesses :: Allowed(a)
    ensures Agree(chip, SteppedCycle(chip, st, accesses).0, JumpingCycle(chip, s, now, accesses).0, now + 1)
    ensures SteppedCycle(chip, st, accesses).1 == JumpingCycle(chip, s, now, accesses).1
  {
    hide Clock, DelayOf, DmaMask, EdgeDetector, Event;
    Phi1Agrees(chip, st, s, now);
    Phi2Agrees(chip, SteppedPhi1(chip, st), JumpingPhi1(chip, s, now + 1), now + 1, accesses);
  }

  predicate AllAllowed(cycles: seq<seq<Access>>) {
    forall i, a | 0 <= i < |cycles| && a in cycles[i] :: Allowed(a)
  }

  /** The view after the clock phase of every cycle. */
  function SteppedRun(chip: Chip, s: Stepped, cycles: seq<seq<Access>>): seq<View>
    requires chip.cycles > 0 && AllAllowed(cycles)
    decreases |cycles|
  {
    if cycles == [] then []
    else
      var (s', view) := SteppedCycle(chip, s, cycles[0]);
      [view] + SteppedRun(chip, s', cycles[1..])
  }

  function JumpingRun(chip: Chip, s: Jumping, now: int, cycles: seq<seq<Access>>): (views: seq<View>)
    requires chip.cycles > 0 && AllAllowed(cycles) && s.rasterClk <= now
    decreases |cycles|
  {
    if cycles == [] then []
    else
      var (s', view) := JumpingCycle(chip, s, now, cycles[0]);
      [view] + JumpingRun(chip, s', now + 1, cycles[1..])
  }

  lemma {:induction false} RunsAgree(chip: Chip, st: Stepped, s: Jumping, now: int, cycles: seq<seq<Access>>)
    requires Fits(chip) && Agree(chip, st, s, now) && AllAllowed(cycles)
    ensures JumpingRun(chip, s, now, cycles) == SteppedRun(chip, st, cycles)
    decreases |cycles|
  {
    hide JumpingCycle, SteppedCycle, Event, BusInv, DelayOf;
    if cycles != [] {
      CycleAgrees(chip, st, s, now, cycles[0]);
      var st', s' := SteppedCycle(chip, st, cycles[0]).0, JumpingCycle(chip, s, now, cycles[0]).0;
      RunsAgree(chip, st', s', now + 1, cycles[1..]);
    }
  }

  /** For every model and every sequence of accesses other than writes to $D011, the VIC that jumps shows the
      same BA, raster and sprite state in every cycle as the one stepped every cycle. */
  lemma JumpingIsInvisible(chip: Chip, st: Stepped, s: Jumping, now: int, cycles: seq<seq<Access>>)
    requires IsModel(chip) && Agree(chip, st, s, now) && AllAllowed(cycles)
    ensures JumpingRun(chip, s, now, cycles) == SteppedRun(chip, st, cycles)
  {
    ModelsFit(chip);
    RunsAgree(chip, st, s, now, cycles);
  }

  function ResetVic(chip: Chip): Vic
    requires IsModel(chip)
  {
    Vic(0, true, seq(SPRITES, _ => Sprite(false, true, 0, 0)),
        Raster(chip.rasters - 1, 0, false, false, false, false, 0, 0, false, Pen(false, 0, 0)), seq(0x40, _ => 0))
  }

  /** After a reset the first event finds no cycle to do and only asks to be called in the next. */
  lemma ResetAgrees(chip: Chip)
    requires IsModel(chip)
    ensures Agree(chip, Stepped(ResetVic(chip), false), Jumping(ResetVic(chip), false, 0, 1), 0)
  {
    var v := ResetVic(chip);
    assert v.ba;
  }
}
