/**
 The raster of the VIC-II told by the line it stands on (src/c64/VIC_II/mos656x.cpp, src/c64/VIC_II/mos656x.h): which
 lines are bad, when the raster interrupt is raised, and what the registers read as.
 */
module VicRaster {
  import opened SpriteLogic
  import opened VicCore
  import opened VicSkipping
  import SpriteLines

  // ----- Bad lines -----

  /** The display-enable bit of $D011. */
  predicate Enabled(regs: Regs) { regs[0x11] & 0x10 != 0 }

  /** Bad lines are the lines from $30 to $f7 whose low three bits are the vertical scroll, if the display is
      enabled. */
  predicate BadLines(v: Vic) {
    && (v.raster.badLinesEnabled <==> Enabled(v.regs) && 0x30 <= v.raster.y <= 0xf7)
    && (v.raster.isBadLine <==> Enabled(v.regs) && 0x30 <= v.raster.y <= 0xf7 && v.raster.y % 8 == v.raster.yscroll)
  }

  lemma EdgeKeepsLines(r: Raster, regs: Regs)
    ensures var t := EdgeDetector(r, regs);
            t.badLinesEnabled == r.badLinesEnabled && t.isBadLine == r.isBadLine && t.yscroll == r.yscroll && t.y == r.y
            && t.vblanking == r.vblanking
  {
    hide IrqState, RasterLineIrq;
  }

  lemma NextLineLines(r: Raster, regs: Regs)
    ensures var t := NextLine(r, regs);
            && t.y == r.y + 1 && t.isBadLine == r.isBadLine && t.yscroll == r.yscroll && t.vblanking == r.vblanking
            && t.badLinesEnabled == (r.badLinesEnabled || (t.y == 0x30 && Enabled(regs)))
  {
    EdgeKeepsLines(r.(y := r.y + 1), regs);
    hide EdgeDetector;
  }

  lemma CheckVblankBadLines(v: Vic, rasters: nat)
    requires BadLines(v) && v.raster.y < rasters && rasters > 0xf8 && (v.raster.vblanking ==> v.raster.y == rasters - 1)
    ensures BadLines(v.(raster := CheckVblank(v.raster, v.regs, rasters)))
  {
    var r1 := if v.raster.y == rasters - 1 then v.raster.(vblanking := true) else v.raster;
    NextLineLines(BadLineWindow(r1, v.regs), v.regs);
    hide NextLine;
  }

  lemma VblankBadLines(v: Vic, cycles: nat)
    requires BadLines(v) && (v.raster.vblanking ==> v.raster.y > 0xf7)
    ensures BadLines(v.(raster := Vblank(v.raster, v.regs, cycles)))
  {
    EdgeKeepsLines(v.raster.(vblanking := false, y := 0), v.regs);
    hide EdgeDetector, IrqState;
  }

  /** Whatever writes to $D011 have done before: from the line behind the last bad line on, this holds. */
  lemma BadLinesSettle(v: Vic, rasters: nat)
    requires v.raster.y == 0xf7 && rasters > 0xf8 && !v.raster.vblanking
    ensures BadLines(v.(raster := CheckVblank(v.raster, v.regs, rasters)))
  {
    NextLineLines(BadLineWindow(v.raster, v.regs), v.regs);
    hide NextLine;
  }

  // ----- Over every run -----

  /** In the last line of a frame the raster waits for the second cycle of the line to start over. */
  predicate InFrame(chip: Chip, v: Vic) {
    v.raster.y < chip.rasters && (v.raster.vblanking ==> v.raster.y == chip.rasters - 1)
  }

  lemma ActKeepsLines(chip: Chip, v: Vic, act: Act)
    requires BadLines(v) && InFrame(chip, v) && chip.rasters > 0xf8
    ensures BadLines(Do(chip, v, act)) && InFrame(chip, Do(chip, v, act)) && Do(chip, v, act).regs == v.regs
  {
    hide CheckVblank, Vblank, DmaMask, StartMask, EndMask, UpdateMc, UpdateMcBase, CheckDma, CheckExp, CheckDisplay;
    if act.DoCheckVblank? {
      CheckVblankBadLines(v, chip.rasters);
      SpriteLines.CheckVblankPlace(v.raster, v.regs, chip.rasters);
    } else if act.DoVblank? {
      VblankBadLines(v, chip.cycles);
      SpriteLines.VblankPlace(v.raster, v.regs, chip.cycles);
    }
  }

  lemma TickKeepsLines(chip: Chip, v: Vic)
    requires BadLines(v) && InFrame(chip, v) && chip.rasters > 0xf8 && chip.cycles > 0
    ensures BadLines(Tick(chip, v)) && InFrame(chip, Tick(chip, v)) && Tick(chip, v).regs == v.regs
  {
    hide BadLines, InFrame, Do, WorkOf;
    var c := (v.lineCycle + 1) % chip.cycles;
    var u, w := v.(lineCycle := c), WorkOf(chip.clock, c);
    SameLines(chip, v, u);
    var u1 := Do(chip, u, w.first);
    var u2 := Do(chip, u1, w.second);
    ActKeepsLines(chip, u, w.first);
    ActKeepsLines(chip, u1, w.second);
    ActKeepsLines(chip, u2, w.third);
  }

  lemma SameLines(chip: Chip, v: Vic, u: Vic)
    requires BadLines(v) && InFrame(chip, v) && u.regs[0x11] == v.regs[0x11]
    requires u.raster == v.raster.(irqCondition := u.raster.irqCondition, irqFlags := u.raster.irqFlags, irqMask := u.raster.irqMask,
                                   penAsserted := u.raster.penAsserted, pen := u.raster.pen)
    ensures BadLines(u) && InFrame(chip, u)
  {
  }

  lemma AccessKeepsLines(chip: Chip, st: Stepped, a: Access)
    requires BadLines(st.vic) && InFrame(chip, st.vic) && Allowed(a)
    ensures var v := SteppedAccess(chip, st, a).vic; BadLines(v) && InFrame(chip, v)
  {
    var v := SteppedAccess(chip, st, a).vic;
    AccessMoves(chip, st, a);
    hide SteppedAccess, BadLines, InFrame;
    SameLines(chip, st.vic, v);
  }

  lemma AccessMoves(chip: Chip, st: Stepped, a: Access)
    requires Allowed(a)
    ensures var u, v := SteppedAccess(chip, st, a).vic, st.vic;
            && u.regs[0x11] == v.regs[0x11]
            && u.raster == v.raster.(irqFlags := u.raster.irqFlags, irqMask := u.raster.irqMask,
                                     penAsserted := u.raster.penAsserted, pen := u.raster.pen)
  {
    StoreMoves(st.vic, a);
    EffectMoves(chip, Store(st.vic, a), a);
    hide Store, Effect;
  }

  lemma StoreMoves(v: Vic, a: Access)
    requires Allowed(a)
    ensures var u := Store(v, a);
            u.regs[0x11] == v.regs[0x11] && u.raster == v.raster.(penAsserted := u.raster.penAsserted)
  {
  }

  lemma EffectMoves(chip: Chip, v: Vic, a: Access)
    ensures var u := Effect(chip, v, a);
            && u.regs == v.regs
            && u.raster == v.raster.(irqFlags := u.raster.irqFlags, irqMask := u.raster.irqMask, pen := u.raster.pen)
  {
    hide IrqState, Acknowledged, PenX, LineCrunch;
  }

  lemma {:induction false} Phi2KeepsLines(chip: Chip, st: Stepped, accesses: seq<Access>)
    requires BadLines(st.vic) && InFrame(chip, st.vic) && forall a | a in accesses :: Allowed(a)
    ensures var v := SteppedPhi2(chip, st, accesses).0.vic; BadLines(v) && InFrame(chip, v)
    decreases |accesses|
  {
    hide BadLines, InFrame, SteppedAccess;
    if accesses != [] {
      AccessKeepsLines(chip, st, accesses[0]);
      Phi2KeepsLines(chip, SteppedAccess(chip, st, accesses[0]), accesses[1..]);
    }
  }

  lemma EdgeKeepsBadLines(chip: Chip, v: Vic, edge: bool)
    requires BadLines(v) && InFrame(chip, v)
    ensures BadLines(Edge(v, edge)) && InFrame(chip, Edge(v, edge))
  {
    EdgeKeepsLines(v.raster, v.regs);
    hide EdgeDetector;
  }

  /** In every run without writes to $D011, on every chip, exactly these lines are bad. */
  lemma {:induction false} RunKeepsBadLines(chip: Chip, st: Stepped, cycles: seq<seq<Access>>)
    requires IsModel(chip) && BadLines(st.vic) && InFrame(chip, st.vic) && AllAllowed(cycles)
    ensures var v := SpriteLines.AfterCycles(chip, st, cycles).vic; BadLines(v) && InFrame(chip, v)
    decreases |cycles|
  {
    hide BadLines, InFrame, Tick, Edge;
    if cycles != [] {
      TickKeepsLines(chip, st.vic);
      EdgeKeepsBadLines(chip, Tick(chip, st.vic), st.edge);
      Phi2KeepsLines(chip, SteppedPhi1(chip, st), cycles[0]);
      RunKeepsBadLines(chip, SteppedCycle(chip, st, cycles[0]).0, cycles[1..]);
    }
  }

  // ----- The raster interrupt -----

  /** The comparison is with $D012 and the top bit of $D011; its rising edge raises the flag, and nothing else does. */
  lemma RasterFlag(r: Raster, regs: Regs)
    ensures var t, hit := EdgeDetector(r, regs), r.y == regs[0x12] as int + if regs[0x11] >= 0x80 then 0x100 else 0;
            && t.irqCondition == hit
            && (t.irqFlags & 0x01 != 0 <==> r.irqFlags & 0x01 != 0 || (hit && !r.irqCondition))
            && t.irqFlags & 0x0e == r.irqFlags & 0x0e && t.irqMask == r.irqMask
  {
    FlagBits(r.irqFlags, r.irqMask);
    hide EdgeDetector, IrqState;
    EdgeCases(r, regs);
  }

  lemma EdgeCases(r: Raster, regs: Regs)
    ensures var t, hit := EdgeDetector(r, regs), r.y == regs[0x12] as int + if regs[0x11] >= 0x80 then 0x100 else 0;
            && t.irqCondition == hit && t.irqMask == r.irqMask
            && t.irqFlags == if hit && !r.irqCondition then IrqState(r.irqFlags | IRQ_RASTER, r.irqMask) else r.irqFlags
  {
    ComparedLine(regs);
    hide IrqState, RasterLineIrq;
  }

  lemma ComparedLine(regs: Regs)
    ensures RasterLineIrq(regs) == regs[0x12] as int + if regs[0x11] >= 0x80 then 0x100 else 0
  {
    TopBit(regs[0x11]);
  }

  lemma TopBit(x: bv8)
    ensures x & 0x80 != 0 <==> x >= 0x80
  {
  }

  lemma FlagBits(flags: bv8, mask: bv8)
    ensures IrqState(flags | IRQ_RASTER, mask) & 0x01 != 0 && IrqState(flags | IRQ_RASTER, mask) & 0x0e == flags & 0x0e
  {
  }

  // ----- Reading registers -----

  /** What $D011 and $D012 read as is the raster line. */
  lemma RasterReads(v: Vic)
    requires v.raster.y < 0x200
    ensures ReadValue(v, 0x12) == (v.raster.y % 0x100) as bv8
    ensures ReadValue(v, 0x11) & 0x80 != 0 <==> v.raster.y >= 0x100
    ensures ReadValue(v, 0x11) & 0x7f == v.regs[0x11] & 0x7f
  {
    ReadsLine(v);
    TopHalf(v.raster.y);
    HighBit(v.regs[0x11]);
    hide ReadValue;
  }

  /** In the line of the comparison both read as they were set. */
  lemma ComparisonReads(v: Vic)
    requires v.raster.y < 0x200 && RasterLineIrq(v.regs) == v.raster.y
    ensures ReadValue(v, 0x12) == v.regs[0x12] && ReadValue(v, 0x11) == v.regs[0x11]
  {
    var y, low, high := v.raster.y, v.regs[0x12], v.regs[0x11];
    ReadsLine(v);
    ComparedLine(v.regs);
    hide ReadValue, RasterLineIrq;
    Halves(y, low as int, high >= 0x80);
    Back(low);
    HighBit(high);
  }

  lemma Halves(y: nat, low: int, high: bool)
    requires 0 <= low < 0x100 && y == low + if high then 0x100 else 0
    ensures y % 0x100 == low && (y / 0x100 % 2 == 1 <==> high)
  {
  }

  lemma HighBit(x: bv8)
    ensures x & 0x80 != 0 <==> x >= 0x80
    ensures (x & 0x7f) | (if x >= 0x80 then 0x80 else 0) == x
    ensures ((x & 0x7f) | 0x80) & 0x80 != 0 && ((x & 0x7f) | 0) & 0x80 == 0
    ensures ((x & 0x7f) | 0x80) & 0x7f == x & 0x7f && ((x & 0x7f) | 0) & 0x7f == x & 0x7f
  {
  }

  lemma Back(b: bv8)
    ensures (b as int) as bv8 == b
  {
  }

  lemma ReadsLine(v: Vic)
    ensures ReadValue(v, 0x12) == (v.raster.y % 0x100) as bv8
    ensures ReadValue(v, 0x11) == (v.regs[0x11] & 0x7f) | (if v.raster.y / 0x100 % 2 == 1 then 0x80 else 0)
  {
  }

  lemma TopHalf(y: nat)
    requires y < 0x200
    ensures y / 0x100 % 2 == 1 <==> y >= 0x100
    ensures y == y % 0x100 + if y >= 0x100 then 0x100 else 0
  {
  }

  /** Writing back what $D019 reads as acknowledges every flag, and only what is written is acknowledged. */
  lemma FlagsReadBack(v: Vic, data: bv8)
    ensures ReadValue(v, 0x19) & 0x8f == v.raster.irqFlags & 0x8f
    ensures Acknowledged(v.raster.irqFlags, ReadValue(v, 0x19)) & 0x0f == 0
    ensures Acknowledged(v.raster.irqFlags, data) & 0x0f == v.raster.irqFlags & !data & 0x0f
  {
    AcknowledgeBits(v.raster.irqFlags, data);
  }

  lemma AcknowledgeBits(flags: bv8, data: bv8)
    ensures (flags | 0x70) & 0x8f == flags & 0x8f
    ensures Acknowledged(flags, flags | 0x70) & 0x0f == 0
    ensures Acknowledged(flags, data) & 0x0f == flags & !data & 0x0f
  {
  }

  // ----- The light pen -----

  /** The pen counts in steps of four from line cycle 13 on, eight pixels a cycle; a line of 65 cycles has one cycle
      that does not count. */
  lemma PenSteps(c: nat, cycles: nat)
    requires c + 1 < cycles && cycles <= 65
    ensures PenX(13, cycles) == 0
    ensures c + 1 != 13 ==> PenX(c + 1, cycles) == (PenX(c, cycles) + if cycles == 65 && c == 61 then 0 else 4) % 0x100
  {
  }
}
