/**
 The BA line (src/c64/VIC_II/mos656x.cpp, src/c64/VIC_II/mos656x.h): in every cycle of every run it is low exactly
 while a bad line or a sprite needs the bus, told by the cycle of the line alone.
 */
module VicBus {
  import opened SpriteLogic
  import opened VicCore
  import opened VicSkipping
  import SpriteUnit
  import SpriteLines

  // ----- Who needs the bus -----

  /** The fetches of sprite 0 begin here; those of every other sprite two cycles after those of the one before. */
  function FirstFetch(clock: LineClock): nat { if clock == Pal then 54 else 55 }

  /** A sprite in DMA needs the bus for five cycles, which may lie across the end of the line. */
  predicate Fetches(chip: Chip, n: nat, c: nat) {
    var from := FirstFetch(chip.clock) + 2 * n;
    from <= c < from + 5 || from <= c + chip.cycles < from + 5
  }

  predicate SpriteNeedsBus(chip: Chip, v: Vic) {
    exists n | 0 <= n < SPRITES :: v.sprites[n].dma && Fetches(chip, n, v.lineCycle)
  }

  /** A bad line needs it for 43 cycles. */
  predicate BadLineNeedsBus(v: Vic) { v.raster.isBadLine && 11 <= v.lineCycle <= 53 }

  predicate Exact(chip: Chip, v: Vic) {
    v.lineCycle < chip.cycles && (v.ba <==> !SpriteNeedsBus(chip, v) && !BadLineNeedsBus(v))
  }

  // ----- The same as a mask for every cycle of the line -----

  function FetchMask(chip: Chip, c: nat): bv8 {
    Byte(Fetches(chip, 0, c), Fetches(chip, 1, c), Fetches(chip, 2, c), Fetches(chip, 3, c),
         Fetches(chip, 4, c), Fetches(chip, 5, c), Fetches(chip, 6, c), Fetches(chip, 7, c))
  }

  predicate Level(chip: Chip, c: nat, ba: bool, dma: bv8, bad: bool) {
    ba == (dma & FetchMask(chip, c) == 0 && !(bad && 11 <= c <= 53))
  }

  lemma MasksMeet(a0: bool, a1: bool, a2: bool, a3: bool, a4: bool, a5: bool, a6: bool, a7: bool,
                  b0: bool, b1: bool, b2: bool, b3: bool, b4: bool, b5: bool, b6: bool, b7: bool)
    ensures Byte(a0, a1, a2, a3, a4, a5, a6, a7) & Byte(b0, b1, b2, b3, b4, b5, b6, b7) != 0 <==>
            (a0 && b0) || (a1 && b1) || (a2 && b2) || (a3 && b3) || (a4 && b4) || (a5 && b5) || (a6 && b6) || (a7 && b7)
  {
  }

  lemma LevelIsExact(chip: Chip, v: Vic)
    requires v.lineCycle < chip.cycles
    ensures Exact(chip, v) <==> Level(chip, v.lineCycle, v.ba, Dma(v), v.raster.isBadLine)
  {
    hide SpriteNeedsBus, FetchMask, DmaMask;
    FetchMeetsDma(chip, v);
  }

  lemma FetchMeetsDma(chip: Chip, v: Vic)
    ensures Dma(v) & FetchMask(chip, v.lineCycle) != 0 <==> SpriteNeedsBus(chip, v)
  {
    hide Fetches, MaskOf, Byte, SpriteNeedsBus;
    var b, c := v.sprites, v.lineCycle;
    MasksMeet(b[0].dma, b[1].dma, b[2].dma, b[3].dma, b[4].dma, b[5].dma, b[6].dma, b[7].dma,
              Fetches(chip, 0, c), Fetches(chip, 1, c), Fetches(chip, 2, c), Fetches(chip, 3, c),
              Fetches(chip, 4, c), Fetches(chip, 5, c), Fetches(chip, 6, c), Fetches(chip, 7, c));
    NeedsOneOf(chip, v);
  }

  lemma NeedsOneOf(chip: Chip, v: Vic)
    ensures var b, c := v.sprites, v.lineCycle;
            SpriteNeedsBus(chip, v) <==>
              (b[0].dma && Fetches(chip, 0, c)) || (b[1].dma && Fetches(chip, 1, c)) || (b[2].dma && Fetches(chip, 2, c))
              || (b[3].dma && Fetches(chip, 3, c)) || (b[4].dma && Fetches(chip, 4, c)) || (b[5].dma && Fetches(chip, 5, c))
              || (b[6].dma && Fetches(chip, 6, c)) || (b[7].dma && Fetches(chip, 7, c))
  {
    hide Fetches;
    if SpriteNeedsBus(chip, v) {
      var n :| 0 <= n < SPRITES && v.sprites[n].dma && Fetches(chip, n, v.lineCycle);
      assert n == 0 || n == 1 || n == 2 || n == 3 || n == 4 || n == 5 || n == 6 || n == 7;
    }
  }

  function MaskPal(c: nat): bv8 {
    match c
    case 54 => 0x01 case 55 => 0x01 case 56 => 0x03 case 57 => 0x03 case 58 => 0x07 case 59 => 0x06 case 60 => 0x0e
    case 61 => 0x0c case 62 => 0x1c case 0 => 0x18 case 1 => 0x38 case 2 => 0x30 case 3 => 0x70 case 4 => 0x60
    case 5 => 0xe0 case 6 => 0xc0 case 7 => 0xc0 case 8 => 0x80 case 9 => 0x80 case _ => 0
  }

  function MaskNtsc(c: nat): bv8 {
    match c
    case 55 => 0x01 case 56 => 0x01 case 57 => 0x03 case 58 => 0x03 case 59 => 0x07 case 60 => 0x06 case 61 => 0x0e
    case 62 => 0x0c case 63 => 0x1c case 64 => 0x18 case 0 => 0x38 case 1 => 0x30 case 2 => 0x70 case 3 => 0x60
    case 4 => 0xe0 case 5 => 0xc0 case 6 => 0xc0 case 7 => 0x80 case 8 => 0x80 case _ => 0
  }

  function MaskOldNtsc(c: nat): bv8 {
    match c
    case 55 => 0x01 case 56 => 0x01 case 57 => 0x03 case 58 => 0x03 case 59 => 0x07 case 60 => 0x06 case 61 => 0x0e
    case 62 => 0x0c case 63 => 0x1c case 0 => 0x18 case 1 => 0x38 case 2 => 0x30 case 3 => 0x70 case 4 => 0x60
    case 5 => 0xe0 case 6 => 0xc0 case 7 => 0xc0 case 8 => 0x80 case 9 => 0x80 case _ => 0
  }

  lemma MaskIsPal(chip: Chip, c: nat)
    requires chip.clock == Pal && chip.cycles == 63 && c < 63
    ensures FetchMask(chip, c) == MaskPal(c)
  {
  }

  lemma MaskIsNtsc(chip: Chip, c: nat)
    requires chip.clock == Ntsc && chip.cycles == 65 && c < 65
    ensures FetchMask(chip, c) == MaskNtsc(c)
  {
  }

  lemma MaskIsOldNtsc(chip: Chip, c: nat)
    requires chip.clock == OldNtsc && chip.cycles == 64 && c < 64
    ensures FetchMask(chip, c) == MaskOldNtsc(c)
  {
  }

  // ----- One cycle -----

  /** What an act does to BA, to the DMA mask and to the bad-line flag. */
  predicate Turns(b: Bus, act: Act, b': Bus) {
    Follows(b, act, b') && (act != DoCheckVblank ==> b'.bad == b.bad)
  }

  predicate Turned(w: Work, b0: Bus, b1: Bus, b2: Bus, b3: Bus) {
    Turns(b0, w.first, b1) && Turns(b1, w.second, b2) && Turns(b2, w.third, b3)
  }

  predicate LevelBy(mask: bv8, c: nat, b: Bus) { b.ba == (b.dma & mask == 0 && !(b.bad && 11 <= c <= 53)) }

  lemma EarlyPal(before: nat, c: nat, b0: Bus, b1: Bus, b2: Bus, b3: Bus)
    requires c < 63 && before == (if c == 0 then 62 else c - 1)
    requires LevelBy(MaskPal(before), before, b0) && Turned(WorkPal(c), b0, b1, b2, b3)
    requires c <= 4
    ensures LevelBy(MaskPal(c), c, b3)
  {
  }

  lemma MiddlePal(before: nat, c: nat, b0: Bus, b1: Bus, b2: Bus, b3: Bus)
    requires c < 63 && before == (if c == 0 then 62 else c - 1)
    requires LevelBy(MaskPal(before), before, b0) && Turned(WorkPal(c), b0, b1, b2, b3)
    requires 4 < c <= 10
    ensures LevelBy(MaskPal(c), c, b3)
  {
  }

  lemma LatePal(before: nat, c: nat, b0: Bus, b1: Bus, b2: Bus, b3: Bus)
    requires c < 63 && before == (if c == 0 then 62 else c - 1)
    requires LevelBy(MaskPal(before), before, b0) && Turned(WorkPal(c), b0, b1, b2, b3)
    requires c > 10
    ensures LevelBy(MaskPal(c), c, b3)
  {
  }

  lemma StepPal(before: nat, c: nat, b0: Bus, b1: Bus, b2: Bus, b3: Bus)
    requires c < 63 && before == (if c == 0 then 62 else c - 1)
    requires LevelBy(MaskPal(before), before, b0) && Turned(WorkPal(c), b0, b1, b2, b3)
    ensures LevelBy(MaskPal(c), c, b3)
  {
    hide LevelBy, MaskPal, WorkPal, Turned;
    if c <= 4 {
      EarlyPal(before, c, b0, b1, b2, b3);
    } else if c <= 10 {
      MiddlePal(before, c, b0, b1, b2, b3);
    } else {
      LatePal(before, c, b0, b1, b2, b3);
    }
  }

  lemma EarlyNtsc(before: nat, c: nat, b0: Bus, b1: Bus, b2: Bus, b3: Bus)
    requires c < 65 && before == (if c == 0 then 64 else c - 1)
    requires LevelBy(MaskNtsc(before), before, b0) && Turned(WorkNtsc(c), b0, b1, b2, b3)
    requires c <= 4
    ensures LevelBy(MaskNtsc(c), c, b3)
  {
  }

  lemma MiddleNtsc(before: nat, c: nat, b0: Bus, b1: Bus, b2: Bus, b3: Bus)
    requires c < 65 && before == (if c == 0 then 64 else c - 1)
    requires LevelBy(MaskNtsc(before), before, b0) && Turned(WorkNtsc(c), b0, b1, b2, b3)
    requires 4 < c <= 10
    ensures LevelBy(MaskNtsc(c), c, b3)
  {
  }

  lemma LateNtsc(before: nat, c: nat, b0: Bus, b1: Bus, b2: Bus, b3: Bus)
    requires c < 65 && before == (if c == 0 then 64 else c - 1)
    requires LevelBy(MaskNtsc(before), before, b0) && Turned(WorkNtsc(c), b0, b1, b2, b3)
    requires c > 10
    ensures LevelBy(MaskNtsc(c), c, b3)
  {
  }

  lemma StepNtsc(before: nat, c: nat, b0: Bus, b1: Bus, b2: Bus, b3: Bus)
    requires c < 65 && before == (if c == 0 then 64 else c - 1)
    requires LevelBy(MaskNtsc(before), before, b0) && Turned(WorkNtsc(c), b0, b1, b2, b3)
    ensures LevelBy(MaskNtsc(c), c, b3)
  {
    hide LevelBy, MaskNtsc, WorkNtsc, Turned;
    if c <= 4 {
      EarlyNtsc(before, c, b0, b1, b2, b3);
    } else if c <= 10 {
      MiddleNtsc(before, c, b0, b1, b2, b3);
    } else {
      LateNtsc(before, c, b0, b1, b2, b3);
    }
  }

  lemma EarlyOldNtsc(before: nat, c: nat, b0: Bus, b1: Bus, b2: Bus, b3: Bus)
    requires c < 64 && before == (if c == 0 then 63 else c - 1)
    requires LevelBy(MaskOldNtsc(before), before, b0) && Turned(WorkOldNtsc(c), b0, b1, b2, b3)
    requires c <= 4
    ensures LevelBy(MaskOldNtsc(c), c, b3)
  {
  }

  lemma MiddleOldNtsc(before: nat, c: nat, b0: Bus, b1: Bus, b2: Bus, b3: Bus)
    requires c < 64 && before == (if c == 0 then 63 else c - 1)
    requires LevelBy(MaskOldNtsc(before), before, b0) && Turned(WorkOldNtsc(c), b0, b1, b2, b3)
    requires 4 < c <= 10
    ensures LevelBy(MaskOldNtsc(c), c, b3)
  {
  }

  lemma LateOldNtsc(before: nat, c: nat, b0: Bus, b1: Bus, b2: Bus, b3: Bus)
    requires c < 64 && before == (if c == 0 then 63 else c - 1)
    requires LevelBy(MaskOldNtsc(before), before, b0) && Turned(WorkOldNtsc(c), b0, b1, b2, b3)
    requires c > 10
    ensures LevelBy(MaskOldNtsc(c), c, b3)
  {
  }

  lemma StepOldNtsc(before: nat, c: nat, b0: Bus, b1: Bus, b2: Bus, b3: Bus)
    requires c < 64 && before == (if c == 0 then 63 else c - 1)
    requires LevelBy(MaskOldNtsc(before), before, b0) && Turned(WorkOldNtsc(c), b0, b1, b2, b3)
    ensures LevelBy(MaskOldNtsc(c), c, b3)
  {
    hide LevelBy, MaskOldNtsc, WorkOldNtsc, Turned;
    if c <= 4 {
      EarlyOldNtsc(before, c, b0, b1, b2, b3);
    } else if c <= 10 {
      MiddleOldNtsc(before, c, b0, b1, b2, b3);
    } else {
      LateOldNtsc(before, c, b0, b1, b2, b3);
    }
  }

  lemma StepLevel(chip: Chip, before: nat, c: nat, w: Work, b0: Bus, b1: Bus, b2: Bus, b3: Bus)
    requires Fits(chip) && c < chip.cycles && before == (if c == 0 then chip.cycles - 1 else c - 1)
    requires w == WorkOf(chip.clock, c) && Turned(w, b0, b1, b2, b3)
    requires LevelBy(FetchMask(chip, before), before, b0)
    ensures LevelBy(FetchMask(chip, c), c, b3)
  {
    hide LevelBy, FetchMask, MaskPal, MaskNtsc, MaskOldNtsc, WorkPal, WorkNtsc, WorkOldNtsc, Turned;
    match chip.clock
    case Pal =>
      MaskIsPal(chip, before);
      MaskIsPal(chip, c);
      StepPal(before, c, b0, b1, b2, b3);
    case Ntsc =>
      MaskIsNtsc(chip, before);
      MaskIsNtsc(chip, c);
      StepNtsc(before, c, b0, b1, b2, b3);
    case OldNtsc =>
      MaskIsOldNtsc(chip, before);
      MaskIsOldNtsc(chip, c);
      StepOldNtsc(before, c, b0, b1, b2, b3);
  }

  lemma ActKeepsBad(chip: Chip, v: Vic, act: Act)
    requires act != DoCheckVblank
    ensures Do(chip, v, act).raster.isBadLine == v.raster.isBadLine
  {
    hide IrqState, RasterLineIrq, StartMask, EndMask, DmaMask;
  }

  lemma ActTurns(chip: Chip, v: Vic, act: Act)
    ensures Turns(BusOf(v), act, BusOf(Do(chip, v, act)))
    ensures Do(chip, v, act).lineCycle == v.lineCycle
  {
    ActOnBus(chip, v, act);
    if act != DoCheckVblank {
      ActKeepsBad(chip, v, act);
    }
    hide Do, BaAfter, DmaMask;
  }

  lemma WorkTurns(chip: Chip, v: Vic, w: Work) returns (b1: Bus, b2: Bus)
    ensures Turned(w, BusOf(v), b1, b2, BusOf(Perform(chip, v, w)))
    ensures Perform(chip, v, w).lineCycle == v.lineCycle
  {
    hide Do, Turns, BusOf;
    var v1 := Do(chip, v, w.first);
    var v2 := Do(chip, v1, w.second);
    ActTurns(chip, v, w.first);
    ActTurns(chip, v1, w.second);
    ActTurns(chip, v2, w.third);
    b1, b2 := BusOf(v1), BusOf(v2);
  }

  lemma WorkIsExact(chip: Chip, v: Vic, c: nat)
    requires Fits(chip) && Exact(chip, v) && c == if v.lineCycle == chip.cycles - 1 then 0 else v.lineCycle + 1
    ensures Exact(chip, Clock(chip, v.(lineCycle := c)))
  {
    hide Exact, Perform, WorkOf, FetchMask, DmaMask, Turned;
    var u := v.(lineCycle := c);
    var w := WorkOf(chip.clock, c);
    var b1, b2 := WorkTurns(chip, u, w);
    assert v.lineCycle < chip.cycles by { InTheLine(chip, v); }
    LevelIsExact(chip, v);
    StepLevel(chip, v.lineCycle, c, w, BusOf(u), b1, b2, BusOf(Perform(chip, u, w)));
    LevelIsExact(chip, Perform(chip, u, w));
  }

  lemma InTheLine(chip: Chip, v: Vic)
    requires Exact(chip, v)
    ensures v.lineCycle < chip.cycles
  {
  }

  /** Every cycle keeps BA exact. */
  lemma TickIsExact(chip: Chip, v: Vic)
    requires Fits(chip) && Exact(chip, v)
    ensures Exact(chip, Tick(chip, v))
  {
    InTheLine(chip, v);
    SpriteLines.InLine(chip, v.lineCycle);
    hide Exact, Clock;
    WorkIsExact(chip, v, SpriteLines.CycleAfter(chip, v.lineCycle));
  }

  // ----- Whole runs -----

  lemma AccessIsExact(chip: Chip, st: Stepped, a: Access)
    requires Exact(chip, st.vic) && Allowed(a)
    ensures Exact(chip, SteppedAccess(chip, st, a).vic)
  {
    StoreKeepsBus(st.vic, a);
    EffectKeepsBus(chip, Store(st.vic, a), a);
    hide Store, Effect, Fetches;
  }

  lemma StoreKeepsBus(v: Vic, a: Access)
    requires Allowed(a)
    ensures var u := Store(v, a);
            u.lineCycle == v.lineCycle && u.ba == v.ba && u.raster.isBadLine == v.raster.isBadLine && u.sprites == v.sprites
  {
  }

  lemma EffectKeepsBus(chip: Chip, v: Vic, a: Access)
    ensures var u := Effect(chip, v, a);
            && u.lineCycle == v.lineCycle && u.ba == v.ba && u.raster.isBadLine == v.raster.isBadLine
            && forall n | 0 <= n < SPRITES :: u.sprites[n].dma == v.sprites[n].dma
  {
    hide IrqState, Acknowledged, PenX;
  }

  lemma {:induction false} Phi2IsExact(chip: Chip, st: Stepped, accesses: seq<Access>)
    requires Exact(chip, st.vic) && forall a | a in accesses :: Allowed(a)
    ensures Exact(chip, SteppedPhi2(chip, st, accesses).0.vic)
    decreases |accesses|
  {
    hide Exact, SteppedAccess;
    if accesses != [] {
      AccessIsExact(chip, st, accesses[0]);
      Phi2IsExact(chip, SteppedAccess(chip, st, accesses[0]), accesses[1..]);
    }
  }

  lemma EdgeIsExact(chip: Chip, v: Vic, edge: bool)
    requires Exact(chip, v)
    ensures Exact(chip, Edge(v, edge))
  {
    hide IrqState, RasterLineIrq, Fetches;
  }

  lemma {:induction false} RunIsExact(chip: Chip, st: Stepped, cycles: seq<seq<Access>>)
    requires Fits(chip) && Exact(chip, st.vic) && AllAllowed(cycles)
    ensures Exact(chip, SpriteLines.AfterCycles(chip, st, cycles).vic)
    decreases |cycles|
  {
    hide Exact, Tick, Edge;
    if cycles != [] {
      TickIsExact(chip, st.vic);
      EdgeIsExact(chip, Tick(chip, st.vic), st.edge);
      Phi2IsExact(chip, SteppedPhi1(chip, st), cycles[0]);
      RunIsExact(chip, SteppedCycle(chip, st, cycles[0]).0, cycles[1..]);
    }
  }

  /** From a reset, on every chip and under every sequence of accesses other than writes to $D011: BA is low in
      exactly the line cycles in which a sprite in DMA or a bad line needs the bus. */
  lemma BusIsExact(chip: Chip, cycles: seq<seq<Access>>)
    requires IsModel(chip) && AllAllowed(cycles)
    ensures var v := SpriteLines.AfterCycles(chip, Stepped(ResetVic(chip), false), cycles).vic;
            v.ba <==> !(exists n | 0 <= n < SPRITES :: v.sprites[n].dma && Fetches(chip, n, v.lineCycle))
                      && !(v.raster.isBadLine && 11 <= v.lineCycle <= 53)
  {
    ModelsFit(chip);
    RunIsExact(chip, Stepped(ResetVic(chip), false), cycles);
  }
}
