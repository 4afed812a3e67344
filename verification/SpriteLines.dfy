/**
 What one raster line of the chip does to one sprite (src/c64/VIC_II/mos656x.cpp, src/c64/VIC_II/sprites.h), for the
 three line clocks and any accesses that spare the registers of the sprite, and so how many lines of the chip a
 sprite DMA lasts.
 */
module SpriteLines {
  import opened Arith
  import opened SpriteLogic
  import opened VicCore
  import opened VicSkipping

  /** What the registers say of one sprite. */
  datatype Knobs = Knobs(enabled: bool, expanded: bool, y: int)

  function KnobsOf(regs: Regs, i: nat): Knobs
    requires i < SPRITES
  {
    Knobs(Bit(regs[0x15], i), Bit(regs[0x17], i), regs[2 * i + 1] as int)
  }

  function SettingAt(k: Knobs, y: nat): Setting { Setting(k.enabled, k.expanded, y % 0x100 == k.y) }

  /** The chip as far as one sprite depends on it. */
  datatype Lane = Lane(c: nat, s: Sprite, y: nat, vblanking: bool)

  function LaneOf(v: Vic, i: nat): Lane
    requires i < SPRITES
  {
    Lane(v.lineCycle, v.sprites[i], v.raster.y, v.raster.vblanking)
  }

  function LaneAct(chip: Chip, k: Knobs, l: Lane, act: Act): Lane {
    match act
    case DoCheckVblank =>
      var last := l.vblanking || l.y == chip.rasters - 1;
      l.(vblanking := last, y := if last then l.y else l.y + 1)
    case DoVblank => if l.vblanking then l.(vblanking := false, y := 0) else l
    case DoUpdateMc => l.(s := StepMc(l.s))
    case DoUpdateMcBase => l.(s := StepBase(l.s))
    case DoCheckDma => l.(s := Trigger(l.s, SettingAt(k, l.y)))
    case DoCheckExp => l.(s := Expand(l.s, k.expanded))
    case DoCheckDisplay => l.(s := Display(l.s))
    case _ => l
  }

  function LaneWork(chip: Chip, k: Knobs, l: Lane, w: Work): Lane {
    LaneAct(chip, k, LaneAct(chip, k, LaneAct(chip, k, l, w.first), w.second), w.third)
  }

  function LaneTick(chip: Chip, k: Knobs, l: Lane): Lane
    requires chip.cycles > 0
  {
    var c := CycleAfter(chip, l.c);
    LaneWork(chip, k, l.(c := c), WorkOf(chip.clock, c))
  }

  function CycleAfter(chip: Chip, c: nat): nat
    requires chip.cycles > 0
  {
    (c + 1) % chip.cycles
  }

  lemma InLine(chip: Chip, c: nat)
    requires c < chip.cycles
    ensures CycleAfter(chip, c) == if c + 1 == chip.cycles then 0 else c + 1
  {
    if c + 1 == chip.cycles {
      DivModUnique(c + 1, chip.cycles, 1, 0);
    } else {
      DivModUnique(c + 1, chip.cycles, 0, c + 1);
    }
  }

  function LaneTicks(chip: Chip, k: Knobs, l: Lane, n: nat): Lane
    requires chip.cycles > 0
    decreases n
  {
    if n == 0 then l else LaneTicks(chip, k, LaneTick(chip, k, l), n - 1)
  }

  lemma {:induction false} LaneTicksAdd(chip: Chip, k: Knobs, l: Lane, m: nat, n: nat)
    requires chip.cycles > 0
    ensures LaneTicks(chip, k, l, m + n) == LaneTicks(chip, k, LaneTicks(chip, k, l, m), n)
    decreases m
  {
    hide LaneTick;
    if m > 0 {
      LaneTicksAdd(chip, k, LaneTick(chip, k, l), m - 1, n);
    }
  }

  // ----- The chip moves the sprite as its lane moves -----

  lemma EdgeKeepsPlace(r: Raster, regs: Regs)
    ensures EdgeDetector(r, regs).y == r.y && EdgeDetector(r, regs).vblanking == r.vblanking
  {
    hide IrqState, RasterLineIrq;
  }

  lemma LinePlace(r: Raster, regs: Regs)
    ensures BadLineWindow(r, regs).y == r.y && BadLineWindow(r, regs).vblanking == r.vblanking
    ensures NextLine(r, regs).y == r.y + 1 && NextLine(r, regs).vblanking == r.vblanking
  {
    EdgeKeepsPlace(r.(y := r.y + 1), regs);
    hide EdgeDetector, ReadDen;
  }

  lemma CheckVblankPlace(r: Raster, regs: Regs, rasters: nat)
    ensures var last := r.vblanking || r.y == rasters - 1;
            var t := CheckVblank(r, regs, rasters);
            t.vblanking == last && t.y == if last then r.y else r.y + 1
  {
    var r1 := if r.y == rasters - 1 then r.(vblanking := true) else r;
    LinePlace(r1, regs);
    LinePlace(BadLineWindow(r1, regs), regs);
    hide BadLineWindow, NextLine, EvaluateIsBadLine;
  }

  lemma VblankPlace(r: Raster, regs: Regs, cycles: nat)
    ensures var t := Vblank(r, regs, cycles);
            !t.vblanking && t.y == if r.vblanking then 0 else r.y
  {
    EdgeKeepsPlace(r.(vblanking := false, y := 0), regs);
    hide EdgeDetector, IrqState;
  }

  lemma ActOnLane(chip: Chip, v: Vic, act: Act, i: nat)
    requires i < SPRITES
    ensures LaneOf(Do(chip, v, act), i) == LaneAct(chip, KnobsOf(v.regs, i), LaneOf(v, i), act)
    ensures Do(chip, v, act).regs == v.regs
  {
    CheckVblankPlace(v.raster, v.regs, chip.rasters);
    VblankPlace(v.raster, v.regs, chip.cycles);
    hide CheckVblank, Vblank, DmaMask, StepMc, StepBase, Trigger, Expand, Display, Bit;
  }

  lemma TickOnLane(chip: Chip, v: Vic, i: nat)
    requires i < SPRITES && chip.cycles > 0
    ensures LaneOf(Tick(chip, v), i) == LaneTick(chip, KnobsOf(v.regs, i), LaneOf(v, i))
    ensures Tick(chip, v).regs == v.regs
  {
    hide Do, LaneAct, WorkOf, KnobsOf;
    var c := (v.lineCycle + 1) % chip.cycles;
    var u, w := v.(lineCycle := c), WorkOf(chip.clock, c);
    var u1 := Do(chip, u, w.first);
    var u2 := Do(chip, u1, w.second);
    ActOnLane(chip, u, w.first, i);
    ActOnLane(chip, u1, w.second, i);
    ActOnLane(chip, u2, w.third, i);
  }

  /** An access that does not write the registers that steer the sprite. */
  predicate Spares(a: Access, i: nat) {
    a.Write? ==> a.addr != 0x15 && a.addr != 0x17 && a.addr != 2 * i + 1
  }

  predicate AllSpare(cycles: seq<seq<Access>>, i: nat) {
    forall j, a | 0 <= j < |cycles| && a in cycles[j] :: Spares(a, i)
  }

  lemma StoreOnLane(v: Vic, a: Access, i: nat)
    requires i < SPRITES && Allowed(a) && Spares(a, i)
    ensures LaneOf(Store(v, a), i) == LaneOf(v, i) && KnobsOf(Store(v, a).regs, i) == KnobsOf(v.regs, i)
  {
    hide Bit;
  }

  lemma EffectOnLane(chip: Chip, v: Vic, a: Access, i: nat)
    requires i < SPRITES && Spares(a, i)
    ensures LaneOf(Effect(chip, v, a), i) == LaneOf(v, i) && Effect(chip, v, a).regs == v.regs
  {
    hide IrqState, Acknowledged, PenX;
  }

  lemma AccessOnLane(chip: Chip, st: Stepped, a: Access, i: nat)
    requires i < SPRITES && Allowed(a) && Spares(a, i)
    ensures var v := SteppedAccess(chip, st, a).vic;
            LaneOf(v, i) == LaneOf(st.vic, i) && KnobsOf(v.regs, i) == KnobsOf(st.vic.regs, i)
  {
    StoreOnLane(st.vic, a, i);
    EffectOnLane(chip, Store(st.vic, a), a, i);
    hide LaneOf, KnobsOf, Store, Effect;
  }

  lemma {:induction false} Phi2OnLane(chip: Chip, st: Stepped, accesses: seq<Access>, i: nat)
    requires i < SPRITES && forall a | a in accesses :: Allowed(a) && Spares(a, i)
    ensures var v := SteppedPhi2(chip, st, accesses).0.vic;
            LaneOf(v, i) == LaneOf(st.vic, i) && KnobsOf(v.regs, i) == KnobsOf(st.vic.regs, i)
    decreases |accesses|
  {
    hide LaneOf, KnobsOf, SteppedAccess, Spares;
    if accesses != [] {
      AccessOnLane(chip, st, accesses[0], i);
      Phi2OnLane(chip, SteppedAccess(chip, st, accesses[0]), accesses[1..], i);
    }
  }

  /** The stepped chip after some cycles. */
  function AfterCycles(chip: Chip, st: Stepped, cycles: seq<seq<Access>>): Stepped
    requires chip.cycles > 0 && AllAllowed(cycles)
    decreases |cycles|
  {
    if cycles == [] then st else AfterCycles(chip, SteppedCycle(chip, st, cycles[0]).0, cycles[1..])
  }

  lemma CycleOnLane(chip: Chip, st: Stepped, accesses: seq<Access>, i: nat)
    requires i < SPRITES && chip.cycles > 0 && forall a | a in accesses :: Allowed(a) && Spares(a, i)
    ensures var v := SteppedCycle(chip, st, accesses).0.vic;
            && LaneOf(v, i) == LaneTick(chip, KnobsOf(st.vic.regs, i), LaneOf(st.vic, i))
            && KnobsOf(v.regs, i) == KnobsOf(st.vic.regs, i)
  {
    hide LaneTick, KnobsOf, Tick, EdgeDetector, Spares;
    TickOnLane(chip, st.vic, i);
    EdgeKeepsPlace(Tick(chip, st.vic).raster, st.vic.regs);
    Phi2OnLane(chip, SteppedPhi1(chip, st), accesses, i);
  }

  lemma {:induction false} CyclesOnLane(chip: Chip, st: Stepped, cycles: seq<seq<Access>>, i: nat)
    requires i < SPRITES && chip.cycles > 0 && AllAllowed(cycles) && AllSpare(cycles, i)
    ensures LaneOf(AfterCycles(chip, st, cycles).vic, i) == LaneTicks(chip, KnobsOf(st.vic.regs, i), LaneOf(st.vic, i), |cycles|)
    decreases |cycles|
  {
    hide LaneOf, LaneTick, KnobsOf, SteppedCycle, Spares;
    if cycles != [] {
      CycleOnLane(chip, st, cycles[0], i);
      CyclesOnLane(chip, SteppedCycle(chip, st, cycles[0]).0, cycles[1..], i);
    }
  }

  // ----- One line of a lane -----

  /** The cycle in which the counters are reloaded. */
  function DisplayCycle(clock: LineClock): nat { if clock == Ntsc then 58 else 57 }

  /** Does the act have to do with the bus alone? */
  predicate OnBus(act: Act) { act.Nothing? || act.StartDma? || act.EndDma? || act.StartBadline? || act.ReleaseBa? }

  predicate Dull(clock: LineClock, c: nat) {
    var w := WorkOf(clock, c); OnBus(w.first) && OnBus(w.second) && OnBus(w.third)
  }

  lemma DullPal(c: nat)
    requires 2 <= c < 14 || 16 <= c < 54 || 57 < c
    ensures Dull(Pal, c)
  {
  }

  lemma DullNtsc(c: nat)
    requires 2 <= c < 14 || 16 <= c < 54 || 58 < c
    ensures Dull(Ntsc, c)
  {
  }

  lemma DullOldNtsc(c: nat)
    requires 2 <= c < 14 || 16 <= c < 54 || 57 < c
    ensures Dull(OldNtsc, c)
  {
  }

  lemma DullCycle(clock: LineClock, c: nat)
    requires 2 <= c < 14 || 16 <= c < 54 || DisplayCycle(clock) < c
    ensures Dull(clock, c)
  {
    hide Dull;
    match clock
    case Pal => DullPal(c);
    case Ntsc => DullNtsc(c);
    case OldNtsc => DullOldNtsc(c);
  }

  lemma DullTick(chip: Chip, k: Knobs, l: Lane)
    requires l.c + 1 < chip.cycles && Dull(chip.clock, l.c + 1)
    ensures LaneTick(chip, k, l) == l.(c := l.c + 1)
  {
    hide WorkOf, LaneAct, CycleAfter;
    InLine(chip, l.c);
    var w, m := WorkOf(chip.clock, l.c + 1), l.(c := l.c + 1);
    BusAct(chip, k, m, w.first);
    BusAct(chip, k, m, w.second);
    BusAct(chip, k, m, w.third);
  }

  lemma BusAct(chip: Chip, k: Knobs, l: Lane, act: Act)
    requires OnBus(act)
    ensures LaneAct(chip, k, l, act) == l
  {
  }

  /** In a stretch of such cycles the sprite stands still. */
  lemma {:induction false} Stretch(chip: Chip, k: Knobs, l: Lane, n: nat)
    requires l.c + n < chip.cycles && forall j | l.c < j <= l.c + n :: Dull(chip.clock, j)
    ensures LaneTicks(chip, k, l, n) == l.(c := l.c + n)
    decreases n
  {
    hide LaneTick, Dull;
    if n > 0 {
      DullTick(chip, k, l);
      Stretch(chip, k, l.(c := l.c + 1), n - 1);
    }
  }

  function NextY(chip: Chip, y: nat): nat { if y == chip.rasters - 1 then 0 else y + 1 }

  /** What one line does, from one reload of the counters to the next. */
  function ChipLine(s: Sprite, cfg: Setting): Sprite {
    Display(Expand(Trigger(StepBase(StepMc(s)), cfg), cfg.expanded))
  }

  lemma TopOfLine(chip: Chip, k: Knobs, l: Lane)
    requires Fits(chip) && l.c == chip.cycles - 1 && !l.vblanking
    ensures LaneTick(chip, k, LaneTick(chip, k, l)) == Lane(1, l.s, NextY(chip, l.y), false)
  {
    FirstCycles(chip.clock);
    InLine(chip, chip.cycles - 1);
    InLine(chip, 0);
    hide WorkOf, CycleAfter, StepMc, StepBase, Trigger, Expand, Display;
    var m := LaneTick(chip, k, l);
    assert m.c == 0;
  }

  lemma FirstCycles(clock: LineClock)
    ensures var w := WorkOf(clock, 0); w.first == DoCheckVblank && OnBus(w.second) && OnBus(w.third)
    ensures var w := WorkOf(clock, 1); w.first == DoVblank && OnBus(w.second) && OnBus(w.third)
    ensures WorkOf(clock, 14) == One(DoUpdateMc) && WorkOf(clock, 15) == One(DoUpdateMcBase)
  {
  }

  lemma CountersTick(chip: Chip, k: Knobs, l: Lane)
    requires Fits(chip) && l.c == 13
    ensures LaneTick(chip, k, LaneTick(chip, k, l)) == l.(c := 15, s := StepBase(StepMc(l.s)))
  {
    FirstCycles(chip.clock);
    InLine(chip, 13);
    InLine(chip, 14);
    hide WorkOf, CycleAfter, StepMc, StepBase, Trigger, Expand, Display;
    assert LaneTick(chip, k, l) == l.(c := 14, s := StepMc(l.s));
  }

  lemma TriggerTwice(s: Sprite, cfg: Setting)
    ensures Trigger(Trigger(s, cfg), cfg) == Trigger(s, cfg)
    ensures Trigger(Expand(Trigger(s, cfg), cfg.expanded), cfg) == Expand(Trigger(s, cfg), cfg.expanded)
  {
  }

  lemma FourTicks(chip: Chip, k: Knobs, l: Lane)
    requires chip.cycles > 0
    ensures LaneTicks(chip, k, l, 1) == LaneTick(chip, k, l)
    ensures LaneTicks(chip, k, l, 2) == LaneTick(chip, k, LaneTick(chip, k, l))
    ensures LaneTicks(chip, k, l, 4) == LaneTick(chip, k, LaneTick(chip, k, LaneTick(chip, k, LaneTick(chip, k, l))))
  {
    hide LaneTick;
    var l1 := LaneTick(chip, k, l);
    var l2 := LaneTick(chip, k, l1);
    var l3 := LaneTick(chip, k, l2);
    assert LaneTicks(chip, k, l, 1) == LaneTicks(chip, k, l1, 0);
    assert LaneTicks(chip, k, l, 2) == LaneTicks(chip, k, l1, 1) == LaneTicks(chip, k, l2, 0);
    assert LaneTicks(chip, k, l, 4) == LaneTicks(chip, k, l1, 3) == LaneTicks(chip, k, l2, 2) == LaneTicks(chip, k, l3, 1)
        == LaneTicks(chip, k, LaneTick(chip, k, l3), 0);
  }

  /** The cycles from the DMA check to the reload of the counters. */
  lemma EndWork(clock: LineClock)
    ensures var w := WorkOf(clock, 55); w.first == DoCheckDma && w.second == DoCheckExp && OnBus(w.third)
    ensures if clock == Pal then var w := WorkOf(clock, 54); w.first == DoCheckDma && OnBus(w.second) && OnBus(w.third)
            else Dull(clock, 54)
    ensures if clock == Pal then Dull(clock, 56)
            else var w := WorkOf(clock, 56); w.first == DoCheckDma && OnBus(w.second) && OnBus(w.third)
    ensures clock == Ntsc ==> Dull(clock, 57)
    ensures var w := WorkOf(clock, DisplayCycle(clock)); w.first == DoCheckDisplay && OnBus(w.second) && OnBus(w.third)
  {
  }

  lemma DmaTick(chip: Chip, k: Knobs, l: Lane)
    requires l.c + 1 < chip.cycles
    requires var w := WorkOf(chip.clock, l.c + 1); w.first == DoCheckDma && OnBus(w.second) && OnBus(w.third)
    ensures LaneTick(chip, k, l) == l.(c := l.c + 1, s := Trigger(l.s, SettingAt(k, l.y)))
  {
    InLine(chip, l.c);
    hide WorkOf, CycleAfter, StepMc, StepBase, Trigger, Expand, Display;
  }

  lemma ExpTick(chip: Chip, k: Knobs, l: Lane)
    requires l.c + 1 < chip.cycles
    requires var w := WorkOf(chip.clock, l.c + 1); w.first == DoCheckDma && w.second == DoCheckExp && OnBus(w.third)
    ensures LaneTick(chip, k, l) == l.(c := l.c + 1, s := Expand(Trigger(l.s, SettingAt(k, l.y)), k.expanded))
  {
    InLine(chip, l.c);
    hide WorkOf, CycleAfter, StepMc, StepBase, Trigger, Expand, Display;
  }

  lemma DisplayTick(chip: Chip, k: Knobs, l: Lane)
    requires l.c + 1 < chip.cycles
    requires var w := WorkOf(chip.clock, l.c + 1); w.first == DoCheckDisplay && OnBus(w.second) && OnBus(w.third)
    ensures LaneTick(chip, k, l) == l.(c := l.c + 1, s := Display(l.s))
  {
    InLine(chip, l.c);
    hide WorkOf, CycleAfter, StepMc, StepBase, Trigger, Expand, Display;
  }

  lemma EndPal(chip: Chip, k: Knobs, l: Lane)
    requires chip.clock == Pal && chip.cycles == 63 && l.c == 53
    ensures LaneTicks(chip, k, l, 4) == l.(c := 57, s := Display(Expand(Trigger(l.s, SettingAt(k, l.y)), k.expanded)))
  {
    EndWork(Pal);
    hide LaneTick, WorkOf, Dull, Trigger, Expand, Display;
    var cfg := SettingAt(k, l.y);
    TriggerTwice(l.s, cfg);
    DmaTick(chip, k, l);
    ExpTick(chip, k, l.(c := 54, s := Trigger(l.s, cfg)));
    var t := Expand(Trigger(l.s, cfg), k.expanded);
    DullTick(chip, k, l.(c := 55, s := t));
    DisplayTick(chip, k, l.(c := 56, s := t));
    FourTicks(chip, k, l);
  }

  /** The NTSC clocks look for the DMA once more after the flip-flops have been toggled. */
  lemma MiddleNtsc(chip: Chip, k: Knobs, l: Lane)
    requires chip.clock != Pal && chip.cycles > 58 && l.c == 53
    ensures LaneTick(chip, k, LaneTick(chip, k, LaneTick(chip, k, l))) ==
            l.(c := 56, s := Expand(Trigger(l.s, SettingAt(k, l.y)), k.expanded))
  {
    EndWork(chip.clock);
    hide LaneTick, WorkOf, Dull, Trigger, Expand, Display;
    var cfg := SettingAt(k, l.y);
    TriggerTwice(l.s, cfg);
    DullTick(chip, k, l);
    ExpTick(chip, k, l.(c := 54));
    DmaTick(chip, k, l.(c := 55, s := Expand(Trigger(l.s, cfg), k.expanded)));
  }

  lemma EndOldNtsc(chip: Chip, k: Knobs, l: Lane)
    requires chip.clock == OldNtsc && chip.cycles == 64 && l.c == 53
    ensures LaneTicks(chip, k, l, 4) == l.(c := 57, s := Display(Expand(Trigger(l.s, SettingAt(k, l.y)), k.expanded)))
  {
    EndWork(OldNtsc);
    MiddleNtsc(chip, k, l);
    hide LaneTick, WorkOf, Dull, Trigger, Expand, Display;
    DisplayTick(chip, k, l.(c := 56, s := Expand(Trigger(l.s, SettingAt(k, l.y)), k.expanded)));
    FourTicks(chip, k, l);
  }

  lemma EndNtsc(chip: Chip, k: Knobs, l: Lane)
    requires chip.clock == Ntsc && chip.cycles == 65 && l.c == 53
    ensures LaneTicks(chip, k, l, 5) == l.(c := 58, s := Display(Expand(Trigger(l.s, SettingAt(k, l.y)), k.expanded)))
  {
    EndWork(Ntsc);
    MiddleNtsc(chip, k, l);
    hide LaneTick, WorkOf, Dull, Trigger, Expand, Display;
    var t := Expand(Trigger(l.s, SettingAt(k, l.y)), k.expanded);
    DullTick(chip, k, l.(c := 56, s := t));
    DisplayTick(chip, k, l.(c := 57, s := t));
    FourTicks(chip, k, l);
    FourTicks(chip, k, l.(c := 57, s := t));
    LaneTicksAdd(chip, k, l, 4, 1);
  }

  lemma EndOfLine(chip: Chip, k: Knobs, l: Lane)
    requires Fits(chip) && l.c == 53
    ensures LaneTicks(chip, k, l, DisplayCycle(chip.clock) - 53) ==
            l.(c := DisplayCycle(chip.clock), s := Display(Expand(Trigger(l.s, SettingAt(k, l.y)), k.expanded)))
  {
    hide LaneTicks, Trigger, Expand, Display;
    match chip.clock
    case Pal => EndPal(chip, k, l);
    case Ntsc => EndNtsc(chip, k, l);
    case OldNtsc => EndOldNtsc(chip, k, l);
  }

  /** One line of the chip, by any of the three line clocks. */
  lemma LineOfChip(chip: Chip, k: Knobs, l: Lane)
    requires Fits(chip) && l.c == DisplayCycle(chip.clock) && !l.vblanking
    ensures var y := NextY(chip, l.y);
            LaneTicks(chip, k, l, chip.cycles) == Lane(l.c, ChipLine(l.s, SettingAt(k, y)), y, false)
  {
    hide LaneTick, Dull, StepMc, StepBase, Trigger, Expand, Display;
    var y, n := NextY(chip, l.y), chip.cycles - 1 - l.c;
    forall c | 2 <= c < 14 || 16 <= c < 54 || l.c < c ensures Dull(chip.clock, c) {
      DullCycle(chip.clock, c);
    }
    Stretch(chip, k, l, n);
    var l1 := l.(c := chip.cycles - 1);
    TopOfLine(chip, k, l1);
    FourTicks(chip, k, l1);
    var l2 := Lane(1, l.s, y, false);
    Stretch(chip, k, l2, 12);
    var l3 := l2.(c := 13);
    CountersTick(chip, k, l3);
    FourTicks(chip, k, l3);
    var l4 := l2.(c := 15, s := StepBase(StepMc(l.s)));
    Stretch(chip, k, l4, 38);
    var l5 := l4.(c := 53);
    EndOfLine(chip, k, l5);
    hide LaneTicks;
    LaneTicksAdd(chip, k, l, n, 2);
    LaneTicksAdd(chip, k, l, n + 2, 12);
    LaneTicksAdd(chip, k, l, n + 14, 2);
    LaneTicksAdd(chip, k, l, n + 16, 38);
    LaneTicksAdd(chip, k, l, n + 54, l.c - 53);
  }

  // ----- Many lines -----

  function YAfter(chip: Chip, y: nat, n: nat): nat
    decreases n
  {
    if n == 0 then y else YAfter(chip, NextY(chip, y), n - 1)
  }

  /** As long as the DMA lasts, and in the line in which it ends unless the sprite starts over there, the lines of
      the chip are the lines of SpriteLogic. */
  lemma {:induction false} LinesOfChip(chip: Chip, k: Knobs, l: Lane, n: nat)
    requires Fits(chip) && l.c == DisplayCycle(chip.clock) && !l.vblanking
    requires InDma(l.s, k.expanded) && n <= LinesLeft(l.s, k.expanded)
    requires n == LinesLeft(l.s, k.expanded) ==> YAfter(chip, l.y, n) % 0x100 != k.y
    ensures LaneTicks(chip, k, l, Times(chip.cycles, n)) ==
            Lane(l.c, Lines(l.s, k.expanded, n), YAfter(chip, l.y, n), false)
    decreases n
  {
    hide LaneTick;
    if n > 0 {
      var y := NextY(chip, l.y);
      LineOfChip(chip, k, l);
      UpdatesLeftStep(l.s.base);
      LineIsLine(l.s, SettingAt(k, y));
      LaneTicksAdd(chip, k, l, chip.cycles, Times(chip.cycles, n - 1));
      var t := Line(l.s, k.expanded);
      if LinesLeft(l.s, k.expanded) > 1 {
        LineGoesOn(l.s, k.expanded);
        LinesOfChip(chip, k, Lane(l.c, t, y, false), n - 1);
      } else {
        assert YAfter(chip, l.y, 1) == YAfter(chip, y, 0);
      }
    }
  }

  lemma LineIsLine(s: Sprite, cfg: Setting)
    requires InDma(s, cfg.expanded) && (LinesLeft(s, cfg.expanded) > 1 || !cfg.yMatches)
    ensures ChipLine(s, cfg) == Line(s, cfg.expanded)
  {
    UpdatesLeftStep(s.base);
    hide UpdatesLeft;
  }

  lemma LineGoesOn(s: Sprite, expanded: bool)
    requires InDma(s, expanded) && LinesLeft(s, expanded) > 1
    ensures InDma(Line(s, expanded), expanded) && LinesLeft(Line(s, expanded), expanded) == LinesLeft(s, expanded) - 1
  {
    UpdatesLeftStep(s.base);
  }

  lemma {:induction false} YAfterIs(chip: Chip, y: nat, n: nat)
    requires y < chip.rasters && n < chip.rasters
    ensures YAfter(chip, y, n) == if y + n < chip.rasters then y + n else y + n - chip.rasters
    decreases n
  {
    if n > 0 {
      YAfterIs(chip, NextY(chip, y), n - 1);
    }
  }

  lemma {:induction false} CyclesKeepKnobs(chip: Chip, st: Stepped, cycles: seq<seq<Access>>, i: nat)
    requires i < SPRITES && chip.cycles > 0 && AllAllowed(cycles) && AllSpare(cycles, i)
    ensures KnobsOf(AfterCycles(chip, st, cycles).vic.regs, i) == KnobsOf(st.vic.regs, i)
    decreases |cycles|
  {
    hide LaneOf, LaneTick, KnobsOf, SteppedCycle, Spares;
    if cycles != [] {
      CycleOnLane(chip, st, cycles[0], i);
      CyclesKeepKnobs(chip, SteppedCycle(chip, st, cycles[0]).0, cycles[1..], i);
    }
  }

  /** A line in any state of the sprite, and how it leaves the sprite. */
  lemma LineOnChip(chip: Chip, st: Stepped, cycles: seq<seq<Access>>, i: nat)
    requires Fits(chip) && i < SPRITES && AllAllowed(cycles) && AllSpare(cycles, i) && |cycles| == chip.cycles
    requires st.vic.lineCycle == DisplayCycle(chip.clock) && !st.vic.raster.vblanking
    ensures var k, y, v := KnobsOf(st.vic.regs, i), NextY(chip, st.vic.raster.y), AfterCycles(chip, st, cycles).vic;
            && LaneOf(v, i) == Lane(st.vic.lineCycle, ChipLine(st.vic.sprites[i], SettingAt(k, y)), y, false)
            && KnobsOf(v.regs, i) == k
  {
    CyclesOnLane(chip, st, cycles, i);
    CyclesKeepKnobs(chip, st, cycles, i);
    LineOfChip(chip, KnobsOf(st.vic.regs, i), LaneOf(st.vic, i));
    hide LaneTicks, KnobsOf, AfterCycles, ChipLine;
  }

  /** From any state that a crunch may leave: on the chip, too, the DMA is on for exactly LinesLeft lines. */
  lemma DmaEndsOnChip(chip: Chip, st: Stepped, cycles: seq<seq<Access>>, i: nat, n: nat)
    requires Fits(chip) && i < SPRITES && AllAllowed(cycles) && AllSpare(cycles, i) && |cycles| == Times(chip.cycles, n)
    requires st.vic.lineCycle == DisplayCycle(chip.clock) && !st.vic.raster.vblanking
    requires var k, s := KnobsOf(st.vic.regs, i), st.vic.sprites[i];
             && InDma(s, k.expanded) && n <= LinesLeft(s, k.expanded)
             && (n == LinesLeft(s, k.expanded) ==> YAfter(chip, st.vic.raster.y, n) % 0x100 != k.y)
    ensures var k, s := KnobsOf(st.vic.regs, i), st.vic.sprites[i];
            AfterCycles(chip, st, cycles).vic.sprites[i].dma == (n < LinesLeft(s, k.expanded))
  {
    CyclesOnLane(chip, st, cycles, i);
    LinesOfChip(chip, KnobsOf(st.vic.regs, i), LaneOf(st.vic, i), n);
    DmaEndsOnTime(st.vic.sprites[i], KnobsOf(st.vic.regs, i).expanded, n);
    hide LaneTicks, KnobsOf, AfterCycles, LinesLeft, InDma;
  }

  /** On the chip, whatever else is read and written meanwhile: from the line in which a sprite is switched on, its
      DMA is on for exactly 21 lines, 42 if expanded. */
  lemma DmaOnChip(chip: Chip, st: Stepped, first: seq<seq<Access>>, cycles: seq<seq<Access>>, i: nat, n: nat)
    requires IsModel(chip) && i < SPRITES
    requires AllAllowed(first) && AllSpare(first, i) && |first| == chip.cycles
    requires AllAllowed(cycles) && AllSpare(cycles, i) && |cycles| == Times(chip.cycles, n)
    requires st.vic.lineCycle == DisplayCycle(chip.clock) && st.vic.raster.y < chip.rasters && !st.vic.raster.vblanking
    requires var k := KnobsOf(st.vic.regs, i); k.enabled && k.y == NextY(chip, st.vic.raster.y) % 0x100
    requires !st.vic.sprites[i].dma && n <= if KnobsOf(st.vic.regs, i).expanded then 42 else 21
    ensures var k := KnobsOf(st.vic.regs, i);
            AfterCycles(chip, AfterCycles(chip, st, first), cycles).vic.sprites[i].dma == (n < if k.expanded then 42 else 21)
  {
    ModelsFit(chip);
    var k, y := KnobsOf(st.vic.regs, i), NextY(chip, st.vic.raster.y);
    var st1 := AfterCycles(chip, st, first);
    LineOnChip(chip, st, first, i);
    assert st1.vic.lineCycle == DisplayCycle(chip.clock) && !st1.vic.raster.vblanking && st1.vic.raster.y == y;
    SwitchedOn(st.vic.sprites[i], SettingAt(k, y));
    if n == 21 || n == 42 {
      NoSecondMatch(chip, y, n);
    }
    hide KnobsOf, AfterCycles, ChipLine, YAfter, InDma, LinesLeft, LaneOf, SettingAt;
    DmaEndsOnChip(chip, st1, cycles, i, n);
  }

  /** So soon after a line no line has the same low byte, though a frame has more than 256 lines. */
  lemma NoSecondMatch(chip: Chip, y: nat, n: nat)
    requires IsModel(chip) && y < chip.rasters && (n == 21 || n == 42)
    ensures YAfter(chip, y, n) % 0x100 != y % 0x100
  {
    YAfterIs(chip, y, n);
    hide YAfter;
    LowByte(y);
    LowByte(YAfter(chip, y, n));
  }

  lemma LowByte(y: nat)
    requires y < 0x200
    ensures y % 0x100 == if y < 0x100 then y else y - 0x100
  {
  }

  lemma SwitchedOn(s: Sprite, cfg: Setting)
    requires !s.dma && cfg.enabled && cfg.yMatches
    ensures var t := ChipLine(s, cfg); InDma(t, cfg.expanded) && LinesLeft(t, cfg.expanded) == if cfg.expanded then 42 else 21
  {
    assert UpdatesLeft(0) == 21;
  }
}
