/**
 When the shared IRQ line is released, the CPU queues an event that forgets the interrupt two cycles later
 (clearIRQ() and clearInt in src/c64/CPU/mos6510.cpp). Nothing checks that the event of the release before has
 fired by then. This is exactly when it has, and a program for which it has not.
 */
module IrqRelease {
  import opened EventQueue
  import Line = IrqLine
  import SpriteLogic
  import VicCore
  import VicSkipping
  import CpuTable
  import CpuCore

  /** The events of the scheduler: the removal event of the CPU, and everybody else's. */
  datatype Id = Removal | Handler(id: nat)

  /** What a handler may do. */
  datatype Action =
    | Signal(e: Line.Event)
    | Enqueue(id: nat, cycles: nat, phase: Phase)
    | Drop(id: nat)

  datatype Machine = Machine(q: EventQueue.Queue<Id>, s: Line.Sources)

  /** Is this the moment in which the last source lets go of the line? */
  predicate Releases(s: Line.Sources, a: Action) {
    a.Signal? && s.line.pin && !Line.Next(s, a.e).line.pin
  }

  /** The removal event a release queues. */
  function RemovalEntry(q: EventQueue.Queue<Id>): Entry<Id> {
    Entry(Removal, PhasedTime(q.now, CpuCore.INTERRUPT_DELAY, Phi1), q.next)
  }

  function Act(m: Machine, a: Action): Machine {
    match a
    case Signal(e) =>
      Machine(if Releases(m.s, a) then Add(m.q, Removal, RemovalEntry(m.q).time) else m.q, Line.Next(m.s, e))
    case Enqueue(id, cycles, phase) => m.(q := Add(m.q, Handler(id), PhasedTime(m.q.now, cycles, phase)))
    case Drop(id) => m.(q := Step(m.q, Cancel(Handler(id))))
  }

  function ActAll(m: Machine, acts: seq<Action>): Machine
    decreases |acts|
  {
    if acts == [] then m else ActAll(Act(m, acts[0]), acts[1..])
  }

  function Fire(m: Machine): Machine
    requires m.q.entries != []
  {
    m.(q := Step(m.q, Clock))
  }

  predicate FindsNone(m: Machine, a: Action) { Releases(m.s, a) ==> !IsPending(m.q.entries, Removal) }

  predicate Obeys(m: Machine, a: Action) { a.Enqueue? ==> !IsPending(m.q.entries, Handler(a.id)) }

  /** No release of this turn finds the removal event queued. */
  predicate CleanTurn(m: Machine, acts: seq<Action>)
    decreases |acts|
  {
    acts == [] || (FindsNone(m, acts[0]) && CleanTurn(Act(m, acts[0]), acts[1..]))
  }

  predicate Clean(m: Machine, turns: seq<seq<Action>>)
    decreases |turns|
  {
    turns == [] ||
    (m.q.entries != [] && CleanTurn(Fire(m), turns[0]) && Clean(ActAll(Fire(m), turns[0]), turns[1..]))
  }

  /** Everybody else keeps the rule not to queue an event twice. What comes after a damaged queue does not matter. */
  predicate OthersObey(m: Machine, acts: seq<Action>)
    decreases |acts|
  {
    acts == [] || (Obeys(m, acts[0]) && (FindsNone(m, acts[0]) ==> OthersObey(Act(m, acts[0]), acts[1..])))
  }

  /** Turn by turn, an event is taken from the queue and its handler acts; the removal handler only tells the CPU. */
  predicate IsRun(m: Machine, turns: seq<seq<Action>>)
    decreases |turns|
  {
    turns == [] ||
    (&& m.q.entries != []
     && (m.q.entries[0].event == Removal ==> turns[0] == [])
     && OthersObey(Fire(m), turns[0])
     && (CleanTurn(Fire(m), turns[0]) ==> IsRun(ActAll(Fire(m), turns[0]), turns[1..])))
  }

  // ----- The condition, told by the times of the releases alone -----

  datatype Last = Never | Since(removal: Entry<Id>)

  /** The event that is firing now comes after the removal event of the last release. */
  predicate HasFired(last: Last, now: Entry<Id>) {
    last.Since? ==> Before(last.removal, now)
  }

  function LastAfter(m: Machine, last: Last, a: Action): Last {
    if Releases(m.s, a) then Since(RemovalEntry(m.q)) else last
  }

  function LastAfterAll(m: Machine, last: Last, acts: seq<Action>): Last
    decreases |acts|
  {
    if acts == [] then last else LastAfterAll(Act(m, acts[0]), LastAfter(m, last, acts[0]), acts[1..])
  }

  predicate SpacedTurn(m: Machine, last: Last, now: Entry<Id>, acts: seq<Action>)
    decreases |acts|
  {
    acts == [] ||
    ((Releases(m.s, acts[0]) ==> HasFired(last, now)) && SpacedTurn(Act(m, acts[0]), LastAfter(m, last, acts[0]), now, acts[1..]))
  }

  /** No release comes before the removal event of the release before it. */
  predicate Spaced(m: Machine, last: Last, turns: seq<seq<Action>>)
    decreases |turns|
  {
    turns == [] ||
    (&& m.q.entries != []
     && SpacedTurn(Fire(m), last, m.q.entries[0], turns[0])
     && Spaced(ActAll(Fire(m), turns[0]), LastAfterAll(Fire(m), last, turns[0]), turns[1..]))
  }

  // ----- The two agree -----

  /** The removal entry r is the only one that can be queued. */
  ghost predicate OnlyRemoval(q: EventQueue.Queue<Id>, r: Entry<Id>) {
    r.event == Removal && r.stamp < q.next && forall x | x in q.entries && x.event == Removal :: x == r
  }

  /** It has fired, ahead of everything that is queued now. */
  ghost predicate Gone(q: EventQueue.Queue<Id>, r: Entry<Id>) {
    r.time <= q.now && forall x | x in q.entries :: Before(r, x)
  }

  /** Between turns. */
  ghost predicate Knows(q: EventQueue.Queue<Id>, last: Last) {
    Valid(q) && match last
                case Never => forall x | x in q.entries :: x.event != Removal
                case Since(r) => OnlyRemoval(q, r) && (r in q.entries || Gone(q, r))
  }

  /** While the handler of the event `now` acts. */
  ghost predicate KnowsIn(q: EventQueue.Queue<Id>, last: Last, now: Entry<Id>) {
    && Valid(q) && now.time == q.now && now.stamp < q.next
    && match last
       case Never => forall x | x in q.entries :: x.event != Removal
       case Since(r) => OnlyRemoval(q, r) && if Before(r, now) then r !in q.entries && Gone(q, r) else r in q.entries
  }

  lemma PendingIffIn(q: seq<Entry<Id>>)
    ensures IsPending(q, Removal) <==> exists x :: x in q && x.event == Removal
  {
  }

  /** In a turn: the removal event is queued iff the event that is firing does not come after it. */
  lemma FiredIffUnqueued(q: EventQueue.Queue<Id>, last: Last, now: Entry<Id>)
    requires KnowsIn(q, last, now)
    ensures HasFired(last, now) <==> !IsPending(q.entries, Removal)
  {
    PendingIffIn(q.entries);
    hide Valid, Before;
  }

  lemma FireKnows(q: EventQueue.Queue<Id>, last: Last)
    requires Knows(q, last) && q.entries != [] && q.entries[0].event != Removal
    ensures KnowsIn(Step(q, Clock), last, q.entries[0])
  {
    StepRefines(q, Clock);
    var q', e := Step(q, Clock), q.entries[0];
    assert q.entries == [e] + q'.entries;
    if last.Since? && last.removal in q.entries {
      assert Before(e, last.removal);
    }
  }

  lemma FireRemoval(q: EventQueue.Queue<Id>, last: Last)
    requires Knows(q, last) && q.entries != [] && q.entries[0].event == Removal
    ensures Knows(Step(q, Clock), last)
  {
    StepRefines(q, Clock);
    var q', e := Step(q, Clock), q.entries[0];
    assert q.entries == [e] + q'.entries;
    assert last == Since(e);
    forall x | x in q'.entries ensures Before(e, x) {
      var i :| 0 <= i < |q'.entries| && q'.entries[i] == x;
      assert x == q.entries[i + 1];
    }
  }

  lemma AddKnows(q: EventQueue.Queue<Id>, last: Last, now: Entry<Id>, id: nat, time: nat)
    requires KnowsIn(q, last, now) && !IsPending(q.entries, Handler(id)) && q.now <= time
    ensures KnowsIn(Add(q, Handler(id), time), last, now)
  {
    var x, q' := Entry(Handler(id), time, q.next), Add(q, Handler(id), time);
    StepAdd(q, Handler(id), time);
    assert forall y :: y in q'.entries <==> y in Items(q'.entries);
    assert forall y :: y in q'.entries <==> y in q.entries || y == x;
    hide Valid, Insert;
  }

  lemma ReleaseKnows(q: EventQueue.Queue<Id>, last: Last, now: Entry<Id>)
    requires KnowsIn(q, last, now) && !IsPending(q.entries, Removal)
    ensures KnowsIn(Add(q, Removal, RemovalEntry(q).time), Since(RemovalEntry(q)), now)
  {
    var r, q' := RemovalEntry(q), Add(q, Removal, RemovalEntry(q).time);
    PendingIffIn(q.entries);
    StepAdd(q, Removal, r.time);
    assert forall y :: y in q'.entries <==> y in Items(q'.entries);
    assert forall y :: y in q'.entries <==> y in q.entries || y == r;
    hide Valid, Insert;
  }

  lemma DropKnows(q: EventQueue.Queue<Id>, last: Last, now: Entry<Id>, id: nat)
    requires KnowsIn(q, last, now)
    ensures KnowsIn(Step(q, Cancel(Handler(id))), last, now)
  {
    var q' := Step(q, Cancel(Handler(id)));
    StepCancel(q, Handler(id));
    assert forall y :: y in q'.entries <==> y in Items(q'.entries);
    assert forall y :: y in q'.entries <==> y in q.entries && y.event != Handler(id);
    hide Valid, Remove;
  }

  lemma ActKnows(m: Machine, last: Last, now: Entry<Id>, a: Action)
    requires KnowsIn(m.q, last, now)
    requires FindsNone(m, a) && Obeys(m, a)
    ensures KnowsIn(Act(m, a).q, LastAfter(m, last, a), now)
  {
    hide KnowsIn, IsPending, Add, Step, Line.Next;
    match a
    case Signal(_) =>
      if Releases(m.s, a) {
        ReleaseKnows(m.q, last, now);
      }
    case Enqueue(id, cycles, phase) => AddKnows(m.q, last, now, id, PhasedTime(m.q.now, cycles, phase));
    case Drop(id) => DropKnows(m.q, last, now, id);
  }

  lemma {:induction false} TurnAgrees(m: Machine, last: Last, now: Entry<Id>, acts: seq<Action>)
    requires KnowsIn(m.q, last, now) && OthersObey(m, acts)
    ensures CleanTurn(m, acts) <==> SpacedTurn(m, last, now, acts)
    ensures CleanTurn(m, acts) ==> KnowsIn(ActAll(m, acts).q, LastAfterAll(m, last, acts), now)
    decreases |acts|
  {
    hide KnowsIn, IsPending, Act, HasFired, Releases, LastAfter;
    if acts != [] {
      FiredIffUnqueued(m.q, last, now);
      if FindsNone(m, acts[0]) {
        ActKnows(m, last, now, acts[0]);
        TurnAgrees(Act(m, acts[0]), LastAfter(m, last, acts[0]), now, acts[1..]);
      }
    }
  }

  lemma TurnEnds(q: EventQueue.Queue<Id>, last: Last, now: Entry<Id>)
    requires KnowsIn(q, last, now)
    ensures Knows(q, last)
  {
    hide Valid, Before;
  }

  /** In every run, every release finds the removal event unqueued if and only if no release comes before the removal
      event of the release before it has fired. */
  lemma {:induction false} CleanIffSpaced(m: Machine, last: Last, turns: seq<seq<Action>>)
    requires Knows(m.q, last) && IsRun(m, turns)
    ensures Clean(m, turns) <==> Spaced(m, last, turns)
    decreases |turns|
  {
    hide Knows, KnowsIn, CleanTurn, SpacedTurn, OthersObey, Step, ActAll, LastAfterAll;
    if turns != [] {
      var f, e := Fire(m), m.q.entries[0];
      if e.event == Removal {
        FireRemoval(m.q, last);
        NoActs(f, last, e);
        CleanIffSpaced(f, last, turns[1..]);
      } else {
        FireKnows(m.q, last);
        TurnAgrees(f, last, e, turns[0]);
        if CleanTurn(f, turns[0]) {
          var g, later := ActAll(f, turns[0]), LastAfterAll(f, last, turns[0]);
          TurnEnds(g.q, later, e);
          CleanIffSpaced(g, later, turns[1..]);
        }
      }
    }
  }

  lemma NoActs(m: Machine, last: Last, now: Entry<Id>)
    ensures CleanTurn(m, []) && SpacedTurn(m, last, now, []) && ActAll(m, []) == m && LastAfterAll(m, last, []) == last
  {
  }

  /** For a release by the CPU, in PHI2, only the times matter: the event is gone from the third cycle after the
      release on. */
  lemma CpuReleases(t0: nat, stamp: nat, now: Entry<Id>)
    requires now.time % 2 == 1 && t0 <= now.time
    ensures var r := Entry(Removal, PhasedTime(t0, CpuCore.INTERRUPT_DELAY, Phi1), stamp);
            HasFired(Since(r), now) <==> GetTime(now.time, Phi2) >= GetTime(t0, Phi2) + (if t0 % 2 == 1 then 3 else 2)
  {
  }

  // ----- A program that releases the line too early -----

  const CPU := 0
  const VIC := 1

  /** ROL $D019 in the last cycles of a line, with the raster interrupt enabled and pending and the comparison set to
      the next line. */
  ghost predicate BeforeRasterLine(chip: VicCore.Chip, v: VicCore.Vic) {
    && v.lineCycle == chip.cycles - 1 && v.raster.y + 1 < chip.rasters && v.raster.y + 1 == VicCore.RasterLineIrq(v.regs)
    && v.raster.irqFlags == 0x81 && v.raster.irqMask == 0x01 && !v.raster.irqCondition && !v.raster.vblanking
  }

  /** ROL writes what it has read back, and in the next cycle the rotated value. */
  lemma RolWritesTwice(r: CpuCore.Regs, c: CpuCore.Ctl)
    requires r.data == 0xf1 && r.f.c
    ensures CpuCore.BusOf(CpuTable.Rmw(CpuTable.Rol), r, c) == CpuCore.WriteBus(r.ea, 0xf1)
    ensures CpuCore.BusOf(CpuTable.PutEffAddrDataByte, CpuCore.RmwStep(CpuTable.Rol, r), c) == CpuCore.WriteBus(r.ea, 0xe3)
  {
    Rotated(r);
    hide CpuCore.RmwStep;
  }

  /** The two writes of ROL absolute are in consecutive cycles that the VIC cannot steal. */
  lemma RolRow()
    ensures CpuTable.Slots(0x2e) ==
            [CpuTable.Free(CpuTable.FetchLowAddr), CpuTable.Free(CpuTable.FetchHighAddr), CpuTable.Free(CpuTable.FetchEffAddrDataByte),
             CpuTable.Kept(CpuTable.Rmw(CpuTable.Rol)), CpuTable.Kept(CpuTable.PutEffAddrDataByte),
             CpuTable.Free(CpuTable.InterruptsAndNextOpcode)]
  {
  }

  lemma Rotated(r: CpuCore.Regs)
    requires r.data == 0xf1 && r.f.c
    ensures CpuCore.RmwStep(CpuTable.Rol, r).data == 0xe3 && CpuCore.RmwStep(CpuTable.Rol, r).ea == r.ea
  {
  }

  /** What the two writes to $D019 and the raster flag do to the flags. */
  lemma RolOnFlags()
    ensures VicCore.Acknowledged(0x81, 0xf1) == VicCore.Acknowledged(0x81, 0xe3) == 0x80
    ensures VicCore.IrqState(0x80, 0x01) == 0x00
    ensures VicCore.IrqState(0x00 | VicCore.IRQ_RASTER, 0x01) == 0x81 == VicCore.IrqState(0x00 | (0x01 & 0x0f), 0x01)
    ensures Line.Requests(0x81) && Line.Requests(0x80) && !Line.Requests(0x00) && !Line.Requests(0x00 | (0x01 & 0x0f))
  {
  }

  lemma FirstCycle(chip: VicCore.Chip, v: VicCore.Vic)
    requires VicCore.Fits(chip) && v.lineCycle == chip.cycles - 1
    ensures VicSkipping.Tick(chip, v).raster == VicCore.CheckVblank(v.raster, v.regs, chip.rasters)
  {
    hide VicCore.Do, VicCore.CheckVblank, VicCore.WorkOf;
    var u, w := v.(lineCycle := 0), VicCore.WorkOf(chip.clock, 0);
    var u1 := VicCore.Do(chip, u, w.first);
    FirstWork(chip, u);
    BusActKeepsRaster(chip, u1, w.second);
    BusActKeepsRaster(chip, VicCore.Do(chip, u1, w.second), w.third);
  }

  lemma FirstWork(chip: VicCore.Chip, v: VicCore.Vic)
    ensures var w := VicCore.WorkOf(chip.clock, 0);
            w.first == VicCore.DoCheckVblank && (w.second.StartDma? || w.second.EndDma?) && w.third == VicCore.Nothing
    ensures VicCore.Do(chip, v, VicCore.DoCheckVblank).raster == VicCore.CheckVblank(v.raster, v.regs, chip.rasters)
  {
    hide VicCore.CheckVblank;
  }

  lemma BusActKeepsRaster(chip: VicCore.Chip, v: VicCore.Vic, act: VicCore.Act)
    requires act.Nothing? || act.StartDma? || act.EndDma?
    ensures VicCore.Do(chip, v, act).raster == v.raster
  {
    hide VicCore.EndMask, VicCore.StartMask, SpriteLogic.DmaMask;
  }

  lemma LineRaisesFlag(r: VicCore.Raster, regs: SpriteLogic.Regs, rasters: nat)
    requires r.y + 1 < rasters && r.y + 1 == VicCore.RasterLineIrq(regs) && !r.irqCondition && !r.vblanking
    requires r.irqFlags == 0x00 && r.irqMask == 0x01
    ensures var t := VicCore.CheckVblank(r, regs, rasters); t.irqFlags == 0x81 && t.irqMask == 0x01
  {
    RolOnFlags();
    hide VicCore.IrqState, VicCore.RasterLineIrq, VicCore.ReadDen;
  }

  /** The first write clears the flag, the next line raises it, the second write clears it: bit 7 falls twice. */
  lemma TwoFalls(chip: VicCore.Chip, v: VicCore.Vic)
    requires VicCore.Fits(chip) && BeforeRasterLine(chip, v)
    ensures var v1 := VicSkipping.SteppedAccess(chip, VicSkipping.Stepped(v, false), VicCore.Write(0x19, 0xf1)).vic;
            var v2 := VicSkipping.Tick(chip, v1);
            var v3 := VicSkipping.SteppedAccess(chip, VicSkipping.Stepped(v2, false), VicCore.Write(0x19, 0xe3)).vic;
            && Line.Requests(v.raster.irqFlags) && !Line.Requests(v1.raster.irqFlags)
            && Line.Requests(v2.raster.irqFlags) && !Line.Requests(v3.raster.irqFlags)
  {
    var v1 := VicSkipping.SteppedAccess(chip, VicSkipping.Stepped(v, false), VicCore.Write(0x19, 0xf1)).vic;
    RolOnFlags();
    WriteFlags(chip, v, 0xf1);
    FirstCycle(chip, v1);
    hide VicSkipping.Tick, VicCore.CheckVblank, VicCore.IrqState, Line.Requests, VicSkipping.SteppedAccess;
    LineRaisesFlag(v1.raster, v1.regs, chip.rasters);
    WriteFlags(chip, VicSkipping.Tick(chip, v1), 0xe3);
  }

  lemma WriteFlags(chip: VicCore.Chip, v: VicCore.Vic, data: bv8)
    ensures var u := VicSkipping.SteppedAccess(chip, VicSkipping.Stepped(v, false), VicCore.Write(0x19, data)).vic;
            && u.raster == v.raster.(irqFlags := VicCore.IrqState(VicCore.Acknowledged(v.raster.irqFlags, data), v.raster.irqMask))
            && u.lineCycle == v.lineCycle && VicCore.RasterLineIrq(u.regs) == VicCore.RasterLineIrq(v.regs)
  {
    hide VicCore.IrqState, VicCore.Acknowledged;
  }

  /** On the line, with the CPU's event in PHI2 and the VIC's in the PHI1 that follows: the second release finds the
      removal event of the first still queued. */
  lemma ReleasedTooEarly(n: nat)
    ensures var q := EventQueue.Queue([Entry(Handler(CPU), 2 * n + 1, 0), Entry(Handler(VIC), 2 * n + 2, 1)], 2 * n, 2);
            var m := Machine(q, Line.Sources(false, 0x81, 0x01, Line.Shared(1, true)));
            var turns := [[Signal(Line.VicAcknowledge(0xf1)), Enqueue(CPU, 1, Phi2)],
                          [Signal(Line.VicFlag(0x01)), Enqueue(VIC, 1, Phi1)],
                          [Signal(Line.VicAcknowledge(0xe3))]];
            Knows(q, Never) && Line.Consistent(m.s) && IsRun(m, turns) && !Clean(m, turns)
  {
    var cpu, vic := Entry(Handler(CPU), 2 * n + 1, 0), Entry(Handler(VIC), 2 * n + 2, 1);
    var q := EventQueue.Queue([cpu, vic], 2 * n, 2);
    var pulled, quiet := Line.Sources(false, 0x81, 0x01, Line.Shared(1, true)), Line.Sources(false, 0x00, 0x01, Line.Shared(0, false));
    var m := Machine(q, pulled);
    LineMoves(pulled, quiet);
    var removal, cpu', vic' := Entry(Removal, 2 * n + 6, 2), Entry(Handler(CPU), 2 * n + 3, 3), Entry(Handler(VIC), 2 * n + 4, 4);
    var acts1, acts2, acts3 := [Signal(Line.VicAcknowledge(0xf1)), Enqueue(CPU, 1, Phi2)],
                               [Signal(Line.VicFlag(0x01)), Enqueue(VIC, 1, Phi1)], [Signal(Line.VicAcknowledge(0xe3))];
    hide Line.Next, Line.Consistent;
    var m1 := Machine(EventQueue.Queue([vic], 2 * n + 1, 2), pulled);
    var m2 := Machine(EventQueue.Queue([cpu', removal], 2 * n + 2, 4), quiet);
    var m3 := Machine(EventQueue.Queue([vic', removal], 2 * n + 3, 5), pulled);
    FirstTurn(m1, quiet, vic, removal, cpu');
    SecondTurn(m2, pulled, cpu', vic', removal);
    ThirdTurn(m3, vic', removal);
    assert Fire(m) == m1 && Fire(ActAll(m1, acts1)) == m2 && Fire(ActAll(m2, acts2)) == m3;
    assert Knows(q, Never) by { assert Valid(q); }
    hide ActAll, CleanTurn, OthersObey, Knows;
    ThreeTurns(m, acts1, acts2, acts3);
  }

  lemma ThreeTurns(m: Machine, a: seq<Action>, b: seq<Action>, c: seq<Action>)
    requires m.q.entries != [] && m.q.entries[0].event != Removal && CleanTurn(Fire(m), a) && OthersObey(Fire(m), a)
    requires var m1 := ActAll(Fire(m), a);
             m1.q.entries != [] && m1.q.entries[0].event != Removal && CleanTurn(Fire(m1), b) && OthersObey(Fire(m1), b)
    requires var m2 := ActAll(Fire(ActAll(Fire(m), a)), b);
             m2.q.entries != [] && m2.q.entries[0].event != Removal && !CleanTurn(Fire(m2), c) && OthersObey(Fire(m2), c)
    ensures IsRun(m, [a, b, c]) && !Clean(m, [a, b, c])
  {
    hide ActAll, CleanTurn, OthersObey, Fire;
    assert [a, b, c][1..] == [b, c] && [b, c][1..] == [c];
    var m1 := ActAll(Fire(m), a);
    var m2 := ActAll(Fire(m1), b);
    assert IsRun(m2, [c]) && !Clean(m2, [c]);
    assert IsRun(m1, [b, c]) && !Clean(m1, [b, c]);
  }

  lemma LineMoves(pulled: Line.Sources, quiet: Line.Sources)
    requires pulled == Line.Sources(false, 0x81, 0x01, Line.Shared(1, true))
    requires quiet == Line.Sources(false, 0x00, 0x01, Line.Shared(0, false))
    ensures Line.Consistent(pulled)
    ensures Line.Next(pulled, Line.VicAcknowledge(0xf1)) == quiet == Line.Next(pulled, Line.VicAcknowledge(0xe3))
    ensures Line.Next(quiet, Line.VicFlag(0x01)) == pulled
  {
    RolOnFlags();
    hide VicCore.IrqState, VicCore.Acknowledged, Line.Requests;
  }

  lemma TwoActs(m: Machine, a: Action, b: Action)
    ensures ActAll(m, [a, b]) == Act(Act(m, a), b)
    ensures CleanTurn(m, [a, b]) <==> FindsNone(m, a) && FindsNone(Act(m, a), b)
    ensures OthersObey(m, [a, b]) <==> Obeys(m, a) && (FindsNone(m, a) ==> Obeys(Act(m, a), b))
  {
    hide Act, FindsNone, Obeys;
    assert [a, b][1..] == [b] && [b][1..] == [];
    var m1 := Act(m, a);
    assert ActAll(m1, [b]) == ActAll(Act(m1, b), []);
    assert CleanTurn(m1, [b]) <==> FindsNone(m1, b) && CleanTurn(Act(m1, b), []);
    assert OthersObey(m1, [b]) <==> Obeys(m1, b) && (FindsNone(m1, b) ==> OthersObey(Act(m1, b), []));
  }

  lemma InsertInto(x: Entry<Id>, y: Entry<Id>, e: Entry<Id>)
    requires x.time <= e.time && y.time > e.time
    ensures Insert([x, y], e) == [x, e, y] && Insert([x], e) == [x, e]
  {
    assert [x, y][1..] == [y] && [x][1..] == [];
    assert Insert([y], e) == [e, y] && Insert([], e) == [e];
  }

  lemma FirstTurn(m: Machine, quiet: Line.Sources, vic: Entry<Id>, removal: Entry<Id>, cpu: Entry<Id>)
    requires m.q == EventQueue.Queue([vic], m.q.now, 2) && m.q.now % 2 == 1 && vic == Entry(Handler(VIC), m.q.now + 1, 1)
    requires m.s.line.pin && !quiet.line.pin && Line.Next(m.s, Line.VicAcknowledge(0xf1)) == quiet
    requires removal == Entry(Removal, m.q.now + 5, 2) && cpu == Entry(Handler(CPU), m.q.now + 2, 3)
    ensures var acts := [Signal(Line.VicAcknowledge(0xf1)), Enqueue(CPU, 1, Phi2)];
            && CleanTurn(m, acts) && OthersObey(m, acts)
            && ActAll(m, acts) == Machine(EventQueue.Queue([vic, cpu, removal], m.q.now, 4), quiet)
  {
    hide Line.Next, Insert, ActAll, CleanTurn, OthersObey;
    InsertInto(vic, removal.(time := removal.time + 1), removal);
    InsertInto(vic, removal, cpu);
    TwoActs(m, Signal(Line.VicAcknowledge(0xf1)), Enqueue(CPU, 1, Phi2));
    assert Act(m, Signal(Line.VicAcknowledge(0xf1))) == Machine(EventQueue.Queue([vic, removal], m.q.now, 3), quiet);
  }

  lemma SecondTurn(m: Machine, pulled: Line.Sources, cpu: Entry<Id>, vic: Entry<Id>, removal: Entry<Id>)
    requires m.q == EventQueue.Queue([cpu, removal], m.q.now, 4) && m.q.now % 2 == 0
    requires !m.s.line.pin && Line.Next(m.s, Line.VicFlag(0x01)) == pulled
    requires cpu == Entry(Handler(CPU), m.q.now + 1, 3) && vic == Entry(Handler(VIC), m.q.now + 2, 4)
    requires removal == Entry(Removal, m.q.now + 4, 2)
    ensures var acts := [Signal(Line.VicFlag(0x01)), Enqueue(VIC, 1, Phi1)];
            && CleanTurn(m, acts) && OthersObey(m, acts)
            && ActAll(m, acts) == Machine(EventQueue.Queue([cpu, vic, removal], m.q.now, 5), pulled)
  {
    hide Line.Next, Insert, ActAll, CleanTurn, OthersObey;
    InsertInto(cpu, removal, vic);
    TwoActs(m, Signal(Line.VicFlag(0x01)), Enqueue(VIC, 1, Phi1));
    assert Act(m, Signal(Line.VicFlag(0x01))) == m.(s := pulled);
  }

  lemma ThirdTurn(m: Machine, vic: Entry<Id>, removal: Entry<Id>)
    requires m.q.entries == [vic, removal] && removal.event == Removal
    requires m.s.line.pin && !Line.Next(m.s, Line.VicAcknowledge(0xe3)).line.pin
    ensures var acts := [Signal(Line.VicAcknowledge(0xe3))]; !CleanTurn(m, acts) && OthersObey(m, acts)
  {
    hide Line.Next;
    assert m.q.entries[1].event == Removal;
    assert IsPending(m.q.entries, Removal);
  }
}
