/**
 The data side of the eight sprites: DMA, the expansion flip-flop and the mc / mc_base counters
 (src/c64/VIC_II/sprites.h).
 */
module SpriteLogic {
  import opened Arith

  type u8 = x: int | 0 <= x < 0x100

  const SPRITES := 8

  /** One sprite: its bits of dma and exp_flop and its two counters. */
  datatype Sprite = Sprite(dma: bool, flop: bool, mc: u8, base: u8)

  type Bank = b: seq<Sprite> | |b| == SPRITES witness seq(SPRITES, _ => Sprite(false, true, 0, 0))

  /** What the registers say about one sprite on one line. */
  datatype Setting = Setting(enabled: bool, expanded: bool, yMatches: bool)

  // ----- One sprite -----

  function StepMc(s: Sprite): Sprite {
    if s.dma then s.(mc := (s.mc + 3) % 0x40) else s
  }

  function StepBase(s: Sprite): Sprite {
    if s.flop then s.(base := s.mc, dma := s.dma && s.mc != 0x3f) else s
  }

  function Expand(s: Sprite, expanded: bool): Sprite {
    s.(flop := s.flop != (s.dma && expanded))
  }

  function Display(s: Sprite): Sprite { s.(mc := s.base) }

  function Trigger(s: Sprite, cfg: Setting): Sprite {
    if cfg.enabled && cfg.yMatches && !s.dma then s.(dma := true, base := 0, flop := true) else s
  }

  /** The counter mixes with its base when the flip-flop is forced in cycle 14. */
  function Crunched(mc: u8, base: u8): u8 {
    var m, b := mc as bv8, base as bv8;
    ((0x2a & (b & m)) | (0x15 & (b | m))) as int
  }

  function Crunch(s: Sprite, expanded: bool, inCycle14: bool): Sprite {
    if expanded || s.flop then s
    else s.(flop := true, mc := if inCycle14 then Crunched(s.mc, s.base) else s.mc)
  }

  // ----- How long a DMA lasts -----

  /** The updates of one raster line in which neither $D017 nor the sprite is touched. */
  function Line(s: Sprite, expanded: bool): Sprite {
    Display(Expand(StepBase(StepMc(s)), expanded))
  }

  function Lines(s: Sprite, expanded: bool, n: nat): Sprite
    decreases n
  {
    if n == 0 then s else Lines(Line(s, expanded), expanded, n - 1)
  }

  /** How many updates of the base are left: 43 is the inverse of 3 modulo 64, and none means all 64. */
  function UpdatesLeft(base: u8): nat
    requires base < 0x40
  {
    var m := ((0x3f - base) * 43) % 0x40;
    if m == 0 then 0x40 else m
  }

  /** Lines until the DMA ends: an expanded sprite updates its base every other line only. */
  function LinesLeft(s: Sprite, expanded: bool): int
    requires s.base < 0x40
  {
    if !expanded then UpdatesLeft(s.base)
    else if s.flop then 2 * UpdatesLeft(s.base) - 1
    else 2 * UpdatesLeft(s.base)
  }

  lemma UpdatesLeftStep(base: u8)
    requires base < 0x40
    ensures 1 <= UpdatesLeft(base) <= 0x40
    ensures (UpdatesLeft(base) == 1) == ((base + 3) % 0x40 == 0x3f)
    ensures UpdatesLeft(base) > 1 ==> UpdatesLeft((base + 3) % 0x40) == UpdatesLeft(base) - 1
  {
    var x, k := 0x3f - base, (base + 3) / 0x40;
    var q, m := x * 43 / 0x40, x * 43 % 0x40;
    assert x == 3 * m + 0x40 * (3 * q - 2 * x);
    assert 0x3f - (base + 3) % 0x40 == x - 3 + 0x40 * k;
    assert (x - 3 + 0x40 * k) * 43 == (q - 2 + 43 * k) * 0x40 + (m - 1);
    if m > 0 {
      DivModUnique((x - 3 + 0x40 * k) * 43, 0x40, q - 2 + 43 * k, m - 1);
    } else {
      DivModUnique((x - 3 + 0x40 * k) * 43, 0x40, q - 3 + 43 * k, 0x3f);
    }
  }

  /** Ready for the next line: the counters agree, and only an expanded sprite may hold back. */
  predicate InDma(s: Sprite, expanded: bool) {
    s.dma && s.mc == s.base && s.base < 0x40 && (s.flop || expanded)
  }

  lemma {:induction false} OffStaysOff(s: Sprite, expanded: bool, n: nat)
    requires !s.dma
    ensures !Lines(s, expanded, n).dma
    decreases n
  {
    if n > 0 {
      OffStaysOff(Line(s, expanded), expanded, n - 1);
    }
  }

  /** From any base a crunch may leave, the DMA is on for exactly LinesLeft lines. */
  lemma {:induction false} DmaEndsOnTime(s: Sprite, expanded: bool, n: nat)
    requires InDma(s, expanded)
    ensures Lines(s, expanded, n).dma == (n < LinesLeft(s, expanded))
    decreases n
  {
    UpdatesLeftStep(s.base);
    if n > 0 {
      var t := Line(s, expanded);
      if LinesLeft(s, expanded) > 1 {
        assert InDma(t, expanded) && LinesLeft(t, expanded) == LinesLeft(s, expanded) - 1;
        DmaEndsOnTime(t, expanded, n - 1);
      } else {
        OffStaysOff(t, expanded, n - 1);
      }
    }
  }

  /** A sprite switched on before it is first displayed is fetched for 21 lines, 42 if expanded. */
  lemma FullDma(s: Sprite, cfg: Setting, n: nat)
    requires !s.dma && cfg.enabled && cfg.yMatches
    ensures var start := Display(Expand(Trigger(s, cfg), cfg.expanded));
            Lines(start, cfg.expanded, n).dma == (n < if cfg.expanded then 42 else 21)
  {
    var start := Display(Expand(Trigger(s, cfg), cfg.expanded));
    assert UpdatesLeft(0) == 21;
    DmaEndsOnTime(start, cfg.expanded, n);
  }

  /** Nothing a crunch does takes the counters out of range, so no DMA lasts longer than 64 updates. */
  lemma CrunchInRange(mc: u8, base: u8)
    ensures Crunched(mc, base) < 0x40
  {
    var m, b := mc as bv8, base as bv8;
    assert (0x2a & (b & m)) | (0x15 & (b | m)) < 0x40;
  }

  lemma BackToBits(x: bv8)
    ensures (x as int) as bv8 == x
  {
  }

  /** Of the six bits, a crunch keeps in the odd ones what counter and base share, and gathers in the even ones what
      either has. */
  lemma CrunchBits(m: bv8, b: bv8) returns (c: bv8)
    ensures Crunched(m as int, b as int) == c as int
    ensures c & 0x15 == (m & 0x15) | (b & 0x15) && c & 0x2a == (m & 0x2a) & (b & 0x2a) && c & 0xc0 == 0
  {
    BackToBits(m);
    BackToBits(b);
    c := (0x2a & (b & m)) | (0x15 & (b | m));
  }

  // ----- All eight -----

  type Regs = r: seq<bv8> | |r| == 0x40 witness seq(0x40, _ => 0)

  function Mask(i: nat): bv8
    requires i < SPRITES
  {
    if i == 0 then 0x01 else if i == 1 then 0x02 else if i == 2 then 0x04 else if i == 3 then 0x08
    else if i == 4 then 0x10 else if i == 5 then 0x20 else if i == 6 then 0x40 else 0x80
  }

  predicate Bit(m: bv8, i: nat)
    requires i < SPRITES
  {
    m & Mask(i) != 0
  }

  function SettingOf(regs: Regs, rasterY: nat, i: nat): Setting
    requires i < SPRITES
  {
    Setting(Bit(regs[0x15], i), Bit(regs[0x17], i), rasterY % 0x100 == regs[2 * i + 1] as int)
  }

  function UpdateMc(b: Bank): Bank {
    seq(SPRITES, i requires 0 <= i < SPRITES => StepMc(b[i]))
  }

  function UpdateMcBase(b: Bank): Bank {
    seq(SPRITES, i requires 0 <= i < SPRITES => StepBase(b[i]))
  }

  function CheckExp(b: Bank, regs: Regs): Bank {
    seq(SPRITES, i requires 0 <= i < SPRITES => Expand(b[i], Bit(regs[0x17], i)))
  }

  function CheckDisplay(b: Bank): Bank {
    seq(SPRITES, i requires 0 <= i < SPRITES => Display(b[i]))
  }

  function CheckDma(b: Bank, rasterY: nat, regs: Regs): Bank {
    seq(SPRITES, i requires 0 <= i < SPRITES => Trigger(b[i], SettingOf(regs, rasterY, i)))
  }

  function LineCrunch(b: Bank, data: bv8, lineCycle: nat): Bank {
    seq(SPRITES, i requires 0 <= i < SPRITES => Crunch(b[i], Bit(data, i), lineCycle == 14))
  }

  function MaskOf(on: bool, i: nat): bv8
    requires i < SPRITES
  {
    if on then Mask(i) else 0
  }

  /** The dma byte. */
  function DmaMask(b: Bank): bv8 {
    Byte(b[0].dma, b[1].dma, b[2].dma, b[3].dma, b[4].dma, b[5].dma, b[6].dma, b[7].dma)
  }

  function Byte(b0: bool, b1: bool, b2: bool, b3: bool, b4: bool, b5: bool, b6: bool, b7: bool): bv8 {
    MaskOf(b0, 0) | MaskOf(b1, 1) | MaskOf(b2, 2) | MaskOf(b3, 3) | MaskOf(b4, 4) | MaskOf(b5, 5) | MaskOf(b6, 6) | MaskOf(b7, 7)
  }

  /** A crunch never touches the DMA mask. */
  lemma LineCrunchKeepsDma(b: Bank, data: bv8, lineCycle: nat)
    ensures DmaMask(LineCrunch(b, data, lineCycle)) == DmaMask(b)
  {
    var r := LineCrunch(b, data, lineCycle);
    assert forall i | 0 <= i < SPRITES :: r[i].dma == b[i].dma;
  }

  lemma BitSet(m: bv8, i: nat, j: nat)
    requires i < SPRITES && j < SPRITES
    ensures Bit(m | Mask(i), j) == (Bit(m, j) || i == j)
    ensures Bit(m & !Mask(i), j) == (Bit(m, j) && i != j)
  {
  }
}

/** The object: two mask bytes and two arrays of counters. */
module SpriteUnit {
  import opened SpriteLogic

  ghost function BankOf(dma: bv8, flop: bv8, mc: seq<u8>, base: seq<u8>): Bank
    requires |mc| == |base| == SPRITES
  {
    seq(SPRITES, i requires 0 <= i < SPRITES => Sprite(Bit(dma, i), Bit(flop, i), mc[i], base[i]))
  }

  // How one write to a mask or a counter shows in the bank.

  lemma WriteDma(dma: bv8, flop: bv8, mc: seq<u8>, base: seq<u8>, i: nat, on: bool)
    requires |mc| == |base| == SPRITES && i < SPRITES
    ensures var b := BankOf(dma, flop, mc, base);
            BankOf(if on then dma | Mask(i) else dma & !Mask(i), flop, mc, base) == b[i := b[i].(dma := on)]
  {
    forall j | 0 <= j < SPRITES ensures Bit(if on then dma | Mask(i) else dma & !Mask(i), j) == if i == j then on else Bit(dma, j) {
      BitSet(dma, i, j);
    }
  }

  lemma WriteFlop(dma: bv8, flop: bv8, mc: seq<u8>, base: seq<u8>, i: nat)
    requires |mc| == |base| == SPRITES && i < SPRITES
    ensures var b := BankOf(dma, flop, mc, base);
            BankOf(dma, flop | Mask(i), mc, base) == b[i := b[i].(flop := true)]
  {
    forall j | 0 <= j < SPRITES ensures Bit(flop | Mask(i), j) == (Bit(flop, j) || i == j) {
      BitSet(flop, i, j);
    }
  }

  lemma WriteCounters(dma: bv8, flop: bv8, mc: seq<u8>, base: seq<u8>, i: nat, m: u8, n: u8)
    requires |mc| == |base| == SPRITES && i < SPRITES
    ensures var b := BankOf(dma, flop, mc, base);
            BankOf(dma, flop, mc[i := m], base[i := n]) == b[i := b[i].(mc := m, base := n)]
  {
  }

  lemma MaskOfBits(d: bv8)
    ensures d == Byte(Bit(d, 0), Bit(d, 1), Bit(d, 2), Bit(d, 3), Bit(d, 4), Bit(d, 5), Bit(d, 6), Bit(d, 7))
  {
  }

  lemma MaskOfBank(b: Bank, d: bv8)
    requires forall i | 0 <= i < SPRITES :: b[i].dma == Bit(d, i)
    ensures DmaMask(b) == d
  {
    MaskOfBits(d);
    hide Bit, Byte;
  }

  lemma DmaMaskOf(dma: bv8, flop: bv8, mc: seq<u8>, base: seq<u8>)
    requires |mc| == |base| == SPRITES
    ensures DmaMask(BankOf(dma, flop, mc, base)) == dma
  {
    var b := BankOf(dma, flop, mc, base);
    hide DmaMask, Bit;
    forall i | 0 <= i < SPRITES ensures b[i].dma == Bit(dma, i) {}
    MaskOfBank(b, dma);
  }

  lemma BitXor(flop: bv8, dma: bv8, exp: bv8, j: nat)
    requires j < SPRITES
    ensures Bit(flop ^ (dma & exp), j) == (Bit(flop, j) != (Bit(dma, j) && Bit(exp, j)))
  {
  }

  class Sprites {
    const regs: array<bv8>
    var exp_flop: bv8
    var dma: bv8
    const mc: array<u8>
    const mc_base: array<u8>

    ghost predicate Valid()
      reads this
    {
      mc.Length == mc_base.Length == SPRITES && mc != mc_base && regs.Length == 0x40
    }

    ghost function Bank(): Bank
      requires Valid()
      reads this, mc, mc_base
    {
      BankOf(dma, exp_flop, mc[..], mc_base[..])
    }

    constructor (regs: array<bv8>)
      requires regs.Length == 0x40
      ensures Valid() && this.regs == regs && fresh(mc) && fresh(mc_base)
      ensures Bank() == seq(SPRITES, _ => Sprite(false, true, 0, 0))
    {
      this.regs := regs;
      exp_flop, dma := 0xff, 0;
      mc := new u8[SPRITES](_ => 0);
      mc_base := new u8[SPRITES](_ => 0);
    }

    // The single reads and writes the loops are made of.

    method TestBit(value: bv8, i: nat, mask: bv8) returns (on: bool)
      requires i < SPRITES && mask == Mask(i)
      ensures on == Bit(value, i)
    {
      on := value & mask != 0;
    }

    method TestDma(i: nat, mask: bv8) returns (on: bool)
      requires Valid() && i < SPRITES && mask == Mask(i)
      ensures on == Bank()[i].dma
    {
      on := dma & mask != 0;
    }

    method TestFlop(i: nat, mask: bv8) returns (on: bool)
      requires Valid() && i < SPRITES && mask == Mask(i)
      ensures on == Bank()[i].flop
    {
      on := exp_flop & mask != 0;
    }

    method SetDma(i: nat, mask: bv8, on: bool)
      requires Valid() && i < SPRITES && mask == Mask(i)
      modifies this`dma
      ensures Bank() == old(Bank())[i := old(Bank())[i].(dma := on)]
    {
      hide BankOf, Mask, Bit;
      WriteDma(dma, exp_flop, mc[..], mc_base[..], i, on);
      dma := if on then dma | mask else dma & !mask;
    }

    method SetFlop(i: nat, mask: bv8)
      requires Valid() && i < SPRITES && mask == Mask(i)
      modifies this`exp_flop
      ensures Bank() == old(Bank())[i := old(Bank())[i].(flop := true)]
    {
      WriteFlop(dma, exp_flop, mc[..], mc_base[..], i);
      exp_flop := exp_flop | mask;
    }

    method SetMc(i: nat, value: u8)
      requires Valid() && i < SPRITES
      modifies mc
      ensures Bank() == old(Bank())[i := old(Bank())[i].(mc := value)]
    {
      WriteCounters(dma, exp_flop, mc[..], mc_base[..], i, value, mc_base[i]);
      mc[i] := value;
    }

    method SetBase(i: nat, value: u8)
      requires Valid() && i < SPRITES
      modifies mc_base
      ensures Bank() == old(Bank())[i := old(Bank())[i].(base := value)]
    {
      WriteCounters(dma, exp_flop, mc[..], mc_base[..], i, mc[i], value);
      mc_base[i] := value;
    }

    method UpdateMcAt(i: nat, mask: bv8)
      requires Valid() && i < SPRITES && mask == Mask(i)
      modifies mc
      ensures Bank() == old(Bank())[i := StepMc(old(Bank())[i])]
    {
      var active := TestDma(i, mask);
      if active {
        SetMc(i, (mc[i] as int + 3) % 0x40);
      }
    }

    method UpdateMc()
      requires Valid()
      modifies mc
      ensures Bank() == SpriteLogic.UpdateMc(old(Bank()))
    {
      ghost var was := Bank();
      var mask: bv8 := 1;
      for i := 0 to SPRITES
        invariant i < SPRITES ==> mask == Mask(i)
        invariant forall j | 0 <= j < SPRITES :: Bank()[j] == if j < i then StepMc(was[j]) else was[j]
      {
        UpdateMcAt(i, mask);
        mask := mask << 1;
      }
    }

    method UpdateMcBaseAt(i: nat, mask: bv8)
      requires Valid() && i < SPRITES && mask == Mask(i)
      modifies this`dma, mc_base
      ensures Bank() == old(Bank())[i := StepBase(old(Bank())[i])]
    {
      var flop := TestFlop(i, mask);
      if flop {
        SetBase(i, mc[i]);
        if mc_base[i] == 0x3f {
          SetDma(i, mask, false);
        }
      }
    }

    method UpdateMcBase()
      requires Valid()
      modifies this`dma, mc_base
      ensures Bank() == SpriteLogic.UpdateMcBase(old(Bank()))
    {
      ghost var was := Bank();
      var mask: bv8 := 1;
      for i := 0 to SPRITES
        invariant i < SPRITES ==> mask == Mask(i)
        invariant forall j | 0 <= j < SPRITES :: Bank()[j] == if j < i then StepBase(was[j]) else was[j]
      {
        UpdateMcBaseAt(i, mask);
        mask := mask << 1;
      }
    }

    method CheckExp()
      requires Valid()
      modifies this`exp_flop
      ensures Bank() == SpriteLogic.CheckExp(old(Bank()), regs[..])
    {
      forall j | 0 <= j < SPRITES
        ensures Bit(exp_flop ^ (dma & regs[0x17]), j) == (Bit(exp_flop, j) != (Bit(dma, j) && Bit(regs[0x17], j)))
      {
        BitXor(exp_flop, dma, regs[0x17], j);
      }
      exp_flop := exp_flop ^ (dma & regs[0x17]);
    }

    method CheckDisplay()
      requires Valid()
      modifies mc
      ensures Bank() == SpriteLogic.CheckDisplay(old(Bank()))
    {
      for i := 0 to SPRITES
        invariant forall j | 0 <= j < i :: mc[j] == mc_base[j]
      {
        mc[i] := mc_base[i];
      }
    }

    method CheckDmaAt(rasterY: nat, i: nat, mask: bv8)
      requires Valid() && i < SPRITES && mask == Mask(i)
      modifies this`dma, this`exp_flop, mc_base
      ensures Bank() == old(Bank())[i := Trigger(old(Bank())[i], SettingOf(regs[..], rasterY, i))]
    {
      var y := rasterY % 0x100;
      var active := TestDma(i, mask);
      var enabled := TestBit(regs[0x15], i, mask);
      if enabled && y == regs[2 * i + 1] as int && !active {
        SetDma(i, mask, true);
        SetBase(i, 0);
        SetFlop(i, mask);
      }
    }

    method CheckDma(rasterY: nat)
      requires Valid()
      modifies this`dma, this`exp_flop, mc_base
      ensures Bank() == SpriteLogic.CheckDma(old(Bank()), rasterY, regs[..])
    {
      ghost var was := Bank();
      var mask: bv8 := 1;
      for i := 0 to SPRITES
        invariant i < SPRITES ==> mask == Mask(i)
        invariant forall j | 0 <= j < SPRITES :: Bank()[j] == if j < i then Trigger(was[j], SettingOf(regs[..], rasterY, j)) else was[j]
      {
        CheckDmaAt(rasterY, i, mask);
        mask := mask << 1;
      }
    }

    method LineCrunchAt(data: bv8, lineCycle: nat, i: nat, mask: bv8)
      requires Valid() && i < SPRITES && mask == Mask(i)
      modifies this`exp_flop, mc
      ensures Bank() == old(Bank())[i := Crunch(old(Bank())[i], Bit(data, i), lineCycle == 14)]
    {
      var flop := TestFlop(i, mask);
      var keep := TestBit(data, i, mask);
      if !keep && !flop {
        if lineCycle == 14 {
          SetMc(i, Crunched(mc[i], mc_base[i]));
        }
        SetFlop(i, mask);
      }
    }

    method LineCrunch(data: bv8, lineCycle: nat)
      requires Valid()
      modifies this`exp_flop, mc
      ensures Bank() == SpriteLogic.LineCrunch(old(Bank()), data, lineCycle)
    {
      ghost var was := Bank();
      var mask: bv8 := 1;
      for i := 0 to SPRITES
        invariant i < SPRITES ==> mask == Mask(i)
        invariant forall j | 0 <= j < SPRITES :: Bank()[j] == if j < i then Crunch(was[j], Bit(data, j), lineCycle == 14) else was[j]
      {
        LineCrunchAt(data, lineCycle, i, mask);
        mask := mask << 1;
      }
    }

    lemma DmaIsMask()
      requires Valid()
      ensures DmaMask(Bank()) == dma
    {
      DmaMaskOf(dma, exp_flop, mc[..], mc_base[..]);
    }

    method IsDma(val: bv8) returns (active: bool)
      requires Valid()
      ensures active == (DmaMask(Bank()) & val != 0)
    {
      active := dma & val != 0;
      DmaIsMask();
    }
  }
}
