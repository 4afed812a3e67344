/**
 ADC and SBC chained through the carry (src/c64/CPU/mos6510.cpp): multi-precision arithmetic, binary and BCD.
 */
module CpuDecimal {
  import opened Arith
  import opened CpuTable
  import opened CpuCore

  function Base(decimal: bool): int { if decimal then 100 else 0x100 }

  /** The value of one byte: of two decimal digits, or of the byte itself. */
  function Digit(b: u8, decimal: bool): int { if decimal then b / 0x10 * 10 + b % 0x10 else b }

  /** In decimal mode both digits must be decimal. */
  predicate IsDigit(b: u8, decimal: bool) { decimal ==> b / 0x10 < 10 && b % 0x10 < 10 }

  predicate AllDigits(s: seq<u8>, decimal: bool) { forall i | 0 <= i < |s| :: IsDigit(s[i], decimal) }

  /** The number written in these bytes, lowest first, with `top` as the next digit. */
  function Number(s: seq<u8>, decimal: bool, top: int): int {
    if s == [] then top else Digit(s[0], decimal) + Base(decimal) * Number(s[1..], decimal, top)
  }

  // ----- One byte -----

  lemma AdcBinary(r: Regs)
    requires !r.f.d
    ensures var t := DoADC(r); t.a + 0x100 * Weight(t.f.c, 1) == r.a + r.data + Weight(r.f.c, 1)
  {
  }

  lemma SbcBinary(r: Regs)
    requires !r.f.d
    ensures var t := DoSBC(r); t.a - 0x100 * Weight(!t.f.c, 1) == r.a - r.data - Weight(!r.f.c, 1)
  {
  }

  /** The decimal adjustment of a sum, on the digits of its operands. */
  lemma AddOnDigits(a: u8, s: u8, c: int, ah: int, al: int, sh: int, sl: int) returns (h: int, l: int, carry: int)
    requires a / 0x10 == ah < 10 && a % 0x10 == al < 10 && s / 0x10 == sh < 10 && s % 0x10 == sl < 10 && 0 <= c <= 1
    ensures 0 <= h < 10 && 0 <= l < 10 && h * 10 + l + 100 * carry == ah * 10 + al + sh * 10 + sl + c
    ensures carry == if AddHigh(a, s, c) > 0xff then 1 else 0
    ensures Byte(AddHigh(a, s, c) / 0x10 * 0x10 + AddLow(a, s, c) % 0x10) == h * 0x10 + l
  {
    var lo0 := al + sl + c;
    var half := if lo0 > 9 then 1 else 0;
    l := lo0 - 10 * half;
    var mid := ah + sh + half;
    carry := if mid > 9 then 1 else 0;
    h := mid - 10 * carry;
    assert AddLow(a, s, c) == l + 0x10 * half;
    assert AddMiddle(a, s, c) == mid * 0x10;
    hide AddLow, AddMiddle;
    assert AddHigh(a, s, c) == (h + 0x10 * carry) * 0x10;
    hide AddHigh;
    assert (l + 0x10 * half) % 0x10 == l;
    assert (h + 0x10 * carry) * 0x10 / 0x10 * 0x10 == h * 0x10 + 0x100 * carry;
  }

  /** The decimal adjustment of a difference, on the digits of its operands. */
  lemma SubOnDigits(a: u8, s: u8, c: int, ah: int, al: int, sh: int, sl: int) returns (h: int, l: int, borrow: int)
    requires a / 0x10 == ah < 10 && a % 0x10 == al < 10 && s / 0x10 == sh < 10 && s % 0x10 == sl < 10 && 0 <= c <= 1
    ensures 0 <= h < 10 && 0 <= l < 10 && h * 10 + l - 100 * borrow == ah * 10 + al - sh * 10 - sl - c
    ensures borrow == if a - s - c < 0 then 1 else 0
    ensures SubDecimal(a, s, c) == h * 0x10 + l
  {
    var lo0 := al - sl - c;
    var half := if lo0 < 0 then 1 else 0;
    l := lo0 + 10 * half;
    var mid := ah - sh - half;
    borrow := if mid < 0 then 1 else 0;
    h := mid + 10 * borrow;
    BorrowBit(lo0, 0x10);
    BorrowBit(mid * 0x10, 0x100);
    assert SubLow(a, s, c) == lo0;
    assert SubHigh(a, s, c) == mid * 0x10;
    hide SubLow, SubHigh, HasBit;
    var low := if half == 1 then lo0 - 6 else lo0;
    assert low == l - 0x10 * half;
    assert low % 0x10 == l;
    var high := mid * 0x10 - 0x60 * borrow;
    assert high == h * 0x10 - 0x100 * borrow;
    assert high / 0x10 * 0x10 == high;
    assert Byte(high + l) == h * 0x10 + l;
  }

  /** A borrow sets every bit from the first one the digits do not use. */
  lemma BorrowBit(x: int, w: int)
    requires w > 0 && -w <= x < w
    ensures HasBit(x, w) == (x < 0)
  {
    if x < 0 { DivModUnique(x, w, -1, x + w); } else { DivModUnique(x, w, 0, x); }
  }

  lemma DigitOf(b: u8, h: int, l: int)
    requires b == h * 0x10 + l && 0 <= h < 10 && 0 <= l < 10
    ensures IsDigit(b, true) && Digit(b, true) == h * 10 + l
  {
    DivModUnique(b, 0x10, h, l);
  }

  lemma AdcDecimal(r: Regs)
    requires r.f.d && IsDigit(r.a, true) && IsDigit(r.data, true)
    ensures var t := DoADC(r);
            IsDigit(t.a, true) && Digit(t.a, true) + 100 * Weight(t.f.c, 1) == Digit(r.a, true) + Digit(r.data, true) + Weight(r.f.c, 1)
  {
    hide AddLow, AddHigh, AddMiddle, Byte;
    var h, l, carry := AddOnDigits(r.a, r.data, Weight(r.f.c, 1), r.a / 0x10, r.a % 0x10, r.data / 0x10, r.data % 0x10);
    DigitOf(DoADC(r).a, h, l);
  }

  lemma SbcDecimal(r: Regs)
    requires r.f.d && IsDigit(r.a, true) && IsDigit(r.data, true)
    ensures var t := DoSBC(r);
            IsDigit(t.a, true) && Digit(t.a, true) - 100 * Weight(!t.f.c, 1) == Digit(r.a, true) - Digit(r.data, true) - Weight(!r.f.c, 1)
  {
    hide SubDecimal, Byte, HasBit;
    var h, l, borrow := SubOnDigits(r.a, r.data, Weight(!r.f.c, 1), r.a / 0x10, r.a % 0x10, r.data / 0x10, r.data % 0x10);
    DigitOf(DoSBC(r).a, h, l);
  }

  // ----- Any number of bytes -----

  /** LDA a,n : ADC b,n, for one n. */
  function AddByte(r: Regs, a: u8, b: u8): Regs {
    AluStep(Adc, AluStep(Lda, r.(data := a)).(data := b))
  }

  /** LDA a,n : SBC b,n. */
  function SubByte(r: Regs, a: u8, b: u8): Regs {
    AluStep(Sbc, AluStep(Lda, r.(data := a)).(data := b))
  }

  lemma AddByteIsDigitSum(r: Regs, a: u8, b: u8)
    requires IsDigit(a, r.f.d) && IsDigit(b, r.f.d)
    ensures var t := AddByte(r, a, b);
            && t.f.d == r.f.d && IsDigit(t.a, r.f.d)
            && Digit(t.a, r.f.d) + Base(r.f.d) * Weight(t.f.c, 1) == Digit(a, r.f.d) + Digit(b, r.f.d) + Weight(r.f.c, 1)
  {
    var u := AluStep(Lda, r.(data := a)).(data := b);
    assert AddByte(r, a, b) == DoADC(u) && u.f.d == r.f.d && u.f.c == r.f.c && u.a == a;
    AdcKeepsMode(u);
    hide DoADC, AluStep, AddByte;
    if r.f.d { AdcDecimal(u); } else { AdcBinary(u); }
  }

  lemma SubByteIsDigitDifference(r: Regs, a: u8, b: u8)
    requires IsDigit(a, r.f.d) && IsDigit(b, r.f.d)
    ensures var t := SubByte(r, a, b);
            && t.f.d == r.f.d && IsDigit(t.a, r.f.d)
            && Digit(t.a, r.f.d) - Base(r.f.d) * Weight(!t.f.c, 1) == Digit(a, r.f.d) - Digit(b, r.f.d) - Weight(!r.f.c, 1)
  {
    var u := AluStep(Lda, r.(data := a)).(data := b);
    assert SubByte(r, a, b) == DoSBC(u) && u.f.d == r.f.d && u.f.c == r.f.c && u.a == a;
    SbcKeepsMode(u);
    hide DoSBC, AluStep, SubByte;
    if r.f.d { SbcDecimal(u); } else { SbcBinary(u); }
  }

  lemma AdcKeepsMode(r: Regs)
    ensures DoADC(r).f.d == r.f.d
  {
    hide AddLow, AddHigh, AddMiddle, Byte;
  }

  lemma SbcKeepsMode(r: Regs)
    ensures DoSBC(r).f.d == r.f.d
  {
    hide SubDecimal, Byte;
  }

  /** The bytes a run of LDA, ADC and STA leaves, lowest first, with the carry passed along. */
  function AddChain(r: Regs, a: seq<u8>, b: seq<u8>): (seq<u8>, Regs)
    requires |a| == |b|
    decreases |a|
  {
    if a == [] then ([], r) else
      var t := AddByte(r, a[0], b[0]);
      var (rest, last) := AddChain(t, a[1..], b[1..]);
      ([t.a] + rest, last)
  }

  function SubChain(r: Regs, a: seq<u8>, b: seq<u8>): (seq<u8>, Regs)
    requires |a| == |b|
    decreases |a|
  {
    if a == [] then ([], r) else
      var t := SubByte(r, a[0], b[0]);
      var (rest, last) := SubChain(t, a[1..], b[1..]);
      ([t.a] + rest, last)
  }

  /** Chained ADC is multi-precision addition, in either mode. */
  lemma {:induction false} AddChainAdds(r: Regs, a: seq<u8>, b: seq<u8>)
    requires |a| == |b| && AllDigits(a, r.f.d) && AllDigits(b, r.f.d)
    ensures var (sum, last) := AddChain(r, a, b);
            && |sum| == |a| && AllDigits(sum, r.f.d)
            && Number(sum, r.f.d, Weight(last.f.c, 1)) == Number(a, r.f.d, 0) + Number(b, r.f.d, 0) + Weight(r.f.c, 1)
    decreases |a|
  {
    hide AddByte, Digit, IsDigit;
    if a != [] {
      AddByteIsDigitSum(r, a[0], b[0]);
      var t := AddByte(r, a[0], b[0]);
      AddChainAdds(t, a[1..], b[1..]);
      var (rest, last) := AddChain(t, a[1..], b[1..]);
      var sum := [t.a] + rest;
      assert sum[1..] == rest;
      assert forall i | 0 < i < |sum| :: sum[i] == rest[i - 1];
    }
  }

  /** Chained SBC is multi-precision subtraction, in either mode. */
  lemma {:induction false} SubChainSubtracts(r: Regs, a: seq<u8>, b: seq<u8>)
    requires |a| == |b| && AllDigits(a, r.f.d) && AllDigits(b, r.f.d)
    ensures var (diff, last) := SubChain(r, a, b);
            && |diff| == |a| && AllDigits(diff, r.f.d)
            && Number(diff, r.f.d, -Weight(!last.f.c, 1)) == Number(a, r.f.d, 0) - Number(b, r.f.d, 0) - Weight(!r.f.c, 1)
    decreases |a|
  {
    hide SubByte, Digit, IsDigit;
    if a != [] {
      SubByteIsDigitDifference(r, a[0], b[0]);
      var t := SubByte(r, a[0], b[0]);
      SubChainSubtracts(t, a[1..], b[1..]);
      var (rest, last) := SubChain(t, a[1..], b[1..]);
      var diff := [t.a] + rest;
      assert diff[1..] == rest;
      assert forall i | 0 < i < |diff| :: diff[i] == rest[i - 1];
    }
  }

  lemma SameDigit(a: u8, b: u8, decimal: bool)
    requires IsDigit(a, decimal) && IsDigit(b, decimal) && Digit(a, decimal) == Digit(b, decimal)
    ensures a == b
  {
  }

  lemma DigitBelowBase(a: u8, decimal: bool)
    requires IsDigit(a, decimal)
    ensures 0 <= Digit(a, decimal) < Base(decimal)
  {
  }

  /** One byte: subtracting b with the matching borrow gives a and the matching borrow back. */
  lemma SubByteUndoesAddByte(r: Regs, q: Regs, a: u8, b: u8)
    requires IsDigit(a, r.f.d) && IsDigit(b, r.f.d) && q.f.d == r.f.d && q.f.c == !r.f.c
    ensures var t := AddByte(r, a, b); var u := SubByte(q, t.a, b);
            u.a == a && u.f.c == !t.f.c && t.f.d == u.f.d == r.f.d && IsDigit(t.a, r.f.d)
  {
    hide AddByte, SubByte;
    AddByteIsDigitSum(r, a, b);
    var t := AddByte(r, a, b);
    SubByteIsDigitDifference(q, t.a, b);
    var u := SubByte(q, t.a, b);
    DigitBelowBase(a, r.f.d);
    DigitBelowBase(u.a, r.f.d);
    hide Digit, IsDigit;
    SameDigit(u.a, a, r.f.d);
  }

  /** Chained SBC with the matching borrow undoes chained ADC, for any number of bytes in either mode. */
  lemma {:induction false} SubChainUndoesAddChain(r: Regs, q: Regs, a: seq<u8>, b: seq<u8>)
    requires |a| == |b| && AllDigits(a, r.f.d) && AllDigits(b, r.f.d)
    requires q.f.d == r.f.d && q.f.c == !r.f.c
    ensures var (sum, last) := AddChain(r, a, b);
            |sum| == |a| && SubChain(q, sum, b).0 == a && SubChain(q, sum, b).1.f.c == !last.f.c
    decreases |a|
  {
    hide AddByte, SubByte, Digit, IsDigit;
    if a != [] {
      SubByteUndoesAddByte(r, q, a[0], b[0]);
      var t := AddByte(r, a[0], b[0]);
      var u := SubByte(q, t.a, b[0]);
      SubChainUndoesAddChain(t, u, a[1..], b[1..]);
      var (rest, last) := AddChain(t, a[1..], b[1..]);
      var sum := [t.a] + rest;
      assert sum[1..] == rest;
      assert SubChain(q, sum, b).0 == [u.a] + SubChain(u, rest, b[1..]).0;
    }
  }
}
