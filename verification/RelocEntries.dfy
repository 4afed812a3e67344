/**
 What a relocated file holds, told from the bytes of its tables alone (src/reloc65.cpp): which bytes an entry names,
 whether they move, and by how much.
 */
module RelocEntries {
  import opened Arith
  import opened RelocSpec
  import opened RelocLayout
  import opened RelocTheorems
  import Reloc65Code

  // ----- One entry -----

  /** An offset and a type: the top three bits say what is named, the low three which segment it refers to. */
  lemma EntryByBits(m: Bytes, base: nat, len: nat, adr: int, free: nat, tab: nat, t: bv8)
    requires adr >= -1 && tab + 1 < |m| && 0 < m[tab] < 255 && m[tab + 1] == t as int
    requires EntryAt(m, base, len, adr, free, tab).Entry?
    ensures var e, p := EntryAt(m, base, len, adr, free, tab), base + adr + m[tab];
            && e.adr == adr + m[tab]
            && (t & 0xe0 == 0x80 <==> e.fields == [WordField(p, t & 0x07 == 2)])
            && (t & 0xe0 == 0x40 <==> e.fields == [HighField(p, tab + 2, t & 0x07 == 2)])
            && (t & 0xe0 == 0x20 <==> e.fields == [LowField(p, t & 0x07 == 2)])
            && (t & 0xe0 != 0x80 && t & 0xe0 != 0x40 && t & 0xe0 != 0x20 <==> e.fields == [])
            && e.next == tab + 2 + (if t & 0xe0 == 0x40 then 1 else 0) + (if t & 0x07 == 0 then 2 else 0)
  {
    TypeBits(t);
  }

  /** The three kinds of entries, with the position of their field. */
  lemma EntryFieldsAt(m: Bytes, base: nat, len: nat, adr: int, free: nat, tab: nat, t: bv8, p: nat)
    requires adr >= -1 && tab + 1 < |m| && 0 < m[tab] < 255 && m[tab + 1] == t as int
    requires EntryAt(m, base, len, adr, free, tab).Entry? && p == base + adr + m[tab]
    ensures var fs := EntryAt(m, base, len, adr, free, tab).fields;
            && (t & 0xe0 == 0x80 ==> fs == [WordField(p, t & 0x07 == 2)])
            && (t & 0xe0 == 0x40 ==> fs == [HighField(p, tab + 2, t & 0x07 == 2)])
            && (t & 0xe0 == 0x20 ==> fs == [LowField(p, t & 0x07 == 2)])
  {
    EntryByBits(m, base, len, adr, free, tab, t);
    hide EntryAt;
  }

  lemma TypeBits(t: bv8)
    ensures KindOf(t as int) == ((t & 0xe0) >> 5) as int && SegmentOf(t as int) == (t & 0x07) as int
  {
  }

  // ----- An entry of a table -----

  /** The walk from one place of a table comes by another. */
  predicate ComesBy(m: Bytes, base: nat, len: nat, adr: int, free: nat, tab: nat, adr1: int, free1: nat, tab1: nat)
    decreases |m| - tab
  {
    (adr == adr1 && free == free1 && tab == tab1) ||
    (&& tab < |m|
     && var e := EntryAt(m, base, len, adr, free, tab);
        e.Entry? && ComesBy(m, base, len, e.adr, e.free, e.next, adr1, free1, tab1))
  }

  lemma {:induction false} OffsetBound(m: Bytes, base: nat, len: nat, adr: int, free: nat, tab: nat, adr1: int, free1: nat, tab1: nat)
    requires adr >= -1 && ComesBy(m, base, len, adr, free, tab, adr1, free1, tab1)
    ensures adr1 >= -1
    decreases |m| - tab
  {
    if !(adr == adr1 && free == free1 && tab == tab1) {
      var e := EntryAt(m, base, len, adr, free, tab);
      OffsetBound(m, base, len, e.adr, e.free, e.next, adr1, free1, tab1);
    }
  }

  /** What the entry names, the table names. */
  lemma {:induction false} TableNames(m: Bytes, base: nat, len: nat, adr: int, free: nat, tab: nat,
                                      adr1: int, free1: nat, tab1: nat, f: Field)
    requires WalkTable(m, base, len, adr, free, tab).Walk? && ComesBy(m, base, len, adr, free, tab, adr1, free1, tab1)
    requires tab1 < |m| && EntryAt(m, base, len, adr1, free1, tab1).Entry?
    requires f in EntryAt(m, base, len, adr1, free1, tab1).fields
    ensures f in WalkTable(m, base, len, adr, free, tab).fields
    decreases |m| - tab
  {
    hide EntryAt;
    if !(adr == adr1 && free == free1 && tab == tab1) {
      var e := EntryAt(m, base, len, adr, free, tab);
      TableNames(m, base, len, e.adr, e.free, e.next, adr1, free1, tab1, f);
    }
  }

  lemma {:induction false} GlobalsName(m: Bytes, at: nat, n: nat, at1: nat, n1: nat)
    requires WalkGlobals(m, at, n).Walk? && GlobalsComeBy(m, at, n, at1, n1) && n1 > 0
    ensures var p := NameEnd(m, at1);
            p + 2 < |m| && WordField(p + 1, m[p] == 2) in WalkGlobals(m, at, n).fields
    decreases n
  {
    hide NameEnd;
    if !(at == at1 && n == n1) {
      GlobalsName(m, NameEnd(m, at) + 3, n - 1, at1, n1);
    }
  }

  predicate GlobalsComeBy(m: Bytes, at: nat, n: nat, at1: nat, n1: nat)
    decreases n
  {
    (at == at1 && n == n1) || (n > 0 && GlobalsComeBy(m, NameEnd(m, at) + 3, n - 1, at1, n1))
  }

  // ----- In the relocated file -----

  /** Where the tables of a file begin: behind the segments and the list of undefined references; the table of the
      data segment behind that of the text segment; the globals behind both. */
  ghost predicate InTextTable(m: Bytes, adr: int, free: nat, tab: nat)
    requires WellFormed(m)
  {
    var s := SectionsOf(m);
    && HasWord(m, s.utab) && tab < |m|
    && ComesBy(m, s.segt, s.tlen, -1, 0, UndefEnd(m, s.utab + 2, GetWord(m, s.utab)), adr, free, tab)
    && EntryAt(m, s.segt, s.tlen, adr, free, tab).Entry?
  }

  ghost predicate InDataTable(m: Bytes, adr: int, free: nat, tab: nat)
    requires WellFormed(m)
  {
    var s := SectionsOf(m);
    && HasWord(m, s.utab) && tab < |m|
    && ComesBy(m, s.segd, s.dlen, -1, 0,
               WalkTable(m, s.segt, s.tlen, -1, 0, UndefEnd(m, s.utab + 2, GetWord(m, s.utab))).next, adr, free, tab)
    && EntryAt(m, s.segd, s.dlen, adr, free, tab).Entry?
  }

  /** A list of references that is empty takes its two bytes and no more, and a file without options has its text
      behind the byte that says so; the lengths are in bytes 10 and 11, and 14 and 15. */
  lemma PlainSections(m: Bytes)
    requires |m| > HEADER_SIZE && m[26] == 0
    ensures var s := SectionsOf(m);
            && s.segt == 27 && s.segd == 27 + m[10] + 0x100 * m[11] as int && s.utab == s.segd + m[14] + 0x100 * m[15] as int
    ensures forall at: nat :: UndefEnd(m, at, 0) == at
  {
  }

  lemma FieldMoves(m: Bytes, base: int, f: Field)
    requires WellFormed(m) && f in Fields(m)
    ensures Placed(f, |m|)
    ensures Value(Relocated(m, base), f) == (Value(m, f) + if f.moved then base - Base(m) else 0) % Modulus(f)
  {
    hide Fields, WellFormed, Relocated, Value, Placed;
    var k :| 0 <= k < |Fields(m)| && Fields(m)[k] == f;
    RelocatedFields(m, base, k);
  }

  lemma TextNames(m: Bytes, adr: int, free: nat, tab: nat, f: Field)
    requires WellFormed(m) && InTextTable(m, adr, free, tab)
    requires var s := SectionsOf(m); f in EntryAt(m, s.segt, s.tlen, adr, free, tab).fields
    ensures f in Fields(m)
  {
    hide WellFormed, Fields, EntryAt, ComesBy, SectionsOf, UndefEnd, WalkTable, WalkGlobals;
    var s := SectionsOf(m);
    var rttab, text, data, globals := Reloc65Code.FileWalks(m);
    TableNames(m, s.segt, s.tlen, -1, 0, rttab, adr, free, tab, f);
  }

  lemma DataNames(m: Bytes, adr: int, free: nat, tab: nat, f: Field)
    requires WellFormed(m) && InDataTable(m, adr, free, tab)
    requires var s := SectionsOf(m); f in EntryAt(m, s.segd, s.dlen, adr, free, tab).fields
    ensures f in Fields(m)
  {
    hide WellFormed, Fields, EntryAt, ComesBy, SectionsOf, UndefEnd, WalkTable, WalkGlobals;
    var s := SectionsOf(m);
    var rttab, text, data, globals := Reloc65Code.FileWalks(m);
    TableNames(m, s.segd, s.dlen, -1, 0, text.next, adr, free, tab, f);
  }

  /** What the relocated file holds where an entry points, byte by byte. */
  ghost predicate Moves(m: Bytes, r: Bytes, p: nat, low: nat, t: bv8, base: int) {
    && |r| == |m| && 9 < |m|
    && var d := if t & 0x07 == 2 then base - (m[8] + 0x100 * m[9] as int) else 0;
       && (t & 0xe0 == 0x80 ==> p + 1 < |m| && r[p] + 0x100 * r[p + 1] as int == (m[p] + 0x100 * m[p + 1] as int + d) % 0x1_0000)
       && (t & 0xe0 == 0x40 ==> p < |m| && low < |m| && r[low] + 0x100 * r[p] as int == (m[low] + 0x100 * m[p] as int + d) % 0x1_0000)
       && (t & 0xe0 == 0x20 ==> p < |m| && r[p] == (m[p] + d) % 0x100)
  }

  lemma MovedField(m: Bytes, base: int, fs: seq<Field>, p: nat, low: nat, t: bv8)
    requires WellFormed(m) && forall f | f in fs :: f in Fields(m)
    requires t & 0xe0 == 0x80 ==> fs == [WordField(p, t & 0x07 == 2)]
    requires t & 0xe0 == 0x40 ==> fs == [HighField(p, low, t & 0x07 == 2)]
    requires t & 0xe0 == 0x20 ==> fs == [LowField(p, t & 0x07 == 2)]
    ensures Moves(m, Relocated(m, base), p, low, t, base)
  {
    hide WellFormed, Fields, Relocated;
    var moved := t & 0x07 == 2;
    if t & 0xe0 == 0x80 {
      assert fs[0] in fs;
      MovedWord(m, base, p, moved);
    } else if t & 0xe0 == 0x40 {
      assert fs[0] in fs;
      MovedHigh(m, base, p, low, moved);
    } else if t & 0xe0 == 0x20 {
      assert fs[0] in fs;
      MovedLow(m, base, p, moved);
    }
  }

  /** Values and the base are stored low byte first. */
  lemma InBytes(m: Bytes, f: Field)
    requires |m| >= HEADER_SIZE && Placed(f, |m|)
    ensures Base(m) == m[8] + 0x100 * m[9] as int
    ensures f.WordField? ==> f.at + 1 < |m| && Modulus(f) == 0x1_0000 && Value(m, f) == m[f.at] + 0x100 * m[f.at + 1] as int
    ensures f.HighField? ==>
              f.at < |m| && f.low < |m| && Modulus(f) == 0x1_0000 && Value(m, f) == m[f.low] + 0x100 * m[f.at] as int
    ensures f.LowField? ==> f.at < |m| && Modulus(f) == 0x100 && Value(m, f) == m[f.at]
  {
  }

  lemma MovedWord(m: Bytes, base: int, p: nat, moved: bool)
    requires WellFormed(m) && WordField(p, moved) in Fields(m)
    ensures p + 1 < |m|
    ensures var r, d := Relocated(m, base), if moved then base - (m[8] + 0x100 * m[9] as int) else 0;
            r[p] + 0x100 * r[p + 1] as int == (m[p] + 0x100 * m[p + 1] as int + d) % 0x1_0000
  {
    hide WellFormed, Fields, Relocated;
    FieldMoves(m, base, WordField(p, moved));
    InBytes(m, WordField(p, moved));
    InBytes(Relocated(m, base), WordField(p, moved));
    hide Value, Modulus, Base, Placed;
  }

  lemma MovedHigh(m: Bytes, base: int, p: nat, low: nat, moved: bool)
    requires WellFormed(m) && HighField(p, low, moved) in Fields(m)
    ensures p < |m| && low < |m|
    ensures var r, d := Relocated(m, base), if moved then base - (m[8] + 0x100 * m[9] as int) else 0;
            r[low] + 0x100 * r[p] as int == (m[low] + 0x100 * m[p] as int + d) % 0x1_0000
  {
    hide WellFormed, Fields, Relocated;
    FieldMoves(m, base, HighField(p, low, moved));
    InBytes(m, HighField(p, low, moved));
    InBytes(Relocated(m, base), HighField(p, low, moved));
    hide Value, Modulus, Base, Placed;
  }

  lemma MovedLow(m: Bytes, base: int, p: nat, moved: bool)
    requires WellFormed(m) && LowField(p, moved) in Fields(m)
    ensures p < |m|
    ensures var r, d := Relocated(m, base), if moved then base - (m[8] + 0x100 * m[9] as int) else 0;
            r[p] == (m[p] + d) % 0x100
  {
    hide WellFormed, Fields, Relocated;
    FieldMoves(m, base, LowField(p, moved));
    InBytes(m, LowField(p, moved));
    InBytes(Relocated(m, base), LowField(p, moved));
    hide Value, Modulus, Base, Placed;
  }

  lemma EntryMoves(m: Bytes, base: int, seg: nat, len: nat, adr: int, free: nat, tab: nat, t: bv8)
    requires WellFormed(m) && adr >= -1 && tab + 1 < |m| && 0 < m[tab] < 255 && m[tab + 1] == t as int
    requires EntryAt(m, seg, len, adr, free, tab).Entry?
    requires forall f | f in EntryAt(m, seg, len, adr, free, tab).fields :: f in Fields(m)
    ensures Moves(m, Relocated(m, base), seg + adr + m[tab], tab + 2, t, base)
  {
    hide WellFormed, Fields, EntryAt, Relocated, Moves;
    var p: nat := seg + adr + m[tab];
    EntryFieldsAt(m, seg, len, adr, free, tab, t, p);
    MovedField(m, base, EntryAt(m, seg, len, adr, free, tab).fields, p, tab + 2, t);
  }

  /** An entry of the text table, from its bytes to the relocated file. */
  lemma TextEntryMoves(m: Bytes, base: int, adr: int, free: nat, tab: nat, t: bv8)
    requires WellFormed(m) && InTextTable(m, adr, free, tab) && 0 < m[tab] < 255
    requires tab + 1 < |m| && m[tab + 1] == t as int
    ensures adr >= -1
    ensures Moves(m, Relocated(m, base), SectionsOf(m).segt + adr + m[tab], tab + 2, t, base)
  {
    hide WellFormed, Fields, SectionsOf, EntryAt, Relocated, ComesBy, UndefEnd, Moves;
    var s := SectionsOf(m);
    OffsetBound(m, s.segt, s.tlen, -1, 0, UndefEnd(m, s.utab + 2, GetWord(m, s.utab)), adr, free, tab);
    forall f | f in EntryAt(m, s.segt, s.tlen, adr, free, tab).fields ensures f in Fields(m) {
      TextNames(m, adr, free, tab, f);
    }
    EntryMoves(m, base, s.segt, s.tlen, adr, free, tab, t);
  }

  /** An entry of the data table. */
  lemma DataEntryMoves(m: Bytes, base: int, adr: int, free: nat, tab: nat, t: bv8)
    requires WellFormed(m) && InDataTable(m, adr, free, tab) && 0 < m[tab] < 255
    requires tab + 1 < |m| && m[tab + 1] == t as int
    ensures adr >= -1
    ensures Moves(m, Relocated(m, base), SectionsOf(m).segd + adr + m[tab], tab + 2, t, base)
  {
    hide WellFormed, Fields, SectionsOf, EntryAt, Relocated, ComesBy, UndefEnd, WalkTable, Moves;
    var s := SectionsOf(m);
    OffsetBound(m, s.segd, s.dlen, -1, 0, TextTableEnd(m), adr, free, tab);
    forall f | f in EntryAt(m, s.segd, s.dlen, adr, free, tab).fields ensures f in Fields(m) {
      DataNames(m, adr, free, tab, f);
    }
    EntryMoves(m, base, s.segd, s.dlen, adr, free, tab, t);
  }

  /** The exported globals: behind each name a segment, and a word that moves if the segment is 2. */
  lemma GlobalMoves(m: Bytes, base: int, extab: nat, at: nat, n: nat)
    requires WellFormed(m) && n > 0
    requires var s := SectionsOf(m);
             var data := WalkTable(m, s.segd, s.dlen, -1, 0, TextTableEnd(m));
             data.Walk? && extab == data.next && HasWord(m, extab) && GlobalsComeBy(m, extab + 2, GetWord(m, extab), at, n)
    ensures var p, r := NameEnd(m, at), Relocated(m, base);
            && p + 2 < |m|
            && r[p + 1] + 0x100 * r[p + 2] as int ==
               (m[p + 1] + 0x100 * m[p + 2] as int + if m[p] == 2 then base - (m[8] + 0x100 * m[9] as int) else 0) % 0x1_0000
  {
    hide WellFormed, Fields, SectionsOf, UndefEnd, WalkTable, WalkGlobals, NameEnd, GlobalsComeBy, Relocated;
    var rttab, text, data, globals := Reloc65Code.FileWalks(m);
    GlobalsName(m, extab + 2, GetWord(m, extab), at, n);
    var p := NameEnd(m, at);
    FieldMoves(m, base, WordField(p + 1, m[p] == 2));
  }

  function TextTableEnd(m: Bytes): nat
    requires WellFormed(m)
  {
    var s := SectionsOf(m);
    WalkTable(m, s.segt, s.tlen, -1, 0, UndefEnd(m, s.utab + 2, GetWord(m, s.utab))).next
  }

  /** The header: refused are 32-bit and pagewise relocated files, by bits 5 and 6 of byte 7. */
  lemma HeaderByBits(m: Bytes, mode: bv8)
    requires |m| >= HEADER_SIZE && m[7] == mode as int
    ensures IsO65(m) <==> m[..5] == [1, 0, 0x6f, 0x36, 0x35] && mode & 0x20 == 0 && mode & 0x40 == 0
  {
    ModeBits(mode);
  }

  lemma ModeBits(mode: bv8)
    ensures (mode as int) / 0x20 % 4 == 0 <==> mode & 0x20 == 0 && mode & 0x40 == 0
  {
    assert (mode >> 5) & 3 == 0 <==> mode & 0x60 == 0;
    assert ((mode >> 5) & 3) as int == (mode as int) / 0x20 % 4;
  }
}
