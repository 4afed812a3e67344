/**
 Relocating an o65 file (src/reloc65.cpp): the tables name disjoint fields, relocating does not move the tables,
 and relocations compose and can be undone.
 */
module RelocTheorems {
  import opened Arith
  import opened RelocSpec
  import opened RelocLayout

  function Range(lo: nat, hi: nat): (s: set<nat>)
    ensures forall p: nat :: p in s <==> lo <= p < hi
    decreases hi - lo
  {
    if lo >= hi then {} else {lo} + Range(lo + 1, hi)
  }

  ghost predicate AllIn(fs: seq<Field>, region: set<nat>) { forall k | 0 <= k < |fs| :: Cells(fs[k]) <= region }

  ghost predicate Named(fs: seq<Field>, p: nat) { exists k :: 0 <= k < |fs| && p in Cells(fs[k]) }

  /** The two files are the same in this range but for the fields named. */
  ghost predicate AgreeOn(m: Bytes, r: Bytes, lo: nat, hi: nat, fs: seq<Field>) {
    |m| == |r| && forall p: nat | lo <= p < hi && p < |m| && !Named(fs, p) :: r[p] == m[p]
  }

  lemma InRegion(fs: seq<Field>, region: set<nat>, p: nat)
    requires AllIn(fs, region) && p !in region
    ensures !Named(fs, p)
  {
  }

  lemma NamedInEither(a: seq<Field>, b: seq<Field>, p: nat)
    ensures Named(a + b, p) <==> Named(a, p) || Named(b, p)
  {
    hide Cells;
    if Named(a + b, p) {
      var k :| 0 <= k < |a + b| && p in Cells((a + b)[k]);
      if k < |a| {
        assert p in Cells(a[k]);
      } else {
        assert p in Cells(b[k - |a|]);
      }
    }
    if Named(a, p) {
      var k :| 0 <= k < |a| && p in Cells(a[k]);
      assert p in Cells((a + b)[k]);
    }
    if Named(b, p) {
      var k :| 0 <= k < |b| && p in Cells(b[k]);
      assert p in Cells((a + b)[|a| + k]);
    }
  }

  lemma NothingNamed(p: nat)
    ensures !Named([], p)
  {
  }

  lemma {:induction false} ConcatDisjoint(a: seq<Field>, b: seq<Field>, r: set<nat>, t: set<nat>)
    requires Disjoint(a) && Disjoint(b) && AllIn(a, r) && AllIn(b, t) && r !! t
    ensures Disjoint(a + b)
    decreases |a|
  {
    hide Cells;
    if a == [] {
      assert a + b == b;
    } else {
      ConcatDisjoint(a[1..], b, r, t);
      assert (a + b)[1..] == a[1..] + b;
      assert Apart(a[0], a[1..] + b);
    }
  }

  // ----- One relocation table -----

  ghost function EntryRegion(base: nat, free: nat, tab: nat, e: Entry): set<nat>
    requires e.Entry?
  {
    Range(base + free, base + e.free) + Range(tab + 2, e.next)
  }

  ghost function TableRegion(base: nat, len: nat, free: nat, tab: nat, next: nat): set<nat> {
    Range(base + free, base + len) + Range(tab, next)
  }

  /** An entry names bytes of the unused part of the segment and of its own third byte, never what it is read from. */
  lemma EntryShape(m: Bytes, base: nat, len: nat, adr: int, free: nat, tab: nat)
    requires tab < |m| && free <= len && base + len <= tab && EntryAt(m, base, len, adr, free, tab).Entry?
    ensures var e := EntryAt(m, base, len, adr, free, tab);
            && free <= e.free <= len && Disjoint(e.fields) && AllPlaced(e.fields, |m|)
            && AllIn(e.fields, EntryRegion(base, free, tab, e)) && (m[tab] != 255 ==> tab + 2 <= e.next)
  {
    var e := EntryAt(m, base, len, adr, free, tab);
    if e.fields != [] {
      var f := e.fields[0];
      assert e.fields == [f];
      assert f.at >= base + free;
    }
  }

  /** An entry is read from its first two bytes only. */
  lemma EntryStands(m: Bytes, r: Bytes, base: nat, len: nat, adr: int, free: nat, tab: nat)
    requires tab < |m| == |r| && EntryAt(m, base, len, adr, free, tab) != Bad
    requires r[tab] == m[tab] && (tab + 1 < |m| && m[tab] != 0 && m[tab] != 255 ==> r[tab + 1] == m[tab + 1])
    ensures EntryAt(r, base, len, adr, free, tab) == EntryAt(m, base, len, adr, free, tab)
  {
  }

  lemma EmptyDisjoint()
    ensures Disjoint([])
  {
  }

  lemma Join(a: seq<Field>, b: seq<Field>, r: set<nat>, t: set<nat>, n: nat)
    requires Disjoint(a) && Disjoint(b) && AllIn(a, r) && AllIn(b, t) && r !! t && AllPlaced(a, n) && AllPlaced(b, n)
    ensures Disjoint(a + b) && AllIn(a + b, r + t) && AllPlaced(a + b, n)
  {
    ConcatDisjoint(a, b, r, t);
    hide Cells, Placed;
  }

  lemma Widen(fs: seq<Field>, r: set<nat>, t: set<nat>)
    requires AllIn(fs, r) && r <= t
    ensures AllIn(fs, t)
  {
    hide Cells;
  }

  /** A table's fields are disjoint: they lie in the unused part of the segment, or in the table itself. */
  lemma {:induction false} TableShape(m: Bytes, base: nat, len: nat, adr: int, free: nat, tab: nat)
    requires free <= len && base + len <= tab && WalkTable(m, base, len, adr, free, tab).Walk?
    ensures var w := WalkTable(m, base, len, adr, free, tab);
            && tab < w.next <= |m| && Disjoint(w.fields) && AllPlaced(w.fields, |m|)
            && AllIn(w.fields, TableRegion(base, len, free, tab, w.next))
    decreases |m| - tab
  {
    hide EntryAt, Range, AllIn, Placed, Disjoint;
    var w := WalkTable(m, base, len, adr, free, tab);
    var e := EntryAt(m, base, len, adr, free, tab);
    if e.End? {
      EmptyDisjoint();
      NothingIn(TableRegion(base, len, free, tab, w.next));
    } else {
      EntryShape(m, base, len, adr, free, tab);
      TableShape(m, base, len, e.adr, e.free, e.next);
      var t := WalkTable(m, base, len, e.adr, e.free, e.next);
      var r, u := EntryRegion(base, free, tab, e), TableRegion(base, len, e.free, e.next, t.next);
      Join(e.fields, t.fields, r, u, |m|);
      Widen(w.fields, r + u, TableRegion(base, len, free, tab, w.next));
    }
  }

  lemma NothingIn(r: set<nat>)
    ensures AllIn([], r)
  {
  }

  /** The walk reads no byte that it names for relocation, so it does not notice that they change. */
  lemma {:induction false} TableStands(m: Bytes, r: Bytes, base: nat, len: nat, adr: int, free: nat, tab: nat)
    requires free <= len && base + len <= tab && WalkTable(m, base, len, adr, free, tab).Walk?
    requires var w := WalkTable(m, base, len, adr, free, tab); AgreeOn(m, r, tab, w.next, w.fields)
    ensures WalkTable(r, base, len, adr, free, tab) == WalkTable(m, base, len, adr, free, tab)
    decreases |m| - tab
  {
    hide EntryAt, Range, AllIn, Placed, Disjoint, Named;
    var w := WalkTable(m, base, len, adr, free, tab);
    var e := EntryAt(m, base, len, adr, free, tab);
    TableShape(m, base, len, adr, free, tab);
    if e.End? {
      NothingNamed(tab);
      EndStands(m, r, base, len, adr, free, tab);
    } else {
      EntryShape(m, base, len, adr, free, tab);
      TableShape(m, base, len, e.adr, e.free, e.next);
      var t := WalkTable(m, base, len, e.adr, e.free, e.next);
      SplitNames(e.fields, t.fields, EntryRegion(base, free, tab, e), TableRegion(base, len, e.free, e.next, t.next), tab, e.next);
      EntryStands(m, r, base, len, adr, free, tab);
      TableStands(m, r, base, len, e.adr, e.free, e.next);
    }
  }

  lemma EndStands(m: Bytes, r: Bytes, base: nat, len: nat, adr: int, free: nat, tab: nat)
    requires tab < |m| == |r| && EntryAt(m, base, len, adr, free, tab).End? && r[tab] == m[tab]
    ensures EntryAt(r, base, len, adr, free, tab).End?
  {
  }

  lemma SplitNames(a: seq<Field>, b: seq<Field>, r: set<nat>, t: set<nat>, tab: nat, next: nat)
    requires AllIn(a, r) && AllIn(b, t)
    requires tab !in r && tab !in t && (tab + 1 < next ==> tab + 1 !in r && tab + 1 !in t)
    requires forall p: nat | p in r :: p < next
    ensures !Named(a + b, tab) && (tab + 1 < next ==> !Named(a + b, tab + 1))
    ensures forall p: nat | next <= p && !Named(b, p) :: !Named(a + b, p)
  {
    hide Named, AllIn;
    NotNamed(a, b, r, t, tab);
    if tab + 1 < next {
      NotNamed(a, b, r, t, tab + 1);
    }
    forall p: nat | next <= p && !Named(b, p) ensures !Named(a + b, p) {
      NotNamedAgain(a, b, r, p);
    }
  }

  // ----- Exported globals -----

  lemma {:induction false} NameStands(m: Bytes, r: Bytes, at: nat)
    requires |m| == |r| && forall p: nat | at <= p < NameEnd(m, at) && p < |m| :: r[p] == m[p]
    ensures NameEnd(r, at) == NameEnd(m, at)
    decreases |m| - at
  {
    if at < |m| && m[at] != 0 {
      NameStands(m, r, at + 1);
    }
  }

  lemma {:induction false} GlobalsShape(m: Bytes, at: nat, n: nat)
    requires WalkGlobals(m, at, n).Walk? && at <= |m|
    ensures var w := WalkGlobals(m, at, n);
            && at <= w.next <= |m| && Disjoint(w.fields) && AllPlaced(w.fields, |m|)
            && AllIn(w.fields, Range(at, w.next))
    decreases n
  {
    hide Range, AllIn, Placed, Disjoint, NameEnd;
    if n == 0 {
      EmptyDisjoint();
      NothingIn(Range(at, at));
    } else {
      var p := NameEnd(m, at);
      var f := WordField(p + 1, m[p] == 2);
      GlobalsShape(m, p + 3, n - 1);
      var t := WalkGlobals(m, p + 3, n - 1);
      OneWord(f, |m|);
      Join([f], t.fields, Range(p + 1, p + 3), Range(p + 3, t.next), |m|);
      Widen([f] + t.fields, Range(p + 1, p + 3) + Range(p + 3, t.next), Range(at, t.next));
    }
  }

  lemma OneWord(f: Field, n: nat)
    requires f.WordField? && f.at + 1 < n
    ensures Disjoint([f]) && AllPlaced([f], n) && AllIn([f], Range(f.at, f.at + 2))
  {
  }

  lemma {:induction false} GlobalsStand(m: Bytes, r: Bytes, at: nat, n: nat)
    requires WalkGlobals(m, at, n).Walk? && at <= |m|
    requires var w := WalkGlobals(m, at, n); AgreeOn(m, r, at, w.next, w.fields)
    ensures WalkGlobals(r, at, n) == WalkGlobals(m, at, n)
    decreases n
  {
    hide Range, AllIn, Placed, Disjoint, NameEnd, Named;
    if n > 0 {
      var p := NameEnd(m, at);
      var f := WordField(p + 1, m[p] == 2);
      GlobalsShape(m, p + 3, n - 1);
      var t := WalkGlobals(m, p + 3, n - 1);
      OneWord(f, |m|);
      forall q: nat | at <= q <= p ensures r[q] == m[q] {
        NotNamed([f], t.fields, Range(p + 1, p + 3), Range(p + 3, t.next), q);
      }
      NameStands(m, r, at);
      forall q: nat | p + 3 <= q && !Named(t.fields, q) ensures !Named([f] + t.fields, q) {
        NotNamedAgain([f], t.fields, Range(p + 1, p + 3), q);
      }
      GlobalsStand(m, r, p + 3, n - 1);
    }
  }

  lemma NotNamed(a: seq<Field>, b: seq<Field>, r: set<nat>, t: set<nat>, p: nat)
    requires AllIn(a, r) && AllIn(b, t) && p !in r && p !in t
    ensures !Named(a + b, p)
  {
    NamedInEither(a, b, p);
    InRegion(a, r, p);
    InRegion(b, t, p);
  }

  lemma NotNamedAgain(a: seq<Field>, b: seq<Field>, r: set<nat>, p: nat)
    requires AllIn(a, r) && p !in r
    ensures Named(a + b, p) == Named(b, p)
  {
    NamedInEither(a, b, p);
    InRegion(a, r, p);
  }

  // ----- The whole file -----

  lemma SectionsBehindHeader(m: Bytes)
    requires |m| >= HEADER_SIZE
    ensures HEADER_SIZE < SectionsOf(m).segt <= SectionsOf(m).segd <= SectionsOf(m).utab
  {
    OptionsEndBehind(m, HEADER_SIZE);
  }

  lemma {:induction false} OptionsEndBehind(m: Bytes, p: nat)
    ensures OptionsEnd(m, p) > p
    decreases |m| - p
  {
    if p < |m| && m[p] != 0 {
      OptionsEndBehind(m, p + m[p]);
    }
  }

  lemma {:induction false} OptionsStand(m: Bytes, r: Bytes, p: nat)
    requires |m| == |r| && forall q: nat | p <= q < OptionsEnd(m, p) && q < |m| :: r[q] == m[q]
    ensures OptionsEnd(r, p) == OptionsEnd(m, p)
    decreases |m| - p
  {
    OptionsEndBehind(m, p);
    if p < |m| && m[p] != 0 {
      OptionsEndBehind(m, p + m[p]);
      OptionsStand(m, r, p + m[p]);
    }
  }

  lemma {:induction false} UndefStands(m: Bytes, r: Bytes, at: nat, n: nat)
    requires |m| == |r| && forall q: nat | at <= q < UndefEnd(m, at, n) && q < |m| :: r[q] == m[q]
    ensures UndefEnd(r, at, n) == UndefEnd(m, at, n)
    decreases n, |m| - at
  {
    if n > 0 && at < |m| {
      UndefStands(m, r, at + 1, if m[at] == 0 then n else n - 1);
    }
  }

  /** The sections of the tables part, one behind the other. */
  lemma TablesShape(m: Bytes, s: Sections)
    requires WalkTables(m, s).Walk? && s.segd == s.segt + s.tlen && s.utab == s.segd + s.dlen
    ensures var rttab := UndefEnd(m, s.utab + 2, GetWord(m, s.utab));
            var text := WalkTable(m, s.segt, s.tlen, -1, 0, rttab);
            var data := WalkTable(m, s.segd, s.dlen, -1, 0, text.next);
            var globals := WalkGlobals(m, data.next + 2, GetWord(m, data.next));
            && Disjoint(text.fields + data.fields + globals.fields)
            && AllPlaced(text.fields + data.fields + globals.fields, |m|)
            && AllIn(text.fields, TableRegion(s.segt, s.tlen, 0, rttab, text.next))
            && AllIn(data.fields, TableRegion(s.segd, s.dlen, 0, text.next, data.next))
            && AllIn(globals.fields, Range(data.next + 2, globals.next))
            && s.utab + 2 <= rttab < text.next < data.next && data.next + 2 <= globals.next <= |m|
  {
    hide AllIn, Placed, Disjoint, Range, WalkTable, WalkGlobals, UndefEnd;
    var rttab := UndefEnd(m, s.utab + 2, GetWord(m, s.utab));
    TableShape(m, s.segt, s.tlen, -1, 0, rttab);
    var text := WalkTable(m, s.segt, s.tlen, -1, 0, rttab);
    TableShape(m, s.segd, s.dlen, -1, 0, text.next);
    var data := WalkTable(m, s.segd, s.dlen, -1, 0, text.next);
    GlobalsShape(m, data.next + 2, GetWord(m, data.next));
    var globals := WalkGlobals(m, data.next + 2, GetWord(m, data.next));
    var r, t := TableRegion(s.segt, s.tlen, 0, rttab, text.next), TableRegion(s.segd, s.dlen, 0, text.next, data.next);
    Join(text.fields, data.fields, r, t, |m|);
    Join(text.fields + data.fields, globals.fields, r + t, Range(data.next + 2, globals.next), |m|);
  }

  lemma TablesStand(m: Bytes, r: Bytes, s: Sections)
    requires WalkTables(m, s).Walk? && s.segd == s.segt + s.tlen && s.utab == s.segd + s.dlen
    requires AgreeOn(m, r, s.utab, |m|, WalkTables(m, s).fields)
    ensures WalkTables(r, s) == WalkTables(m, s)
  {
    hide AllIn, Placed, Disjoint, Range, WalkTable, WalkGlobals, UndefEnd, Named;
    var rttab := UndefEnd(m, s.utab + 2, GetWord(m, s.utab));
    var text := WalkTable(m, s.segt, s.tlen, -1, 0, rttab);
    var data := WalkTable(m, s.segd, s.dlen, -1, 0, text.next);
    var extab := data.next;
    var globals := WalkGlobals(m, extab + 2, GetWord(m, extab));
    TablesShape(m, s);
    var a, b, c := text.fields, data.fields, globals.fields;
    forall p: nat | s.utab <= p < |m|
      ensures (p < rttab || p == extab || p == extab + 1) ==> r[p] == m[p]
      ensures rttab <= p < text.next && !Named(a, p) ==> r[p] == m[p]
      ensures text.next <= p < extab && !Named(b, p) ==> r[p] == m[p]
      ensures extab + 2 <= p < globals.next && !Named(c, p) ==> r[p] == m[p]
    {
      WhoNames(a, b, c, TableRegion(s.segt, s.tlen, 0, rttab, text.next), TableRegion(s.segd, s.dlen, 0, text.next, extab),
               Range(extab + 2, globals.next), p);
    }
    UndefStands(m, r, s.utab + 2, GetWord(m, s.utab));
    TableStands(m, r, s.segt, s.tlen, -1, 0, rttab);
    TableStands(m, r, s.segd, s.dlen, -1, 0, text.next);
    GlobalsStand(m, r, extab + 2, GetWord(m, extab));
  }

  lemma WhoNames(a: seq<Field>, b: seq<Field>, c: seq<Field>, r: set<nat>, t: set<nat>, u: set<nat>, p: nat)
    requires AllIn(a, r) && AllIn(b, t) && AllIn(c, u)
    ensures Named(a + b + c, p) ==> (p in r && Named(a, p)) || (p in t && Named(b, p)) || (p in u && Named(c, p))
  {
    hide AllIn, Named;
    NamedInEither(a + b, c, p);
    NamedInEither(a, b, p);
    if p !in r { InRegion(a, r, p); }
    if p !in t { InRegion(b, t, p); }
    if p !in u { InRegion(c, u, p); }
  }

  /** The fields of a file are disjoint, and none is in the header but the text base. */
  lemma FieldsShape(m: Bytes)
    requires WellFormed(m)
    ensures Disjoint(Fields(m)) && AllPlaced(Fields(m), |m|)
    ensures forall p: nat | p < SectionsOf(m).segt && Named(Fields(m), p) :: TEXT_BASE <= p < TEXT_BASE + 2
    ensures forall p: nat | TEXT_BASE + 2 <= p :: Named(Fields(m), p) == Named(WalkTables(m, SectionsOf(m)).fields, p)
  {
    hide AllIn, Placed, Disjoint, Range, WalkTable, WalkGlobals, UndefEnd, Named;
    var s := SectionsOf(m);
    SectionsBehindHeader(m);
    TablesShape(m, s);
    OneWord(HEADER_FIELD, |m|);
    var fs := WalkTables(m, s).fields;
    var header := Range(TEXT_BASE, TEXT_BASE + 2);
    FieldsBehind(m, s);
    Join([HEADER_FIELD], fs, header, Range(s.segt, |m|), |m|);
    forall p: nat
      ensures p < s.segt && Named(Fields(m), p) ==> TEXT_BASE <= p < TEXT_BASE + 2
      ensures TEXT_BASE + 2 <= p ==> Named(Fields(m), p) == Named(fs, p)
    {
      NamedInEither([HEADER_FIELD], fs, p);
      if p !in header { InRegion([HEADER_FIELD], header, p); }
      if p < s.segt { InRegion(fs, Range(s.segt, |m|), p); }
    }
  }

  lemma FieldsDisjoint(m: Bytes)
    requires WellFormed(m)
    ensures Disjoint(Fields(m)) && AllPlaced(Fields(m), |m|)
  {
    FieldsShape(m);
  }

  lemma FieldsBehind(m: Bytes, s: Sections)
    requires WalkTables(m, s).Walk? && s.segd == s.segt + s.tlen && s.utab == s.segd + s.dlen
    ensures AllIn(WalkTables(m, s).fields, Range(s.segt, |m|))
    ensures Disjoint(WalkTables(m, s).fields) && AllPlaced(WalkTables(m, s).fields, |m|)
  {
    hide AllIn, Placed, Disjoint, Range, WalkTable, WalkGlobals, UndefEnd;
    TablesShape(m, s);
    var text := WalkTable(m, s.segt, s.tlen, -1, 0, UndefEnd(m, s.utab + 2, GetWord(m, s.utab)));
    var data := WalkTable(m, s.segd, s.dlen, -1, 0, text.next);
    var globals := WalkGlobals(m, data.next + 2, GetWord(m, data.next));
    var all := Range(s.segt, |m|);
    Widen(text.fields, TableRegion(s.segt, s.tlen, 0, UndefEnd(m, s.utab + 2, GetWord(m, s.utab)), text.next), all);
    Widen(data.fields, TableRegion(s.segd, s.dlen, 0, text.next, data.next), all);
    Widen(globals.fields, Range(data.next + 2, globals.next), all);
    AllInBoth(text.fields, data.fields, all);
    AllInBoth(text.fields + data.fields, globals.fields, all);
  }

  lemma AllInBoth(a: seq<Field>, b: seq<Field>, r: set<nat>)
    requires AllIn(a, r) && AllIn(b, r)
    ensures AllIn(a + b, r)
  {
    hide Cells;
  }

  lemma HeaderStands(m: Bytes, r: Bytes)
    requires |m| == |r| && |m| >= HEADER_SIZE
    requires forall p: nat | p < HEADER_SIZE && !(TEXT_BASE <= p < TEXT_BASE + 2) :: r[p] == m[p]
    ensures IsO65(r) == IsO65(m) && GetWord(r, 10) == GetWord(m, 10) && GetWord(r, 14) == GetWord(m, 14)
  {
    assert r[..5] == m[..5];
  }

  lemma SectionsStand(m: Bytes, r: Bytes)
    requires |m| == |r| && |m| >= HEADER_SIZE
    requires forall p: nat | p < SectionsOf(m).segt && p < |m| && !(TEXT_BASE <= p < TEXT_BASE + 2) :: r[p] == m[p]
    ensures IsO65(r) == IsO65(m) && SectionsOf(r) == SectionsOf(m)
  {
    SectionsBehindHeader(m);
    HeaderStands(m, r);
    OptionsStand(m, r, HEADER_SIZE);
  }

  /** A file that differs only in the fields it names is read in the same way. */
  lemma LayoutStands(m: Bytes, r: Bytes)
    requires WellFormed(m) && AgreeOn(m, r, 0, |m|, Fields(m))
    ensures WellFormed(r) && SectionsOf(r) == SectionsOf(m) && Fields(r) == Fields(m)
  {
    FieldsShape(m);
    SectionsBehindHeader(m);
    var s := SectionsOf(m);
    assert s.segd == s.segt + s.tlen && s.utab == s.segd + s.dlen;
    hide Named, WalkTables, Disjoint, AllPlaced, SectionsOf, IsO65;
    SectionsStand(m, r);
    TablesStand(m, r, s);
  }

  // ----- Relocation -----

  /** The relocated file: every field that names the text moves by the distance of the two bases. */
  function Relocated(m: Bytes, base: int): (r: Bytes)
    requires WellFormed(m)
    ensures |r| == |m|
  {
    FieldsDisjoint(m);
    PatchAll(m, Fields(m), base - Base(m))
  }

  lemma RelocatedAgrees(m: Bytes, base: int)
    requires WellFormed(m)
    ensures AgreeOn(m, Relocated(m, base), 0, |m|, Fields(m))
  {
    hide Fields, WellFormed, PatchAll;
    FieldsDisjoint(m);
    PatchAgrees(m, Fields(m), base - Base(m));
  }

  lemma PatchAgrees(m: Bytes, fs: seq<Field>, d: int)
    requires AllPlaced(fs, |m|)
    ensures AgreeOn(m, PatchAll(m, fs, d), 0, |m|, fs)
  {
    hide Cells, PatchAll;
    forall p: nat | p < |m| && !Named(fs, p) ensures PatchAll(m, fs, d)[p] == m[p] {
      PatchAllElsewhere(m, fs, d, p);
    }
  }

  /** Relocating keeps the file well formed, with the same sections and the same fields. */
  lemma RelocatedIsWellFormed(m: Bytes, base: int)
    requires WellFormed(m)
    ensures WellFormed(Relocated(m, base)) && Fields(Relocated(m, base)) == Fields(m)
    ensures SectionsOf(Relocated(m, base)) == SectionsOf(m)
  {
    hide Fields, Relocated, WellFormed, SectionsOf;
    RelocatedAgrees(m, base);
    LayoutStands(m, Relocated(m, base));
  }

  /** What becomes of each field: the ones that name the text are shifted, the others stay, and the header gets
      the new base. Nothing else changes. */
  lemma RelocatedFields(m: Bytes, base: int, k: nat)
    requires WellFormed(m) && k < |Fields(m)|
    ensures AllPlaced(Fields(m), |m|) && Disjoint(Fields(m))
    ensures var f := Fields(m)[k];
            Value(Relocated(m, base), f) == (Value(m, f) + if f.moved then base - Base(m) else 0) % Modulus(f)
  {
    hide Fields, WellFormed, Value, PatchAll, Placed;
    FieldsDisjoint(m);
    PatchAllValue(m, Fields(m), base - Base(m), k);
  }

  lemma RelocatedElsewhere(m: Bytes, base: int, p: nat)
    requires WellFormed(m) && p < |m| && !Named(Fields(m), p)
    ensures Relocated(m, base)[p] == m[p]
  {
    hide Fields, WellFormed, Relocated;
    RelocatedAgrees(m, base);
  }

  lemma RelocatedBase(m: Bytes, base: int)
    requires WellFormed(m)
    ensures Base(Relocated(m, base)) == base % 0x1_0000
  {
    RelocatedFields(m, base, 0);
    assert Fields(m)[0] == HEADER_FIELD;
    hide Fields, WellFormed, Relocated;
  }

  // ----- Composition -----

  lemma {:induction false} PatchAllModulo(m: Bytes, fs: seq<Field>, d: int, e: int)
    requires AllPlaced(fs, |m|) && d % 0x1_0000 == e % 0x1_0000
    ensures PatchAll(m, fs, d) == PatchAll(m, fs, e)
    decreases |fs|
  {
    hide Patch, Placed;
    if fs != [] {
      PatchModulo(m, fs[0], d, e);
      PatchAllModulo(Patch(m, fs[0], d), fs[1..], d, e);
    }
  }

  lemma PatchModulo(m: Bytes, f: Field, d: int, e: int)
    requires Placed(f, |m|) && d % 0x1_0000 == e % 0x1_0000
    ensures Patch(m, f, d) == Patch(m, f, e)
  {
    var q := d / 0x1_0000 - e / 0x1_0000;
    assert d == e + q * 0x1_0000;
    Multiples(Value(m, f) + e, q, 0x1_0000);
    Multiples(Value(m, f) + e, q * 0x100, 0x100);
  }

  lemma Multiples(v: int, q: int, n: int)
    requires n > 0
    ensures (v + q * n) % n == v % n
  {
    DivModUnique(v + q * n, n, q + v / n, v % n);
  }

  lemma PatchAllTwiceModulo(m: Bytes, fs: seq<Field>, d: int, e: int, g: int)
    requires AllPlaced(fs, |m|) && Disjoint(fs) && (d + e) % 0x1_0000 == g % 0x1_0000
    ensures PatchAll(PatchAll(m, fs, d), fs, e) == PatchAll(m, fs, g)
  {
    PatchAllTwice(m, fs, d, e);
    PatchAllModulo(m, fs, d + e, g);
  }

  /** Relocating to one base and then to another is relocating to the other at once, byte for byte. */
  lemma RelocatingTwice(m: Bytes, b1: int, b2: int)
    requires WellFormed(m)
    ensures WellFormed(Relocated(m, b1)) && Relocated(Relocated(m, b1), b2) == Relocated(m, b2)
  {
    hide Fields, WellFormed, PatchAll, Disjoint, Placed;
    RelocatedIsWellFormed(m, b1);
    RelocatedBase(m, b1);
    FieldsDisjoint(m);
    var d, e := b1 - Base(m), b2 - b1 % 0x1_0000;
    Multiples(b2 - Base(m), b1 / 0x1_0000, 0x1_0000);
    PatchAllTwiceModulo(m, Fields(m), d, e, b2 - Base(m));
  }

  lemma RelocatingToItself(m: Bytes)
    requires WellFormed(m)
    ensures Relocated(m, Base(m)) == m
  {
    hide Fields, WellFormed, PatchAll, Disjoint, Placed;
    FieldsDisjoint(m);
    PatchAllByNothing(m, Fields(m));
  }

  /** Relocating back to the original base restores the whole file. */
  lemma RelocatingBack(m: Bytes, base: int)
    requires WellFormed(m)
    ensures WellFormed(Relocated(m, base)) && Relocated(Relocated(m, base), Base(m)) == m
  {
    hide Relocated;
    RelocatingTwice(m, base, Base(m));
    RelocatingToItself(m);
  }

  // ----- The list of undefined references -----

  /** The end of a list of n names, each ended by a zero byte. */
  function NamesEnd(m: Bytes, at: nat, n: nat): nat
    decreases n
  {
    if n == 0 then at else NamesEnd(m, NameEnd(m, at), n - 1)
  }

  lemma {:induction false} NameEndsInZero(m: Bytes, at: nat)
    requires NameEnd(m, at) <= |m|
    ensures at < NameEnd(m, at) && m[NameEnd(m, at) - 1] == 0
    decreases |m| - at
  {
    if at < |m| && m[at] != 0 {
      NameEndsInZero(m, at + 1);
    }
  }

  lemma {:induction false} NamesEndInZero(m: Bytes, at: nat, n: nat)
    requires n > 0 && NamesEnd(m, at, n) <= |m|
    ensures at < NamesEnd(m, at, n) && m[NamesEnd(m, at, n) - 1] == 0
    decreases n
  {
    var p := NameEnd(m, at);
    if n == 1 {
      NameEndsInZero(m, at);
    } else {
      NamesEndInZero(m, p, n - 1);
    }
  }

  lemma {:induction false} UndefEndsElsewhere(m: Bytes, at: nat, n: nat)
    requires n > 0 && UndefEnd(m, at, n) < |m|
    ensures at < UndefEnd(m, at, n) && m[UndefEnd(m, at, n) - 1] != 0
    decreases n, |m| - at
  {
    if m[at] == 0 {
      UndefEndsElsewhere(m, at + 1, n);
    } else if n > 1 {
      UndefEndsElsewhere(m, at + 1, n - 1);
    }
  }

  /** The size of the list of undefined references is right exactly when the list is empty: the relocator looks for
      a byte that is not zero where a name ends with one that is. */
  lemma UndefListIsMeasured(m: Bytes, at: nat, n: nat)
    requires NamesEnd(m, at, n) <= |m| && UndefEnd(m, at, n) < |m|
    ensures UndefEnd(m, at, n) == NamesEnd(m, at, n) <==> n == 0
  {
    if n > 0 {
      NamesEndInZero(m, at, n);
      UndefEndsElsewhere(m, at, n);
    }
  }

  /** One reference, to "AB", followed by the two empty tables: the list ends at 3, and is taken to end at 1. */
  lemma UndefListExample()
    ensures var m := [0x41, 0x42, 0, 0, 0]; UndefEnd(m, 0, 1) == 1 && NamesEnd(m, 0, 1) == 3
  {
    var m := [0x41, 0x42, 0, 0, 0];
    assert NameEnd(m, 2) == 3;
    assert NameEnd(m, 1) == 3;
  }
}
