/**
 The o65 relocator (src/reloc65.cpp), working in place on the buffer that holds the file. It rewrites the
 low bytes of high-byte entries inside the very table it is walking.
 */
module Reloc65Code {
  import opened Arith
  import opened RelocSpec
  import opened RelocLayout
  import opened RelocTheorems

  // ----- Words in the buffer -----

  lemma WordBytes(v: int)
    ensures v % 0x1_0000 % 0x100 == v % 0x100 && v % 0x1_0000 / 0x100 == v / 0x100 % 0x100
  {
    var w := v % 0x1_0000;
    assert v == v / 0x1_0000 * 0x1_0000 + w;
    DivModUnique(v, 0x100, v / 0x1_0000 * 0x100 + w / 0x100, w % 0x100);
    DivModUnique(v / 0x100, 0x100, v / 0x1_0000, w / 0x100);
  }

  method WordAt(buffer: array<byte>, idx: nat) returns (w: int)
    requires idx + 1 < buffer.Length
    ensures w == GetWord(buffer[..], idx)
  {
    w := WordOf(buffer[idx], buffer[idx + 1]);
  }

  /** The value may be negative: the two low-order bytes are stored. */
  method SetWord(buffer: array<byte>, idx: nat, value: int)
    requires idx + 1 < buffer.Length
    modifies buffer
    ensures buffer[..] == Store(old(buffer[..]), WordField(idx, true), value % 0x1_0000)
  {
    WordBytes(value);
    buffer[idx] := value % 0x100;
    buffer[idx + 1] := value / 0x100 % 0x100;
    assert buffer[..] == old(buffer[..])[idx := value % 0x100][idx + 1 := value / 0x100 % 0x100];
  }

  lemma OnePatch(m: Bytes, f: Field, d: int)
    requires Placed(f, |m|)
    ensures PatchAll(m, [f], d) == Patch(m, f, d)
  {
    assert PatchAll(Patch(m, f, d), [f][1..], d) == Patch(m, f, d);
  }

  lemma {:induction false} PatchConcat(m: Bytes, a: seq<Field>, b: seq<Field>, d: int)
    requires AllPlaced(a, |m|) && AllPlaced(b, |m|)
    ensures AllPlaced(a + b, |m|) && PatchAll(m, a + b, d) == PatchAll(PatchAll(m, a, d), b, d)
    decreases |a|
  {
    hide Patch, Placed;
    if a == [] {
      assert a + b == b;
    } else {
      assert (a + b)[1..] == a[1..] + b;
      PatchConcat(Patch(m, a[0], d), a[1..], b, d);
    }
  }

  /** Patching leaves everything outside the region of its fields. */
  lemma PatchOutside(m: Bytes, fs: seq<Field>, d: int, region: set<nat>)
    requires AllPlaced(fs, |m|) && AllIn(fs, region)
    ensures forall p: nat | p < |m| && p !in region :: PatchAll(m, fs, d)[p] == m[p]
  {
    hide Cells, PatchAll, Placed;
    forall p: nat | p < |m| && p !in region ensures PatchAll(m, fs, d)[p] == m[p] {
      PatchAllElsewhere(m, fs, d, p);
    }
  }

  // ----- The walk over a buffer that changes under it -----

  /** Patching what an entry names does not change what the rest of the table names. */
  lemma RestStands(m: Bytes, base: nat, len: nat, adr: int, free: nat, tab: nat, d: int)
    requires free <= len && base + len <= tab && WalkTable(m, base, len, adr, free, tab).Walk?
    requires EntryAt(m, base, len, adr, free, tab).Entry?
    ensures var e := EntryAt(m, base, len, adr, free, tab);
            var w := WalkTable(m, base, len, adr, free, tab);
            && AllPlaced(e.fields, |m|) && AllPlaced(w.fields, |m|) && e.free <= len
            && var r := PatchAll(m, e.fields, d);
               var t := WalkTable(r, base, len, e.adr, e.free, e.next);
               t.Walk? && t.next == w.next && AllPlaced(t.fields, |m|) && PatchAll(r, t.fields, d) == PatchAll(m, w.fields, d)
  {
    hide EntryAt, AllIn, Placed, Disjoint, PatchAll, Range, Named;
    var e := EntryAt(m, base, len, adr, free, tab);
    EntryShape(m, base, len, adr, free, tab);
    TableShape(m, base, len, e.adr, e.free, e.next);
    var t := WalkTable(m, base, len, e.adr, e.free, e.next);
    var r := PatchAll(m, e.fields, d);
    PatchOutside(m, e.fields, d, EntryRegion(base, free, tab, e));
    TableStands(m, r, base, len, e.adr, e.free, e.next);
    PatchConcat(m, e.fields, t.fields, d);
  }

  class Reloc65 {
    const tbase: int
    var tdiff: int

    constructor (addr: int)
      ensures tbase == addr
    {
      tbase := addr;
      tdiff := 0;
    }

    function RelDiff(s: byte): int
      reads this
    {
      if s == 2 then tdiff else 0
    }

    /** One entry of the table that is neither its end nor a gap of 254. */
    method RelocEntry(buffer: array<byte>, base: nat, len: nat, adr0: int, ghost free: nat, tab: nat) returns (adr: int, rtab: nat)
      requires tab < buffer.Length && free <= len && base + len <= tab
      requires buffer[tab] != 255 && EntryAt(buffer[..], base, len, adr0, free, tab).Entry?
      modifies buffer
      ensures var e := EntryAt(old(buffer[..]), base, len, adr0, free, tab);
              && adr == e.adr && rtab == e.next
              && AllPlaced(e.fields, buffer.Length) && buffer[..] == PatchAll(old(buffer[..]), e.fields, tdiff)
    {
      ghost var m := buffer[..];
      ghost var e := EntryAt(m, base, len, adr0, free, tab);
      EntryShape(m, base, len, adr0, free, tab);
      adr, rtab := adr0 + buffer[tab], tab + 1;
      var kind, seg := KindOf(buffer[rtab]), SegmentOf(buffer[rtab]);
      rtab := rtab + 1;
      if kind == 4 {
        OnePatch(m, e.fields[0], tdiff);
        RelocWord(buffer, base + adr, seg);
      } else if kind == 2 {
        OnePatch(m, e.fields[0], tdiff);
        RelocHigh(buffer, base + adr, rtab, seg);
        rtab := rtab + 1;
      } else if kind == 1 {
        OnePatch(m, e.fields[0], tdiff);
        RelocLow(buffer, base + adr, seg);
      }
      if seg == 0 {
        rtab := rtab + 2;
      }
    }

    method RelocWord(buffer: array<byte>, at: nat, seg: byte)
      requires at + 1 < buffer.Length
      modifies buffer
      ensures buffer[..] == Patch(old(buffer[..]), WordField(at, seg == 2), tdiff)
    {
      ghost var m, f := buffer[..], WordField(at, seg == 2);
      var oldVal := WordAt(buffer, at);
      assert Patch(m, f, tdiff) == Store(m, WordField(at, true), (oldVal + RelDiff(seg)) % 0x1_0000);
      hide Store, Patch;
      SetWord(buffer, at, oldVal + RelDiff(seg));
    }

    /** The high byte goes into the segment, the low byte back into the table. */
    method StoreHigh(buffer: array<byte>, at: nat, low: nat, newVal: int, ghost moved: bool)
      requires at < low < buffer.Length
      modifies buffer
      ensures buffer[..] == Store(old(buffer[..]), HighField(at, low, moved), newVal % 0x1_0000)
    {
      WordBytes(newVal);
      buffer[at] := newVal / 0x100 % 0x100;
      buffer[low] := newVal % 0x100;
      assert buffer[..] == old(buffer[..])[at := newVal / 0x100 % 0x100][low := newVal % 0x100];
    }

    method RelocHigh(buffer: array<byte>, at: nat, low: nat, seg: byte)
      requires at < low < buffer.Length
      modifies buffer
      ensures buffer[..] == Patch(old(buffer[..]), HighField(at, low, seg == 2), tdiff)
    {
      ghost var m, f := buffer[..], HighField(at, low, seg == 2);
      var oldVal := WordOf(buffer[low], buffer[at]);
      var newVal := oldVal + RelDiff(seg);
      assert Patch(m, f, tdiff) == Store(m, f, newVal % 0x1_0000);
      StoreHigh(buffer, at, low, newVal, seg == 2);
    }

    method RelocLow(buffer: array<byte>, at: nat, seg: byte)
      requires at < buffer.Length
      modifies buffer
      ensures buffer[..] == Patch(old(buffer[..]), LowField(at, seg == 2), tdiff)
    {
      var newVal := buffer[at] + RelDiff(seg);
      buffer[at] := newVal % 0x100;
      assert buffer[..] == old(buffer[..])[at := newVal % 0x100];
    }

    /** Relocates a segment; the result is the position behind its table. */
    method RelocSeg(buffer: array<byte>, base: nat, len: nat, tab: nat) returns (rtab: nat)
      requires base + len <= tab && WalkTable(buffer[..], base, len, -1, 0, tab).Walk?
      modifies buffer
      ensures var w := WalkTable(old(buffer[..]), base, len, -1, 0, tab);
              && rtab == w.next && AllPlaced(w.fields, buffer.Length)
              && buffer[..] == PatchAll(old(buffer[..]), w.fields, tdiff)
    {
      hide EntryAt, PatchAll, Placed, Disjoint, AllIn;
      var adr := -1;
      rtab := tab;
      ghost var free: nat := 0;
      ghost var m := buffer[..];
      ghost var w := WalkTable(m, base, len, -1, 0, tab);
      TableShape(m, base, len, -1, 0, tab);
      while buffer[rtab] != 0
        invariant free <= len && base + len <= rtab < buffer.Length
        invariant var t := WalkTable(buffer[..], base, len, adr, free, rtab);
                  t.Walk? && t.next == w.next && AllPlaced(t.fields, |m|) && PatchAll(buffer[..], t.fields, tdiff) == PatchAll(m, w.fields, tdiff)
        decreases buffer.Length - rtab
      {
        ghost var n := buffer[..];
        ghost var e := EntryAt(n, base, len, adr, free, rtab);
        EntryKind(n, base, len, adr, free, rtab);
        RestStands(n, base, len, adr, free, rtab, tdiff);
        if buffer[rtab] == 255 {
          adr, rtab := adr + 254, rtab + 1;
          NoPatch(n, tdiff);
        } else {
          adr, rtab := RelocEntry(buffer, base, len, adr, free, rtab);
        }
        free := e.free;
        TableShape(buffer[..], base, len, adr, free, rtab);
      }
      TableEnd(buffer[..], base, len, adr, free, rtab);
      NoPatch(buffer[..], tdiff);
      rtab := rtab + 1;
    }

    /** Relocates the exported globals; the result is the position behind them. */
    method RelocGlobals(buffer: array<byte>, at: nat) returns (buf: nat)
      requires at + 1 < buffer.Length && WalkGlobals(buffer[..], at + 2, GetWord(buffer[..], at)).Walk?
      modifies buffer
      ensures var w := WalkGlobals(old(buffer[..]), at + 2, GetWord(old(buffer[..]), at));
              && buf == w.next && AllPlaced(w.fields, buffer.Length)
              && buffer[..] == PatchAll(old(buffer[..]), w.fields, tdiff)
    {
      hide PatchAll, Patch, Placed, Disjoint, AllIn, NameEnd;
      ghost var m := buffer[..];
      var n := WordAt(buffer, at);
      buf := at + 2;
      ghost var w := WalkGlobals(m, buf, n);
      GlobalsShape(m, buf, n);
      while n != 0
        invariant 0 <= n && buf <= buffer.Length
        invariant var t := WalkGlobals(buffer[..], buf, n);
                  t.Walk? && t.next == w.next && AllPlaced(t.fields, |m|) && PatchAll(buffer[..], t.fields, tdiff) == PatchAll(m, w.fields, tdiff)
        decreases n
      {
        GlobalStands(buffer[..], buf, n, tdiff);
        buf := RelocGlobal(buffer, buf);
        n := n - 1;
      }
      NoPatch(buffer[..], tdiff);
    }

    /** A name, its segment, and the word that may move. */
    method RelocGlobal(buffer: array<byte>, at: nat) returns (buf: nat)
      requires NameEnd(buffer[..], at) + 2 < buffer.Length
      modifies buffer
      ensures var p := NameEnd(old(buffer[..]), at);
              buf == p + 3 && buffer[..] == Patch(old(buffer[..]), WordField(p + 1, old(buffer[p]) == 2), tdiff)
    {
      hide NameEnd, Patch;
      buf := SkipName(buffer, at);
      var seg := buffer[buf];
      RelocWord(buffer, buf + 1, seg);
      buf := buf + 3;
    }

    method SkipName(buffer: array<byte>, at: nat) returns (buf: nat)
      requires NameEnd(buffer[..], at) <= buffer.Length
      ensures buf == NameEnd(buffer[..], at)
    {
      buf := at;
      NameEndBehind(buffer[..], buf);
      while buffer[buf] != 0
        invariant NameEnd(buffer[..], buf) == NameEnd(buffer[..], at) && buf < buffer.Length
        decreases buffer.Length - buf
      {
        buf := buf + 1;
        NameEndBehind(buffer[..], buf);
      }
      buf := buf + 1;
    }

    /** The size of the header options at `at`. */
    method ReadOptions(buffer: array<byte>, at: nat) returns (l: nat)
      requires OptionsEnd(buffer[..], at) <= buffer.Length
      ensures at + l == OptionsEnd(buffer[..], at)
    {
      l := 0;
      OptionsEndBehind(buffer[..], at);
      var c := buffer[at];
      while c != 0
        invariant OptionsEnd(buffer[..], at + l) == OptionsEnd(buffer[..], at) && at + l < buffer.Length && c == buffer[at + l]
        decreases buffer.Length - l
      {
        OptionsEndBehind(buffer[..], at + l + c);
        l := l + c;
        c := buffer[at + l];
      }
      l := l + 1;
    }

    /** The size of the list of undefined references at `at`. */
    method ReadUndef(buffer: array<byte>, at: nat) returns (l: nat)
      requires at + 1 < buffer.Length && UndefEnd(buffer[..], at + 2, GetWord(buffer[..], at)) < buffer.Length
      ensures at + l == UndefEnd(buffer[..], at + 2, GetWord(buffer[..], at))
    {
      l := 2;
      var n := WordAt(buffer, at);
      ghost var end := UndefEnd(buffer[..], at + 2, n);
      while n != 0
        invariant n >= 0 && UndefEnd(buffer[..], at + l, n) == end
        decreases n
      {
        n := n - 1;
        while buffer[at + l] == 0
          invariant n >= 0 && at + l < buffer.Length && UndefEnd(buffer[..], at + l, n + 1) == end
          decreases buffer.Length - l
        {
          l := l + 1;
        }
        l := l + 1;
      }
    }

    /** Relocates the file in the buffer to this object's base; the text segment is then at `buf`. */
    method Reloc(buffer: array<byte>) returns (ok: bool, buf: nat, fsize: nat)
      requires buffer.Length >= HEADER_SIZE && (IsO65(buffer[..]) ==> WellFormed(buffer[..]))
      modifies this`tdiff, buffer
      ensures ok == old(IsO65(buffer[..]))
      ensures !ok ==> buffer[..] == old(buffer[..])
      ensures ok ==> buffer[..] == Relocated(old(buffer[..]), tbase)
      ensures ok ==> buf == SectionsOf(old(buffer[..])).segt && fsize == SectionsOf(old(buffer[..])).tlen
    {
      ok, buf, fsize := false, 0, 0;
      if buffer[..5] != MAGIC {
        return;
      }
      if buffer[7] / 0x20 % 4 != 0 {
        return;
      }
      ok := true;
      buf, fsize := RelocFile(buffer);
    }

    method RelocFile(buffer: array<byte>) returns (segt: nat, tlen: nat)
      requires WellFormed(buffer[..])
      modifies this`tdiff, buffer
      ensures buffer[..] == Relocated(old(buffer[..]), tbase)
      ensures segt == SectionsOf(old(buffer[..])).segt && tlen == SectionsOf(old(buffer[..])).tlen
    {
      hide PatchAll, Placed, Disjoint, Range, WalkTable, WalkGlobals, UndefEnd, OptionsEnd, AllIn, IsO65;
      ghost var m := buffer[..];
      ghost var s := SectionsOf(m);
      ghost var rttab, text, data, globals := FileWalks(m);
      WalksShape(m, s, rttab, text, data, globals);
      LaterWalksStand(m, s, rttab, text, data, globals, tbase - Base(m));
      StagesRelocate(m, tbase, text.fields, data.fields, globals.fields);
      var options := ReadOptions(buffer, HEADER_SIZE);
      segt := HEADER_SIZE + options;
      var base := WordAt(buffer, TEXT_BASE);
      tlen := WordAt(buffer, 10);
      tdiff := tbase - base;
      var dlen := WordAt(buffer, 14);
      var segd := segt + tlen;
      var utab := segd + dlen;
      var undef := ReadUndef(buffer, utab);
      var rdtab := RelocSeg(buffer, segt, tlen, utab + undef);
      var extab := RelocSeg(buffer, segd, dlen, rdtab);
      var end := RelocGlobals(buffer, extab);
      SetWord(buffer, TEXT_BASE, tbase);
    }
  }

  /** The walks over the tables of a file, before it is changed. */
  ghost predicate Walks(m: Bytes, s: Sections, rttab: nat, text: Walk, data: Walk, globals: Walk) {
    && s.segd == s.segt + s.tlen && s.utab == s.segd + s.dlen && HasWord(m, s.utab)
    && rttab == UndefEnd(m, s.utab + 2, GetWord(m, s.utab))
    && text == WalkTable(m, s.segt, s.tlen, -1, 0, rttab) && text.Walk?
    && data == WalkTable(m, s.segd, s.dlen, -1, 0, text.next) && data.Walk? && HasWord(m, data.next)
    && globals == WalkGlobals(m, data.next + 2, GetWord(m, data.next)) && globals.Walk?
  }

  lemma FileWalks(m: Bytes) returns (rttab: nat, text: Walk, data: Walk, globals: Walk)
    requires WellFormed(m)
    ensures Walks(m, SectionsOf(m), rttab, text, data, globals)
    ensures Fields(m) == [HEADER_FIELD] + (text.fields + data.fields + globals.fields)
  {
    hide WalkTable, WalkGlobals, UndefEnd, IsO65, OptionsEnd;
    var s := SectionsOf(m);
    rttab := UndefEnd(m, s.utab + 2, GetWord(m, s.utab));
    text := WalkTable(m, s.segt, s.tlen, -1, 0, rttab);
    data := WalkTable(m, s.segd, s.dlen, -1, 0, text.next);
    globals := WalkGlobals(m, data.next + 2, GetWord(m, data.next));
  }

  /** The sections lie behind one another, and their fields are in the buffer. */
  lemma WalksShape(m: Bytes, s: Sections, rttab: nat, text: Walk, data: Walk, globals: Walk)
    requires Walks(m, s, rttab, text, data, globals)
    ensures s.utab + 2 <= rttab < text.next < data.next && rttab < |m| && data.next + 2 <= globals.next <= |m|
    ensures AllPlaced(text.fields, |m|) && AllPlaced(data.fields, |m|) && AllPlaced(globals.fields, |m|)
    ensures AllIn(text.fields, TableRegion(s.segt, s.tlen, 0, rttab, text.next))
    ensures AllIn(data.fields, TableRegion(s.segd, s.dlen, 0, text.next, data.next))
  {
    hide WalkTable, WalkGlobals, UndefEnd, Placed, Disjoint, Range, AllIn;
    TableShape(m, s.segt, s.tlen, -1, 0, rttab);
    TableShape(m, s.segd, s.dlen, -1, 0, text.next);
    GlobalsShape(m, data.next + 2, GetWord(m, data.next));
  }

  /** The text table is rewritten in front of the data table, which is found as it was; so are the globals. */
  lemma LaterWalksStand(m: Bytes, s: Sections, rttab: nat, text: Walk, data: Walk, globals: Walk, d: int)
    requires Walks(m, s, rttab, text, data, globals)
    ensures AllPlaced(text.fields, |m|) && AllPlaced(data.fields, |m|)
    ensures var m1 := PatchAll(m, text.fields, d);
            && WalkTable(m1, s.segd, s.dlen, -1, 0, text.next) == data
            && var m2 := PatchAll(m1, data.fields, d);
               GetWord(m2, data.next) == GetWord(m, data.next) && WalkGlobals(m2, data.next + 2, GetWord(m2, data.next)) == globals
  {
    hide PatchAll, Placed, Disjoint, Range, WalkTable, WalkGlobals, UndefEnd, AllIn, Named;
    WalksShape(m, s, rttab, text, data, globals);
    var m1 := PatchAll(m, text.fields, d);
    PatchOutside(m, text.fields, d, TableRegion(s.segt, s.tlen, 0, rttab, text.next));
    TableStands(m, m1, s.segd, s.dlen, -1, 0, text.next);
    PatchOutside(m1, data.fields, d, TableRegion(s.segd, s.dlen, 0, text.next, data.next));
    GlobalsStand(m, PatchAll(m1, data.fields, d), data.next + 2, GetWord(m, data.next));
  }

  /** The stages together relocate the file. */
  lemma StagesRelocate(m: Bytes, base: int, text: seq<Field>, data: seq<Field>, globals: seq<Field>)
    requires WellFormed(m) && Fields(m) == [HEADER_FIELD] + (text + data + globals)
    requires AllPlaced(text, |m|) && AllPlaced(data, |m|) && AllPlaced(globals, |m|)
    ensures var d := base - Base(m);
            Store(PatchAll(PatchAll(PatchAll(m, text, d), data, d), globals, d), WordField(TEXT_BASE, true), base % 0x1_0000)
            == Relocated(m, base)
  {
    hide PatchAll, Placed, Disjoint, WellFormed, Fields, Store;
    var d := base - Base(m);
    FieldsDisjoint(m);
    PatchConcat(m, text, data, d);
    PatchConcat(m, text + data, globals, d);
    HeaderLast(m, text + data + globals, base);
  }

  lemma HeaderPatch(m: Bytes, base: int, was: int)
    requires |m| >= HEADER_SIZE && Value(m, HEADER_FIELD) == was
    ensures Patch(m, HEADER_FIELD, base - was) == Store(m, HEADER_FIELD, base % 0x1_0000)
  {
    hide Value, Store;
  }

  /** Writing the new base into the header is patching it like the other fields. */
  lemma HeaderLast(m: Bytes, fs: seq<Field>, base: int)
    requires |m| >= HEADER_SIZE && AllPlaced([HEADER_FIELD] + fs, |m|) && Disjoint([HEADER_FIELD] + fs) && AllPlaced(fs, |m|)
    ensures Store(PatchAll(m, fs, base - Base(m)), HEADER_FIELD, base % 0x1_0000) == PatchAll(m, [HEADER_FIELD] + fs, base - Base(m))
  {
    var d := base - Base(m);
    var all := [HEADER_FIELD] + fs;
    assert all[0] == HEADER_FIELD && all[1..] == fs;
    assert Apart(HEADER_FIELD, fs);
    assert Base(m) == Value(m, HEADER_FIELD);
    hide Value, Store, Cells, Placed, GetWord;
    assert PatchAll(m, all, d) == PatchAll(Patch(m, HEADER_FIELD, d), fs, d);
    hide PatchAll, Patch, Modulus;
    PatchPastAll(m, HEADER_FIELD, d, fs, d);
    PatchAllKeeps(m, HEADER_FIELD, fs, d);
    HeaderPatch(PatchAll(m, fs, d), base, Base(m));
  }

  lemma NameEndBehind(m: Bytes, at: nat)
    requires NameEnd(m, at) <= |m|
    ensures at < |m|
  {
  }

  /** Patching one global does not change what the rest of the list names. */
  lemma GlobalStands(m: Bytes, at: nat, n: nat, d: int)
    requires n > 0 && at <= |m| && WalkGlobals(m, at, n).Walk?
    ensures var p := NameEnd(m, at);
            && p + 2 < |m|
            && var f := WordField(p + 1, m[p] == 2);
               var r := Patch(m, f, d);
               var t, w := WalkGlobals(r, p + 3, n - 1), WalkGlobals(m, at, n);
               && t.Walk? && t.next == w.next && AllPlaced(t.fields, |m|) && AllPlaced(w.fields, |m|)
               && PatchAll(r, t.fields, d) == PatchAll(m, w.fields, d)
  {
    hide AllIn, Disjoint, PatchAll, Range, Named, NameEnd, AllPlaced;
    var p := NameEnd(m, at);
    var f := WordField(p + 1, m[p] == 2);
    GlobalsShape(m, at, n);
    GlobalsShape(m, p + 3, n - 1);
    var t := WalkGlobals(m, p + 3, n - 1);
    OneWord(f, |m|);
    OnePatch(m, f, d);
    PatchOutside(m, [f], d, Range(p + 1, p + 3));
    GlobalsStand(m, Patch(m, f, d), p + 3, n - 1);
    PatchConcat(m, [f], t.fields, d);
  }

  lemma NoPatch(m: Bytes, d: int)
    ensures AllPlaced([], |m|) && PatchAll(m, [], d) == m
  {
  }

  lemma EntryKind(m: Bytes, base: nat, len: nat, adr: int, free: nat, tab: nat)
    requires tab < |m| && m[tab] != 0 && WalkTable(m, base, len, adr, free, tab).Walk?
    ensures EntryAt(m, base, len, adr, free, tab).Entry?
    ensures m[tab] == 255 ==> EntryAt(m, base, len, adr, free, tab) == Entry([], adr + 254, free, tab + 1)
  {
  }

  lemma TableEnd(m: Bytes, base: nat, len: nat, adr: int, free: nat, tab: nat)
    requires tab < |m| && m[tab] == 0
    ensures WalkTable(m, base, len, adr, free, tab) == Walk([], tab + 1)
  {
  }
}
