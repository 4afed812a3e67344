/**
 The layout of an o65 file as the relocator reads it (src/reloc65.cpp), and the relocated file.
 */
module RelocLayout {
  import opened Arith
  import opened RelocSpec

  const HEADER_SIZE := 26
  const TEXT_BASE := 8
  const MAGIC: seq<int> := [1, 0, 0x6f, 0x36, 0x35]

  /** What walking over a list or a table finds: the fields it names and where the next section begins.
      Broken: it runs past the end of the buffer, or names a field outside its segment or on top of another. */
  datatype Walk = Walk(fields: seq<Field>, next: nat) | Broken

  function Prepend(fs: seq<Field>, w: Walk): Walk {
    match w
    case Walk(gs, next) => Walk(fs + gs, next)
    case Broken => Broken
  }

  // ----- Relocation tables -----

  /** How many bytes of the segment an entry of this type covers. */
  function Width(kind: byte): nat { if kind == 4 then 2 else if kind == 1 || kind == 2 then 1 else 0 }

  function EntryFields(kind: byte, at: nat, low: nat, moved: bool): seq<Field> {
    if kind == 4 then [WordField(at, moved)]
    else if kind == 2 then [HighField(at, low, moved)]
    else if kind == 1 then [LowField(at, moved)]
    else []
  }

  /** The length of an entry: an offset, a type, the low byte of a high-byte entry, and two more for segment 0. */
  function EntryLength(kind: byte, seg: byte): (n: nat)
    ensures n >= 2
  {
    2 + (if kind == 2 then 1 else 0) + (if seg == 0 then 2 else 0)
  }

  function KindOf(type_: byte): byte { type_ / 0x20 }
  function SegmentOf(type_: byte): byte { type_ % 8 }

  /** One entry of a relocation table: it names at most one field, and says where the next entry is. */
  datatype Entry = End | Entry(fields: seq<Field>, adr: int, free: nat, next: nat) | Bad

  /** The entry at `tab`, for the segment of length `len` at `base`; `adr` is the offset of the previous entry
      and `free` the first offset behind it. */
  function EntryAt(m: Bytes, base: nat, len: nat, adr: int, free: nat, tab: nat): (e: Entry)
    requires tab < |m|
    ensures e.Entry? ==> e.next > tab
  {
    if m[tab] == 0 then End
    else if m[tab] == 255 then Entry([], adr + 254, free, tab + 1)
    else if tab + 1 >= |m| then Bad
    else
      var at := adr + m[tab];
      var kind, seg := KindOf(m[tab + 1]), SegmentOf(m[tab + 1]);
      var next := tab + EntryLength(kind, seg);
      if Width(kind) == 0 then Entry([], at, free, next)
      else if (kind == 2 && tab + 2 >= |m|) || !(free <= at && at + Width(kind) <= len) then Bad
      else Entry(EntryFields(kind, base + at, tab + 2, seg == 2), at, at + Width(kind), next)
  }

  /** The table from `tab` on. */
  function WalkTable(m: Bytes, base: nat, len: nat, adr: int, free: nat, tab: nat): Walk
    decreases |m| - tab
  {
    if tab >= |m| then Broken else
      match EntryAt(m, base, len, adr, free, tab)
      case End => Walk([], tab + 1)
      case Bad => Broken
      case Entry(fs, adr', free', next) => Prepend(fs, WalkTable(m, base, len, adr', free', next))
  }

  // ----- Exported globals -----

  /** The position behind the next zero byte. */
  function NameEnd(m: Bytes, at: nat): (p: nat)
    ensures p > at
    decreases |m| - at
  {
    if at >= |m| then at + 1 else if m[at] == 0 then at + 1 else NameEnd(m, at + 1)
  }

  function WalkGlobals(m: Bytes, at: nat, n: nat): Walk
    decreases n
  {
    if n == 0 then Walk([], at) else
      var p := NameEnd(m, at);
      if p + 2 >= |m| then Broken
      else Prepend([WordField(p + 1, m[p] == 2)], WalkGlobals(m, p + 3, n - 1))
  }

  // ----- Header -----

  /** The end of the chain of header options. */
  function OptionsEnd(m: Bytes, p: nat): nat
    decreases |m| - p
  {
    if p >= |m| || m[p] == 0 then p + 1 else OptionsEnd(m, p + m[p])
  }

  /** How the relocator skips n undefined references: each time zeros, and one byte that is not zero. */
  function UndefEnd(m: Bytes, at: nat, n: nat): (p: nat)
    ensures p >= at
    decreases n, |m| - at
  {
    if n == 0 || at >= |m| then at
    else if m[at] == 0 then UndefEnd(m, at + 1, n)
    else UndefEnd(m, at + 1, n - 1)
  }

  predicate HasWord(m: Bytes, at: nat) { at + 1 < |m| }

  predicate IsO65(m: Bytes)
    requires |m| >= HEADER_SIZE
  {
    && m[..5] == MAGIC
    && m[7] / 0x20 % 4 == 0 // neither 32-bit nor pagewise
  }

  function Base(m: Bytes): nat
    requires |m| >= HEADER_SIZE
  {
    GetWord(m, TEXT_BASE)
  }

  /** Where the sections are. */
  datatype Sections = Sections(segt: nat, tlen: nat, segd: nat, dlen: nat, utab: nat)

  function SectionsOf(m: Bytes): Sections
    requires |m| >= HEADER_SIZE
  {
    var segt := OptionsEnd(m, HEADER_SIZE);
    var tlen, dlen := GetWord(m, 10), GetWord(m, 14);
    Sections(segt, tlen, segt + tlen, dlen, segt + tlen + dlen)
  }

  /** Everything behind the segments: undefined references, two relocation tables, and the exported globals. */
  function WalkTables(m: Bytes, s: Sections): Walk {
    if !HasWord(m, s.utab) then Broken else
      match WalkTable(m, s.segt, s.tlen, -1, 0, UndefEnd(m, s.utab + 2, GetWord(m, s.utab)))
      case Broken => Broken
      case Walk(text, rdtab) =>
        match WalkTable(m, s.segd, s.dlen, -1, 0, rdtab)
        case Broken => Broken
        case Walk(data, extab) =>
          if !HasWord(m, extab) then Broken
          else Prepend(text + data, WalkGlobals(m, extab + 2, GetWord(m, extab)))
  }

  /** The text base in the header is one more field that moves with the text. */
  const HEADER_FIELD := WordField(TEXT_BASE, true)

  /** All the fields of the file. */
  function Fields(m: Bytes): seq<Field>
    requires WellFormed(m)
  {
    [HEADER_FIELD] + WalkTables(m, SectionsOf(m)).fields
  }

  predicate WellFormed(m: Bytes): (b: bool)
    ensures b ==> |m| >= HEADER_SIZE
  {
    |m| >= HEADER_SIZE && IsO65(m) && WalkTables(m, SectionsOf(m)).Walk?
  }
}
