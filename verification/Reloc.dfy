/**
 Relocation of an o65 file image in memory (src/reloc65.cpp): what a file names for relocation, and what
 relocating it does.
 */
module RelocSpec {
  import opened Arith

  type byte = x: int | 0 <= x < 256
  type Bytes = seq<byte>

  function WordOf(lo: byte, hi: byte): (w: nat)
    ensures w < 0x1_0000
  {
    lo as int + 0x100 * hi as int
  }

  function GetWord(m: Bytes, at: nat): (w: nat)
    requires at + 1 < |m|
    ensures w < 0x1_0000
  {
    WordOf(m[at], m[at + 1])
  }

  // ----- Fields -----

  /** A field named by the tables; it moves with the text segment or stays as it is. A high byte alone keeps its
      low byte in the table. */
  datatype Field =
    | WordField(at: nat, moved: bool)
    | HighField(at: nat, low: nat, moved: bool)
    | LowField(at: nat, moved: bool)

  function Cells(f: Field): set<nat> {
    match f
    case WordField(at, _) => {at, at + 1}
    case HighField(at, low, _) => {at, low}
    case LowField(at, _) => {at}
  }

  predicate Placed(f: Field, n: nat) {
    match f
    case WordField(at, _) => at + 1 < n
    case HighField(at, low, _) => at < n && low < n && at != low
    case LowField(at, _) => at < n
  }

  function Modulus(f: Field): (n: int)
    ensures n > 0
  {
    if f.LowField? then 0x100 else 0x1_0000
  }

  function Value(m: Bytes, f: Field): int
    requires Placed(f, |m|)
  {
    match f
    case WordField(at, _) => WordOf(m[at], m[at + 1])
    case HighField(at, low, _) => WordOf(m[low], m[at])
    case LowField(at, _) => m[at]
  }

  function Shift(f: Field, d: int): int { if f.moved then d else 0 }

  function Store(m: Bytes, f: Field, v: int): (r: Bytes)
    requires Placed(f, |m|) && 0 <= v < Modulus(f)
    ensures |r| == |m| && Value(r, f) == v
    ensures forall p: nat | p < |m| && p !in Cells(f) :: r[p] == m[p]
  {
    match f
    case WordField(at, _) => m[at := v % 256][at + 1 := v / 256]
    case HighField(at, low, _) => m[at := v / 256][low := v % 256]
    case LowField(at, _) => m[at := v]
  }

  function Patch(m: Bytes, f: Field, d: int): (r: Bytes)
    requires Placed(f, |m|)
    ensures |r| == |m|
  {
    Store(m, f, (Value(m, f) + Shift(f, d)) % Modulus(f))
  }

  predicate AllPlaced(fs: seq<Field>, n: nat) { forall k | 0 <= k < |fs| :: Placed(fs[k], n) }

  function PatchAll(m: Bytes, fs: seq<Field>, d: int): (r: Bytes)
    requires AllPlaced(fs, |m|)
    ensures |r| == |m|
    decreases |fs|
  {
    if fs == [] then m else PatchAll(Patch(m, fs[0], d), fs[1..], d)
  }

  predicate Apart(f: Field, fs: seq<Field>) { forall k | 0 <= k < |fs| :: Cells(f) !! Cells(fs[k]) }

  predicate Disjoint(fs: seq<Field>)
    decreases |fs|
  {
    fs == [] || (Apart(fs[0], fs[1..]) && Disjoint(fs[1..]))
  }

  // ----- Patching is an action of the integers modulo 2^16 -----

  lemma SameByValue(m: Bytes, r: Bytes, f: Field)
    requires |m| == |r| && Placed(f, |m|) && Value(m, f) == Value(r, f)
    requires forall p: nat | p < |m| && p !in Cells(f) :: r[p] == m[p]
    ensures m == r
  {
    forall p: nat | p < |m| ensures m[p] == r[p] {
    }
  }

  lemma ShiftsAdd(v: int, d: int, e: int, n: int)
    requires n > 0
    ensures ((v + d) % n + e) % n == (v + d + e) % n
  {
    var q, r := (v + d) / n, (v + d) % n + e;
    assert v + d == q * n + (v + d) % n;
    assert r == r / n * n + r % n;
    assert v + d + e == (q + r / n) * n + r % n;
    DivModUnique(v + d + e, n, q + r / n, r % n);
  }

  lemma PatchTwice(m: Bytes, f: Field, d: int, e: int)
    requires Placed(f, |m|)
    ensures Patch(Patch(m, f, d), f, e) == Patch(m, f, d + e)
  {
    hide Value, Store, Modulus, Placed, Cells;
    ShiftsAdd(Value(m, f), Shift(f, d), Shift(f, e), Modulus(f));
    SameByValue(Patch(Patch(m, f, d), f, e), Patch(m, f, d + e), f);
  }

  lemma ValueFits(m: Bytes, f: Field)
    requires Placed(f, |m|)
    ensures 0 <= Value(m, f) < Modulus(f)
  {
  }

  lemma PatchByNothing(m: Bytes, f: Field)
    requires Placed(f, |m|)
    ensures Patch(m, f, 0) == m
  {
    ValueFits(m, f);
    hide Value, Store, Modulus, Placed, Cells;
    DivModUnique(Value(m, f), Modulus(f), 0, Value(m, f));
    SameByValue(Patch(m, f, 0), m, f);
  }

  /** What a patch writes depends only on the cells of its field. */
  lemma PatchIsLocal(m: Bytes, r: Bytes, f: Field, d: int)
    requires |m| == |r| && Placed(f, |m|)
    requires forall p: nat | p in Cells(f) :: p < |m| && r[p] == m[p]
    ensures Value(m, f) == Value(r, f)
    ensures forall p: nat | p in Cells(f) :: Patch(r, f, d)[p] == Patch(m, f, d)[p]
  {
    match f
    case WordField(at, _) => assert at in Cells(f) && at + 1 in Cells(f);
    case HighField(at, low, _) => assert at in Cells(f) && low in Cells(f);
    case LowField(at, _) => assert at in Cells(f);
  }

  lemma CellsInside(f: Field, n: nat)
    requires Placed(f, n)
    ensures forall p | p in Cells(f) :: p < n
  {
  }

  lemma PatchesCommute(m: Bytes, f: Field, d: int, g: Field, e: int)
    requires Placed(f, |m|) && Placed(g, |m|) && Cells(f) !! Cells(g)
    ensures Patch(Patch(m, f, d), g, e) == Patch(Patch(m, g, e), f, d)
  {
    CellsInside(f, |m|);
    CellsInside(g, |m|);
    PatchIsLocal(m, Patch(m, g, e), f, d);
    PatchIsLocal(m, Patch(m, f, d), g, e);
    var r, t := Patch(Patch(m, f, d), g, e), Patch(Patch(m, g, e), f, d);
    hide Value, Modulus, Cells;
    forall p: nat | p < |m| ensures r[p] == t[p] {
      if p in Cells(f) {
        assert p !in Cells(g);
      }
    }
  }

  lemma {:induction false} PatchPastAll(m: Bytes, f: Field, e: int, fs: seq<Field>, d: int)
    requires Placed(f, |m|) && AllPlaced(fs, |m|) && Apart(f, fs)
    ensures Patch(PatchAll(m, fs, d), f, e) == PatchAll(Patch(m, f, e), fs, d)
    decreases |fs|
  {
    hide Patch, Placed, Cells;
    if fs != [] {
      PatchesCommute(m, fs[0], d, f, e);
      PatchPastAll(Patch(m, fs[0], d), f, e, fs[1..], d);
    }
  }

  lemma {:induction false} PatchAllTwice(m: Bytes, fs: seq<Field>, d: int, e: int)
    requires AllPlaced(fs, |m|) && Disjoint(fs)
    ensures PatchAll(PatchAll(m, fs, d), fs, e) == PatchAll(m, fs, d + e)
    decreases |fs|
  {
    hide Patch, Placed, Apart;
    if fs != [] {
      var f, rest := fs[0], fs[1..];
      var n := Patch(m, f, d);
      PatchPastAll(n, f, e, rest, d);
      PatchTwice(m, f, d, e);
      PatchAllTwice(Patch(m, f, d + e), rest, d, e);
    }
  }

  lemma {:induction false} PatchAllByNothing(m: Bytes, fs: seq<Field>)
    requires AllPlaced(fs, |m|)
    ensures PatchAll(m, fs, 0) == m
    decreases |fs|
  {
    hide Patch, Placed;
    if fs != [] {
      PatchByNothing(m, fs[0]);
      PatchAllByNothing(m, fs[1..]);
    }
  }

  /** Nothing outside the fields changes. */
  lemma {:induction false} PatchAllElsewhere(m: Bytes, fs: seq<Field>, d: int, p: nat)
    requires AllPlaced(fs, |m|) && p < |m| && forall k | 0 <= k < |fs| :: p !in Cells(fs[k])
    ensures PatchAll(m, fs, d)[p] == m[p]
    decreases |fs|
  {
    hide Placed, Cells, Value, Modulus;
    if fs != [] {
      assert p !in Cells(fs[0]);
      PatchAllElsewhere(Patch(m, fs[0], d), fs[1..], d, p);
    }
  }

  /** Patching the others leaves a field alone. */
  lemma PatchAllKeeps(m: Bytes, f: Field, fs: seq<Field>, d: int)
    requires Placed(f, |m|) && AllPlaced(fs, |m|) && Apart(f, fs)
    ensures Value(PatchAll(m, fs, d), f) == Value(m, f)
  {
    CellsInside(f, |m|);
    forall p: nat | p in Cells(f) ensures PatchAll(m, fs, d)[p] == m[p] {
      PatchAllElsewhere(m, fs, d, p);
    }
    hide Cells, Placed, PatchAll;
    PatchIsLocal(m, PatchAll(m, fs, d), f, 0);
  }

  /** Patching one field leaves another alone. */
  lemma PatchKeeps(m: Bytes, f: Field, d: int, g: Field)
    requires Placed(f, |m|) && Placed(g, |m|) && Cells(f) !! Cells(g)
    ensures Value(Patch(m, f, d), g) == Value(m, g)
  {
    CellsInside(g, |m|);
    PatchIsLocal(m, Patch(m, f, d), g, 0);
  }

  /** Every field is shifted by the same distance, or not at all. */
  lemma {:induction false} PatchAllValue(m: Bytes, fs: seq<Field>, d: int, k: nat)
    requires AllPlaced(fs, |m|) && Disjoint(fs) && k < |fs|
    ensures Value(PatchAll(m, fs, d), fs[k]) == (Value(m, fs[k]) + Shift(fs[k], d)) % Modulus(fs[k])
    decreases |fs|
  {
    hide Cells, Placed, Modulus, Value, Shift;
    var f, rest := fs[0], fs[1..];
    var n := Patch(m, f, d);
    if k == 0 {
      PatchAllKeeps(n, f, rest, d);
    } else {
      assert fs[k] == rest[k - 1];
      PatchKeeps(m, f, d, fs[k]);
      PatchAllValue(n, rest, d, k - 1);
    }
  }
}
