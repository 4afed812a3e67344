/**
 The incremental MD5 context (src/libs/hashlib/md5.hpp, src/libs/hashlib/core.hpp) against RFC 1321.
 */
module HashLib {
  import opened Arith
  import opened Octets
  import opened MessagePadding
  import opened Rfc1321

  const S: seq<nat> := [7, 12, 17, 22, 5, 9, 14, 20, 4, 11, 16, 23, 6, 10, 15, 21]

  // ----- The block function: the registers move past each other instead of taking turns -----

  /** The registers of the standard after i operations, as the variables a, b, c and d hold them. */
  function Rotated(r: Registers, i: nat): Registers {
    match i % 4
    case 0 => r
    case 1 => Registers(r.d, r.a, r.b, r.c)
    case 2 => Registers(r.c, r.d, r.a, r.b)
    case _ => Registers(r.b, r.c, r.d, r.a)
  }

  lemma MovingIsTakingTurns(i: nat, r: Registers, x: Words16)
    requires i < 64
    ensures var v := Rotated(r, i);
            Rotated(Turn(i, r, x), i + 1) == Registers(v.d, Operation(i, v.a, v.b, v.c, v.d, x), v.b, v.c)
  {
    hide Operation;
    if i % 4 == 0 {
      assert (i + 1) % 4 == 1;
    } else if i % 4 == 1 {
      assert (i + 1) % 4 == 2;
    } else if i % 4 == 2 {
      assert (i + 1) % 4 == 3;
    } else {
      assert (i + 1) % 4 == 0;
    }
  }

  lemma RotatedAtEnds(r: Registers, t: Registers)
    ensures Rotated(r, 0) == r && Rotated(t, 64) == t
  {
  }

  lemma WordOfRound(i: nat)
    requires i < 64
    ensures WordIndex(i) == if i < 16 then i else if i < 32 then (5 * i + 1) % 16 else if i < 48 then (3 * i + 5) % 16 else (7 * i) % 16
  {
    var round, k := i / 16, i % 16;
    OrderOfRounds(k);
    WholeRounds(5 * round, 5 * k + 1);
    WholeRounds(3 * round, 3 * k + 5);
    WholeRounds(7 * round, 7 * k);
    WordIndexIs(i);
  }

  lemma WordIndexIs(i: nat)
    requires i < 64
    ensures WordIndex(i) == ORDER[i / 16][i % 16]
  {
  }

  lemma WholeRounds(n: nat, x: nat)
    ensures (16 * n + x) % 16 == x % 16
  {
  }

  lemma OrderOfRounds(k: nat)
    requires k < 16
    ensures ORDER[0][k] == k && ORDER[1][k] == (5 * k + 1) % 16
    ensures ORDER[2][k] == (3 * k + 5) % 16 && ORDER[3][k] == 7 * k % 16
  {
    assert k == 0 || k == 1 || k == 2 || k == 3 || k == 4 || k == 5 || k == 6 || k == 7 ||
           k == 8 || k == 9 || k == 10 || k == 11 || k == 12 || k == 13 || k == 14 || k == 15;
  }

  lemma RotationOfRound(i: nat)
    requires i < 64
    ensures Rotation(i) == S[i / 16 * 4 + i % 4] && 0 < Rotation(i)
  {
  }

  function ByShifts(x: bv32, n: nat): bv32
    requires n < 32
  {
    (x << n) | (x >> (32 - n))
  }

  lemma ShiftsOfFirstRounds(x: bv32)
    ensures ByShifts(x, 7) == Rotate(x, 7) && ByShifts(x, 12) == Rotate(x, 12)
    ensures ByShifts(x, 17) == Rotate(x, 17) && ByShifts(x, 22) == Rotate(x, 22)
    ensures ByShifts(x, 5) == Rotate(x, 5) && ByShifts(x, 9) == Rotate(x, 9)
    ensures ByShifts(x, 14) == Rotate(x, 14) && ByShifts(x, 20) == Rotate(x, 20)
  {
  }

  lemma ShiftsOfLastRounds(x: bv32)
    ensures ByShifts(x, 4) == Rotate(x, 4) && ByShifts(x, 11) == Rotate(x, 11)
    ensures ByShifts(x, 16) == Rotate(x, 16) && ByShifts(x, 23) == Rotate(x, 23)
    ensures ByShifts(x, 6) == Rotate(x, 6) && ByShifts(x, 10) == Rotate(x, 10)
    ensures ByShifts(x, 15) == Rotate(x, 15) && ByShifts(x, 21) == Rotate(x, 21)
  {
  }

  lemma RotationByShifts(x: bv32, i: nat)
    requires i < 64
    ensures ByShifts(x, Rotation(i)) == Rotate(x, Rotation(i))
  {
    ShiftsOfFirstRounds(x);
    ShiftsOfLastRounds(x);
    hide ByShifts, Rotate;
    assert i % 4 == 0 || i % 4 == 1 || i % 4 == 2 || i % 4 == 3;
  }

  method Function1(b: bv32, c: bv32, d: bv32) returns (f: bv32)
    ensures f == F(b, c, d)
  {
    f := (b & c) | (!b & d);
  }

  method Function2(b: bv32, c: bv32, d: bv32) returns (f: bv32)
    ensures f == G(b, c, d)
  {
    f := (d & b) | (!d & c);
  }

  method Function3(b: bv32, c: bv32, d: bv32) returns (f: bv32)
    ensures f == H(b, c, d)
  {
    f := b ^ c ^ d;
  }

  method Function4(b: bv32, c: bv32, d: bv32) returns (f: bv32)
    ensures f == I(b, c, d)
  {
    f := c ^ (b | !d);
  }

  method Select(i: nat, b: bv32, c: bv32, d: bv32) returns (f: bv32, g: nat, cnt: nat)
    requires i < 64
    ensures f == Auxiliary(i / 16, b, c, d) && g == WordIndex(i) && cnt == Rotation(i) && 0 < cnt
  {
    WordOfRound(i);
    RotationOfRound(i);
    hide WordIndex, Rotation, F, G, H, I;
    if i < 16 {
      f := Function1(b, c, d);
      g, cnt := i, S[i % 4];
    } else if i < 32 {
      f := Function2(b, c, d);
      g, cnt := (5 * i + 1) % 16, S[4 + i % 4];
    } else if i < 48 {
      f := Function3(b, c, d);
      g, cnt := (3 * i + 5) % 16, S[8 + i % 4];
    } else {
      f := Function4(b, c, d);
      g, cnt := (7 * i) % 16, S[12 + i % 4];
    }
  }

  method AddIn(a: bv32, f: bv32, x: bv32, t: bv32) returns (sum: bv32)
    ensures sum == Sum(a, f, x, t)
  {
    sum := f + a + t + x;
  }

  class Md5 {
    var buffer: array<bv8>
    var bufferSize: nat
    /** A 64-bit count: it wraps. */
    var totalSize: nat
    var a: bv32
    var b: bv32
    var c: bv32
    var d: bv32
    /** Everything hashed so far. */
    ghost var message: Bytes

    function State(): Registers
      reads this`a, this`b, this`c, this`d
    {
      Registers(a, b, c, d)
    }

    /** The registers have taken the whole blocks of m, and the buffer holds the rest of it. */
    ghost predicate Holds(m: Bytes)
      reads this, buffer
    {
      && buffer.Length == 64 && bufferSize < 64 && bufferSize <= |m|
      && (|m| - bufferSize) % 64 == 0
      && buffer[..bufferSize] == m[|m| - bufferSize..]
      && State() == ProcessBlocks(m, (|m| - bufferSize) / 64)
    }

    ghost predicate Valid()
      reads this, buffer
    {
      Holds(message) && totalSize == Wrap64(|message|)
    }

    constructor ()
      ensures Valid() && message == [] && fresh(buffer)
    {
      buffer, bufferSize, totalSize := new bv8[64], 0, 0;
      a, b, c, d := INITIAL.a, INITIAL.b, INITIAL.c, INITIAL.d;
      message := [];
    }

    method Process(w: Words16)
      modifies this`a, this`b, this`c, this`d
      ensures State() == ProcessBlock(old(State()), w)
    {
      hide Turn, Operation, Rotated, Plus;
      var a, b, c, d := this.a, this.b, this.c, this.d;
      ghost var r := State();
      RotatedAtEnds(r, Turns(64, r, w));
      for i := 0 to 64
        invariant State() == r
        invariant Registers(a, b, c, d) == Rotated(Turns(i, r, w), i)
      {
        MovingIsTakingTurns(i, Turns(i, r, w), w);
        a, b, c, d := Step(i, a, b, c, d, w);
      }
      this.a, this.b, this.c, this.d := Plus(this.a, a), Plus(this.b, b), Plus(this.c, c), Plus(this.d, d);
    }

    static method Step(i: nat, a: bv32, b: bv32, c: bv32, d: bv32, w: Words16) returns (a': bv32, b': bv32, c': bv32, d': bv32)
      requires i < 64
      ensures Registers(a', b', c', d') == Registers(d, Operation(i, a, b, c, d, w), b, c)
    {
      hide Auxiliary, WordIndex, Rotation, Rotate, Sum, Plus, ByShifts;
      var f, g, cnt := Select(i, b, c, d);
      f := AddIn(a, f, w[g], T(i));
      RotationByShifts(f, i);
      a', d', c' := d, c, b;
      b' := Plus(b, ByShifts(f, cnt));
    }

    static method WTable(bytes: Block) returns (w: Words16)
      ensures w == Words(bytes)
    {
      var table := new bv32[16];
      for i := 0 to 16
        invariant table[..i] == Words(bytes)[..i]
      {
        table[i] := (bytes[i * 4] as bv32) | ((bytes[i * 4 + 1] as bv32) << 8)
          | ((bytes[i * 4 + 2] as bv32) << 16) | ((bytes[i * 4 + 3] as bv32) << 24);
      }
      w := table[..];
    }

    /** One more block, with nothing buffered. */
    method TakeBlock(block: Block, ghost m: Bytes)
      requires Holds(m) && bufferSize == 0
      modifies this`a, this`b, this`c, this`d
      ensures Holds(m + block)
    {
      var w := WTable(block);
      hide Words, ProcessBlock;
      Process(w);
      ProcessOneMore(m, block);
    }

    /** The buffer is full: it is the next block. */
    method TakeBuffer(ghost head: Bytes)
      requires buffer.Length == bufferSize == 64 && |head| % 64 == 0
      requires State() == ProcessBlocks(head, |head| / 64)
      modifies this`bufferSize, this`a, this`b, this`c, this`d
      ensures Holds(head + buffer[..]) && bufferSize == 0
    {
      hide Words, ProcessBlock;
      var w := WTable(buffer[..]);
      Process(w);
      bufferSize := 0;
      ProcessOneMore(head, buffer[..]);
    }

    /** Completes the buffered block as far as the bytes go. */
    method FillBuffer(bytes: Bytes, ghost m: Bytes) returns (i: nat)
      requires Holds(m) && bufferSize > 0
      modifies this`bufferSize, this`a, this`b, this`c, this`d, buffer
      ensures i <= |bytes| && Holds(m + bytes[..i]) && (i < |bytes| ==> bufferSize == 0)
    {
      hide Words, ProcessBlock;
      i := if |bytes| < 64 - bufferSize then |bytes| else 64 - bufferSize;
      ghost var head, rest := m[..|m| - bufferSize], m[|m| - bufferSize..] + bytes[..i];
      assert m + bytes[..i] == head + rest;
      ProcessPrefix(head, rest, |head| / 64);
      ProcessPrefix(m, bytes[..i], |head| / 64);
      hide ProcessBlocks;
      Copy(bytes, 0, i, bufferSize);
      bufferSize := bufferSize + i;
      assert buffer[..bufferSize] == rest;
      if bufferSize == 64 {
        assert buffer[..] == rest;
        TakeBuffer(head);
      }
    }

    method Copy(bytes: Bytes, from: nat, n: nat, at: nat)
      requires from + n <= |bytes| && at + n <= buffer.Length
      modifies buffer
      ensures buffer[..at + n] == old(buffer[..at]) + bytes[from..from + n]
    {
      for k := 0 to n
        invariant buffer[..at + k] == old(buffer[..at]) + bytes[from..from + k]
      {
        buffer[at + k] := bytes[from + k];
        assert buffer[..at + k + 1] == buffer[..at + k] + [bytes[from + k]];
      }
    }

    /** All the whole blocks from position i on. */
    method TakeBlocks(bytes: Bytes, from: nat, ghost m: Bytes) returns (i: nat)
      requires from <= |bytes| && Holds(m + bytes[..from]) && (from < |bytes| ==> bufferSize == 0)
      modifies this`a, this`b, this`c, this`d
      ensures i <= |bytes| < i + 64 && Holds(m + bytes[..i]) && (i < |bytes| ==> bufferSize == 0)
    {
      hide Words, ProcessBlock, ProcessBlocks, State;
      i := from;
      while i + 63 < |bytes|
        invariant i <= |bytes| && Holds(m + bytes[..i]) && (i < |bytes| ==> bufferSize == 0)
      {
        TakeBlock(bytes[i..i + 64], m + bytes[..i]);
        assert m + bytes[..i] + bytes[i..i + 64] == m + bytes[..i + 64];
        i := i + 64;
      }
    }

    method Update(bytes: Bytes)
      requires Valid()
      modifies this, buffer
      ensures Valid() && buffer == old(buffer) && message == old(message) + bytes
    {
      hide Words, ProcessBlock, ProcessBlocks, State, Wrap64;
      ghost var m := message;
      totalSize := Wrap64(totalSize + |bytes|);
      WrapAdds(|m|, |bytes|);
      message := m + bytes;
      Absorb(bytes, m);
    }

    /** Completes the buffered block, takes the whole blocks that follow and keeps the rest. */
    method Absorb(bytes: Bytes, ghost m: Bytes)
      requires Holds(m)
      modifies this`bufferSize, this`a, this`b, this`c, this`d, buffer
      ensures Holds(m + bytes)
    {
      hide Words, ProcessBlock, ProcessBlocks, State;
      var i := 0;
      assert m + bytes[..0] == m;
      if bufferSize > 0 {
        i := FillBuffer(bytes, m);
      }
      i := TakeBlocks(bytes, i, m);
      hide Holds;
      if i < |bytes| {
        StoreRest(bytes[i..], m + bytes[..i]);
        assert m + bytes[..i] + bytes[i..] == m + bytes;
      } else {
        assert bytes[..i] == bytes;
      }
    }

    /** The overload for input iterators: 128 bytes at a time through a temporary. */
    method UpdateFromIterator(bytes: Bytes)
      requires Valid()
      modifies this, buffer
      ensures Valid() && buffer == old(buffer) && message == old(message) + bytes
    {
      hide Valid;
      var it := 0;
      while it < |bytes|
        invariant it <= |bytes| && Valid() && buffer == old(buffer) && message == old(message) + bytes[..it]
      {
        var temp, n := FillTemp(bytes, it);
        Update(temp[..n]);
        assert bytes[..it] + bytes[it..it + n] == bytes[..it + n];
        it := it + n;
      }
      assert bytes[..it] == bytes;
    }

    static method FillTemp(bytes: Bytes, it: nat) returns (temp: array<bv8>, n: nat)
      requires it < |bytes|
      ensures 0 < n <= temp.Length && it + n <= |bytes| && temp[..n] == bytes[it..it + n]
    {
      temp, n := new bv8[128], 0;
      while it + n < |bytes| && n < 128
        invariant it + n <= |bytes| && n <= 128 && temp[..n] == bytes[it..it + n]
      {
        temp[n] := bytes[it + n];
        n := n + 1;
      }
    }

    /** The last bytes, fewer than a block, wait in the buffer. */
    method StoreRest(rest: Bytes, ghost m: Bytes)
      requires Holds(m) && bufferSize == 0 && 0 < |rest| < 64
      modifies this`bufferSize, buffer
      ensures Holds(m + rest)
    {
      hide ProcessBlock, Words;
      Copy(rest, 0, |rest|, 0);
      bufferSize := |rest|;
      ProcessPrefix(m, rest, |m| / 64);
    }

    lemma BufferedLength()
      requires Valid()
      ensures bufferSize < 64 && bufferSize <= |message| && (|message| - bufferSize) % 64 == 0
      ensures LengthInBits(totalSize) == LengthInBits(|message|)
    {
      hide LengthInBits, ProcessBlocks, State, Wrap64;
      BitCount(|message|);
    }

    /** Pads what has been hashed, through two more updates. */
    method AddPadding()
      requires Valid()
      modifies this, buffer
      ensures Valid() && buffer == old(buffer) && message == Pad(old(message))
    {
      hide Valid, Holds, LowFirst, Padding, LengthInBits;
      BufferedLength();
      var bits := LengthInBits(totalSize);
      var padding := NewPadding(bufferSize, |message|);
      Update(padding[..if bufferSize < 56 then 56 - bufferSize else 120 - bufferSize]);
      var length := LengthBytes(padding, bits);
      Update(length);
    }

    method LengthBytes(padding: array<bv8>, bits: nat) returns (length: Bytes)
      requires padding.Length >= 8
      modifies padding
      ensures length == LowFirst(bits, 8)
    {
      StoreLowFirst(padding, bits);
      length := padding[..8];
    }

    method NewPadding(bufferSize: nat, ghost length: nat)
      returns (padding: array<bv8>)
      requires bufferSize < 64 && bufferSize <= length && (length - bufferSize) % 64 == 0
      ensures fresh(padding) && padding.Length == 128
      ensures padding[..if bufferSize < 56 then 56 - bufferSize else 120 - bufferSize] == Padding(length)
    {
      padding := new bv8[128](_ => 0);
      padding[0] := 0x80;
      PadBuffered(length, bufferSize);
      hide Padding;
    }

    /** Every field, to be put back later. */
    function Snapshot(): (Bytes, nat, nat, Registers)
      reads this, buffer
    {
      (buffer[..], bufferSize, totalSize, State())
    }

    /** Pads the context's own state, and puts everything back. */
    method DoDigest() returns (r: Registers)
      requires Valid()
      modifies this, buffer
      ensures r == ProcessBlocks(Pad(message), |Pad(message)| / 64)
      ensures Snapshot() == old(Snapshot()) && buffer == old(buffer) && message == old(message)
    {
      hide ProcessBlocks, Pad;
      ghost var m := message;
      var saved := Snapshot();
      AddPadding();
      WholeBlocks();
      r := State();
      Restore(saved, m);
    }

    lemma WholeBlocks()
      requires Valid() && |message| % 64 == 0
      ensures State() == ProcessBlocks(message, |message| / 64)
    {
      hide ProcessBlocks;
    }

    method Restore(saved: (Bytes, nat, nat, Registers), ghost m: Bytes)
      requires |saved.0| == buffer.Length
      modifies this, buffer
      ensures Snapshot() == saved && buffer == old(buffer) && message == m
    {
      forall k | 0 <= k < buffer.Length { buffer[k] := saved.0[k]; }
      bufferSize, totalSize, message := saved.1, saved.2, m;
      a, b, c, d := saved.3.a, saved.3.b, saved.3.c, saved.3.d;
      assert buffer[..] == saved.0;
    }

    method Digest() returns (result: array<bv8>)
      requires Valid()
      modifies this, buffer
      ensures fresh(result) && result[..] == Rfc1321.Digest(message)
      ensures Valid() && Snapshot() == old(Snapshot()) && buffer == old(buffer) && message == old(message)
    {
      hide ProcessBlocks, Pad, Output;
      var r := DoDigest();
      result := UnitsToBytes(r);
    }
  }

  method UnitsToBytes(r: Registers) returns (result: array<bv8>)
    ensures fresh(result) && result[..] == Output(r)
  {
    hide WordBytes;
    result := new bv8[16];
    var units := [r.a, r.b, r.c, r.d];
    for i := 0 to 4
      invariant result[..4 * i] == Output(r)[..4 * i]
    {
      var unit := WordBytes(units[i]);
      assert Output(r)[..4 * i + 4] == Output(r)[..4 * i] + unit by {
        UnitOfOutput(r, i);
      }
      hide Output;
      StoreUnit(result, 4 * i, unit);
    }
  }

  lemma UnitOfOutput(r: Registers, i: nat)
    requires i < 4
    ensures Output(r)[4 * i..4 * i + 4] == WordBytes([r.a, r.b, r.c, r.d][i])
  {
    hide WordBytes;
  }

  method StoreUnit(result: array<bv8>, at: nat, unit: Bytes)
    requires at + |unit| <= result.Length
    modifies result
    ensures result[..at + |unit|] == old(result[..at]) + unit
  {
    for j := 0 to |unit|
      invariant result[..at + j] == old(result[..at]) + unit[..j]
    {
      result[at + j] := unit[j];
      assert result[..at + j + 1] == result[..at + j] + [unit[j]];
    }
  }

  method StoreLowFirst(padding: array<bv8>, bits: nat)
    requires padding.Length >= 8
    modifies padding
    ensures padding[..8] == LowFirst(bits, 8)
  {
    for i := 0 to 8
      invariant padding[..i] == LowFirst(bits, 8)[..i]
    {
      LowFirstAt(bits, 8, i);
      padding[i] := ByteOf(Shifted(bits, i) % 256);
    }
  }

  /** bits >> (8 * i) */
  function Shifted(bits: nat, i: nat): nat
    decreases i
  {
    if i == 0 then bits else Shifted(bits / 256, i - 1)
  }

  lemma {:induction false} LowFirstAt(n: nat, k: nat, i: nat)
    requires i < k
    ensures LowFirst(n, k)[i] == ByteOf(Shifted(n, i) % 256)
    decreases i
  {
    hide ByteOf;
    if i > 0 {
      LowFirstAt(n / 256, k - 1, i - 1);
    }
  }

  /** The padding depends on the length only through what is buffered. */
  lemma PadBuffered(length: nat, buffered: nat)
    requires buffered < 64 && buffered <= length && (length - buffered) % 64 == 0
    ensures Padding(length) == [0x80] + Zeros((if buffered < 56 then 56 - buffered else 120 - buffered) - 1)
  {
    assert (55 - length) % 64 == (55 - buffered) % 64;
  }

  /** The wrapped byte count still gives the number of bits modulo 2^64. */
  lemma WrapAdds(n: nat, k: nat)
    ensures Wrap64(Wrap64(n) + k) == Wrap64(n + k)
  {
    var q, r := n / TWO_TO_THE_64, n % TWO_TO_THE_64 + k;
    DivModUnique(n + k, TWO_TO_THE_64, q + r / TWO_TO_THE_64, r % TWO_TO_THE_64);
  }

  lemma BitCount(length: nat)
    ensures LengthInBits(Wrap64(length)) == LengthInBits(length)
  {
    var q, r := length / TWO_TO_THE_64, length % TWO_TO_THE_64;
    DivModUnique(length * 8, TWO_TO_THE_64, 8 * q + r * 8 / TWO_TO_THE_64, r * 8 % TWO_TO_THE_64);
  }

  lemma ProcessOneMore(m: Bytes, block: Block)
    requires |m| % 64 == 0
    ensures |m + block| % 64 == 0 && |m + block| / 64 == |m| / 64 + 1
    ensures ProcessBlocks(m + block, |m + block| / 64) == ProcessBlock(ProcessBlocks(m, |m| / 64), Words(block))
  {
    hide ProcessBlock, Words;
    ProcessPrefix(m, block, |m| / 64);
    assert (m + block)[|m|..|m| + 64] == block;
  }

  // ----- Any split of a message -----

  function Concat(parts: seq<Bytes>): Bytes
    decreases |parts|
  {
    if parts == [] then [] else Concat(parts[..|parts| - 1]) + parts[|parts| - 1]
  }

  /** However a message is cut into updates, the digest is that of the standard, and hashing can go on after
      each digest: the digest taken after the first k parts is the digest of those parts joined. */
  method DigestOfParts(parts: seq<Bytes>) returns (digests: seq<Bytes>)
    ensures |digests| == |parts| + 1
    ensures forall k | 0 <= k <= |parts| :: digests[k] == Rfc1321.Digest(Concat(parts[..k]))
  {
    hide Rfc1321.Digest;
    var context := new Md5();
    hide Md5.Valid;
    var first := context.Digest();
    assert parts[..0] == [];
    digests := [first[..]];
    for k := 0 to |parts|
      invariant context.Valid() && fresh(context) && fresh(context.buffer) && context.message == Concat(parts[..k])
      invariant |digests| == k + 1 && forall j | 0 <= j <= k :: digests[j] == Rfc1321.Digest(Concat(parts[..j]))
    {
      context.Update(parts[k]);
      assert parts[..k + 1][..k] == parts[..k];
      var next := context.Digest();
      digests := digests + [next[..]];
    }
  }
}
