/**
 The MD5 message-digest algorithm as RFC 1321, section 3, gives it.
 */
module Octets {
  type Bytes = seq<bv8>

  function ByteOf(n: nat): bv8
    requires n < 256
  {
    n as bv8
  }

  /** The k low-order bytes of n, lowest first. */
  function LowFirst(n: nat, k: nat): (s: Bytes)
    ensures |s| == k
    decreases k
  {
    if k == 0 then [] else [ByteOf(n % 256)] + LowFirst(n / 256, k - 1)
  }
}

/** Sections 3.1 and 3.2: padding and length. */
module MessagePadding {
  import opened Octets

  const TWO_TO_THE_64 := 0x1_0000_0000_0000_0000

  function Zeros(n: nat): (z: Bytes)
    ensures |z| == n
  {
    seq(n, _ => 0)
  }

  /** Section 3.1: the least number of zero bytes after the 0x80 that leaves room for the length. */
  function ZeroCount(length: nat): (n: nat)
    ensures n < 64 && (length + 1 + n) % 64 == 56
  {
    (55 - length) % 64
  }

  function Wrap64(n: nat): nat { n % TWO_TO_THE_64 }

  /** Section 3.2: the low-order 64 bits of the length in bits. */
  function LengthInBits(length: nat): nat { Wrap64(length * 8) }

  /** Sections 3.1 and 3.2. */
  function Pad(m: Bytes): (p: Bytes)
    ensures |p| % 64 == 0 && m <= p
  {
    hide LowFirst, Padding;
    m + Padding(|m|) + LowFirst(LengthInBits(|m|), 8)
  }

  /** The bytes between the message and its length. */
  function Padding(length: nat): (p: Bytes)
    ensures 1 <= |p| <= 64 && (length + |p| + 8) % 64 == 0
  {
    hide Zeros, ZeroCount;
    [0x80] + Zeros(ZeroCount(length))
  }
}

module Rfc1321 {
  import opened Octets
  import opened MessagePadding

  type Block = s: Bytes | |s| == 64 witness seq(64, _ => 0)
  type Words16 = s: seq<bv32> | |s| == 16 witness seq(16, _ => 0)

  /** The four registers. */
  datatype Registers = Registers(a: bv32, b: bv32, c: bv32, d: bv32)

  /** Section 3.3. */
  const INITIAL := Registers(0x67452301, 0xefcdab89, 0x98badcfe, 0x10325476)

  // Section 3.4: the integer part of 4294967296 times abs(sin(i)), for i from 1 to 64, one round after the other.

  const SINES_1: seq<bv32> := [
    0xd76aa478, 0xe8c7b756, 0x242070db, 0xc1bdceee, 0xf57c0faf, 0x4787c62a, 0xa8304613, 0xfd469501,
    0x698098d8, 0x8b44f7af, 0xffff5bb1, 0x895cd7be, 0x6b901122, 0xfd987193, 0xa679438e, 0x49b40821
  ]

  const SINES_2: seq<bv32> := [
    0xf61e2562, 0xc040b340, 0x265e5a51, 0xe9b6c7aa, 0xd62f105d, 0x02441453, 0xd8a1e681, 0xe7d3fbc8,
    0x21e1cde6, 0xc33707d6, 0xf4d50d87, 0x455a14ed, 0xa9e3e905, 0xfcefa3f8, 0x676f02d9, 0x8d2a4c8a
  ]

  const SINES_3: seq<bv32> := [
    0xfffa3942, 0x8771f681, 0x6d9d6122, 0xfde5380c, 0xa4beea44, 0x4bdecfa9, 0xf6bb4b60, 0xbebfbc70,
    0x289b7ec6, 0xeaa127fa, 0xd4ef3085, 0x04881d05, 0xd9d4d039, 0xe6db99e5, 0x1fa27cf8, 0xc4ac5665
  ]

  const SINES_4: seq<bv32> := [
    0xf4292244, 0x432aff97, 0xab9423a7, 0xfc93a039, 0x655b59c3, 0x8f0ccc92, 0xffeff47d, 0x85845dd1,
    0x6fa87e4f, 0xfe2ce6e0, 0xa3014314, 0x4e0811a1, 0xf7537e82, 0xbd3af235, 0x2ad7d2bb, 0xeb86d391
  ]

  /** The constant of operation i, counted from 0. */
  function T(i: nat): bv32
    requires i < 64
  {
    if i < 16 then SINES_1[i] else if i < 32 then SINES_2[i - 16] else if i < 48 then SINES_3[i - 32] else SINES_4[i - 48]
  }

  /** The order in which a round takes the words of the block. */
  const ORDER: seq<seq<nat>> := [
    [0, 1, 2, 3, 4, 5, 6, 7, 8, 9, 10, 11, 12, 13, 14, 15],
    [1, 6, 11, 0, 5, 10, 15, 4, 9, 14, 3, 8, 13, 2, 7, 12],
    [5, 8, 11, 14, 1, 4, 7, 10, 13, 0, 3, 6, 9, 12, 15, 2],
    [0, 7, 14, 5, 12, 3, 10, 1, 8, 15, 6, 13, 4, 11, 2, 9]
  ]

  /** The rotations of a round, repeated four times. */
  const ROTATIONS: seq<seq<nat>> := [[7, 12, 17, 22], [5, 9, 14, 20], [4, 11, 16, 23], [6, 10, 15, 21]]

  // ----- Section 3.4: one block -----

  function F(x: bv32, y: bv32, z: bv32): bv32 { (x & y) | (!x & z) }
  function G(x: bv32, y: bv32, z: bv32): bv32 { (x & z) | (y & !z) }
  function H(x: bv32, y: bv32, z: bv32): bv32 { x ^ y ^ z }
  function I(x: bv32, y: bv32, z: bv32): bv32 { y ^ (x | !z) }

  function Rotate(x: bv32, n: nat): bv32
    requires n < 32
  {
    x.RotateLeft(n)
  }

  /** Addition of words is modulo 2^32. */
  function Plus(x: bv32, y: bv32): bv32 { x + y }

  function Sum(a: bv32, f: bv32, x: bv32, t: bv32): bv32 { a + f + x + t }

  function Auxiliary(round: nat, x: bv32, y: bv32, z: bv32): bv32 {
    match round
    case 0 => F(x, y, z)
    case 1 => G(x, y, z)
    case 2 => H(x, y, z)
    case _ => I(x, y, z)
  }

  function WordIndex(i: nat): (k: nat)
    requires i < 64
    ensures k < 16
  {
    ORDER[i / 16][i % 16]
  }

  function Rotation(i: nat): (n: nat)
    requires i < 64
    ensures n < 32
  {
    ROTATIONS[i / 16][i % 4]
  }

  /** The operation written [abcd k s i], with i counted from 0. */
  function Operation(i: nat, a: bv32, b: bv32, c: bv32, d: bv32, x: Words16): bv32
    requires i < 64
  {
    Plus(b, Rotate(Sum(a, Auxiliary(i / 16, b, c, d), x[WordIndex(i)], T(i)), Rotation(i)))
  }

  /** Operation number i: the registers take turns, A first, then D, C and B. */
  function Turn(i: nat, r: Registers, x: Words16): Registers
    requires i < 64
  {
    match i % 4
    case 0 => r.(a := Operation(i, r.a, r.b, r.c, r.d, x))
    case 1 => r.(d := Operation(i, r.d, r.a, r.b, r.c, x))
    case 2 => r.(c := Operation(i, r.c, r.d, r.a, r.b, x))
    case _ => r.(b := Operation(i, r.b, r.c, r.d, r.a, x))
  }

  /** The first n of the 64 operations. */
  function Turns(n: nat, r: Registers, x: Words16): Registers
    requires n <= 64
    decreases n
  {
    if n == 0 then r else Turn(n - 1, Turns(n - 1, r, x), x)
  }

  function ProcessBlock(r: Registers, x: Words16): Registers {
    var t := Turns(64, r, x);
    Registers(Plus(r.a, t.a), Plus(r.b, t.b), Plus(r.c, t.c), Plus(r.d, t.d))
  }

  // ----- Bytes and words: the low-order byte first (section 2) -----

  function Word(b0: bv8, b1: bv8, b2: bv8, b3: bv8): bv32 {
    (b0 as bv32) | ((b1 as bv32) << 8) | ((b2 as bv32) << 16) | ((b3 as bv32) << 24)
  }

  function WordBytes(w: bv32): (b: Bytes)
    ensures |b| == 4
  {
    [(w & 0xff) as bv8, ((w >> 8) & 0xff) as bv8, ((w >> 16) & 0xff) as bv8, (w >> 24) as bv8]
  }

  lemma WordOfBytes(b0: bv8, b1: bv8, b2: bv8, b3: bv8)
    ensures WordBytes(Word(b0, b1, b2, b3)) == [b0, b1, b2, b3]
  {
  }

  function Words(block: Block): Words16 {
    seq(16, i requires 0 <= i < 16 => Word(block[4 * i], block[4 * i + 1], block[4 * i + 2], block[4 * i + 3]))
  }

  // ----- A whole message -----

  /** The registers after the first n blocks of a padded message. */
  function ProcessBlocks(m: Bytes, n: nat): Registers
    requires 64 * n <= |m|
    decreases n
  {
    hide ProcessBlock, Words;
    if n == 0 then INITIAL else ProcessBlock(ProcessBlocks(m, n - 1), Words(m[64 * n - 64..64 * n]))
  }

  /** What follows the blocks does not matter to them. */
  lemma {:induction false} ProcessPrefix(m: Bytes, more: Bytes, n: nat)
    requires 64 * n <= |m|
    ensures ProcessBlocks(m + more, n) == ProcessBlocks(m, n)
    decreases n
  {
    hide ProcessBlock, Words;
    if n > 0 {
      ProcessPrefix(m, more, n - 1);
      assert (m + more)[64 * n - 64..64 * n] == m[64 * n - 64..64 * n];
    }
  }

  /** Section 3.5: A, B, C, D, each from its low-order byte. */
  function Output(r: Registers): Bytes { WordBytes(r.a) + WordBytes(r.b) + WordBytes(r.c) + WordBytes(r.d) }

  function Digest(m: Bytes): Bytes { Output(ProcessBlocks(Pad(m), |Pad(m)| / 64)) }
}
