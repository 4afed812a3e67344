/**
 The fifth vector of the test suite in section A.5 of RFC 1321, the digest of the alphabet, worked out operation by
 operation: it pins down every constant, rotation and word of the algorithm.
 */
module Md5Vectors {
  import opened Octets
  import opened MessagePadding
  import opened Rfc1321
  import opened HashLib

  /** The letters a to z. */
  const ALPHABET: Bytes := [
    0x61, 0x62, 0x63, 0x64, 0x65, 0x66, 0x67, 0x68, 0x69, 0x6a, 0x6b, 0x6c, 0x6d,
    0x6e, 0x6f, 0x70, 0x71, 0x72, 0x73, 0x74, 0x75, 0x76, 0x77, 0x78, 0x79, 0x7a
  ]

  const DIGEST: Bytes := [
    0xc3, 0xfc, 0xd3, 0xd7, 0x61, 0x92, 0xe4, 0x00, 0x7d, 0xfb, 0x49, 0x6c, 0xca, 0x67, 0xe1, 0x3b
  ]

  /** The one block of the padded message. */
  const WORDS: Words16 := [
    0x64636261, 0x68676665, 0x6c6b6a69, 0x706f6e6d, 0x74737271, 0x78777675, 0x00807a79, 0x00000000,
    0x00000000, 0x00000000, 0x00000000, 0x00000000, 0x00000000, 0x00000000, 0x000000d0, 0x00000000
  ]

  // ----- The 64 operations -----

  /** Operation i on these registers gives v. */
  predicate Gives(i: nat, a: bv32, b: bv32, c: bv32, d: bv32, v: bv32)
    requires i < 64
  {
    Operation(i, a, b, c, d, WORDS) == v
  }

  lemma Next(i: nat, r: Registers, t: Registers)
    requires i < 64 && Turns(i, INITIAL, WORDS) == r
    requires i % 4 == 0 ==> t == r.(a := t.a) && Gives(i, r.a, r.b, r.c, r.d, t.a)
    requires i % 4 == 1 ==> t == r.(d := t.d) && Gives(i, r.d, r.a, r.b, r.c, t.d)
    requires i % 4 == 2 ==> t == r.(c := t.c) && Gives(i, r.c, r.d, r.a, r.b, t.c)
    requires i % 4 == 3 ==> t == r.(b := t.b) && Gives(i, r.b, r.c, r.d, r.a, t.b)
    ensures Turns(i + 1, INITIAL, WORDS) == t
  {
    hide Operation;
  }

  lemma Operations00()
    ensures Gives(0, 0x67452301, 0xefcdab89, 0x98badcfe, 0x10325476, 0xd6d117a6)
    ensures Gives(1, 0x10325476, 0xd6d117a6, 0xefcdab89, 0x98badcfe, 0xaab1aaaa)
  {
    WordOfRound(0);
    WordOfRound(1);
    hide WordIndex;
  }

  lemma Operations02()
    ensures Gives(2, 0x98badcfe, 0xaab1aaaa, 0xd6d117a6, 0xefcdab89, 0x227d8cf1)
    ensures Gives(3, 0xefcdab89, 0x227d8cf1, 0xaab1aaaa, 0xd6d117a6, 0x4503b812)
  {
    WordOfRound(2);
    WordOfRound(3);
    hide WordIndex;
  }

  lemma Operations04()
    ensures Gives(4, 0xd6d117a6, 0x4503b812, 0x227d8cf1, 0xaab1aaaa, 0xfe15f787)
    ensures Gives(5, 0xaab1aaaa, 0xfe15f787, 0x4503b812, 0x227d8cf1, 0xa811b278)
  {
    WordOfRound(4);
    WordOfRound(5);
    hide WordIndex;
  }

  lemma Operations06()
    ensures Gives(6, 0x227d8cf1, 0xa811b278, 0xfe15f787, 0x4503b812, 0xb71122fc)
    ensures Gives(7, 0x4503b812, 0xb71122fc, 0xa811b278, 0xfe15f787, 0xda9bbb0d)
  {
    WordOfRound(6);
    WordOfRound(7);
    hide WordIndex;
  }

  lemma Operations08()
    ensures Gives(8, 0xfe15f787, 0xda9bbb0d, 0xb71122fc, 0xa811b278, 0xae752899)
    ensures Gives(9, 0xa811b278, 0xae752899, 0xda9bbb0d, 0xb71122fc, 0x2bbe757f)
  {
    WordOfRound(8);
    WordOfRound(9);
    hide WordIndex;
  }

  lemma Operations10()
    ensures Gives(10, 0xb71122fc, 0x2bbe757f, 0xae752899, 0xda9bbb0d, 0x7d4bd80b)
    ensures Gives(11, 0xda9bbb0d, 0x7d4bd80b, 0x2bbe757f, 0xae752899, 0x56cfa5cb)
  {
    WordOfRound(10);
    WordOfRound(11);
    hide WordIndex;
  }

  lemma Operations12()
    ensures Gives(12, 0xae752899, 0x56cfa5cb, 0x7d4bd80b, 0x2bbe757f, 0x1754a316)
    ensures Gives(13, 0x2bbe757f, 0x1754a316, 0x56cfa5cb, 0x7d4bd80b, 0x85567d90)
  {
    WordOfRound(12);
    WordOfRound(13);
    hide WordIndex;
  }

  lemma Operations14()
    ensures Gives(14, 0x7d4bd80b, 0x85567d90, 0x1754a316, 0x56cfa5cb, 0x00df74d5)
    ensures Gives(15, 0x56cfa5cb, 0x00df74d5, 0x85567d90, 0x1754a316, 0x608d6b7e)
  {
    WordOfRound(14);
    WordOfRound(15);
    hide WordIndex;
  }

  lemma Operations16()
    ensures Gives(16, 0x1754a316, 0x608d6b7e, 0x00df74d5, 0x85567d90, 0x2d8071cc)
    ensures Gives(17, 0x85567d90, 0x2d8071cc, 0x608d6b7e, 0x00df74d5, 0x5dcee119)
  {
    WordOfRound(16);
    WordOfRound(17);
    hide WordIndex;
  }

  lemma Operations18()
    ensures Gives(18, 0x00df74d5, 0x5dcee119, 0x2d8071cc, 0x608d6b7e, 0xedfe7e4b)
    ensures Gives(19, 0x608d6b7e, 0xedfe7e4b, 0x5dcee119, 0x2d8071cc, 0x4c2145b3)
  {
    WordOfRound(18);
    WordOfRound(19);
    hide WordIndex;
  }

  lemma Operations20()
    ensures Gives(20, 0x2d8071cc, 0x4c2145b3, 0xedfe7e4b, 0x5dcee119, 0x570c43e0)
    ensures Gives(21, 0x5dcee119, 0x570c43e0, 0x4c2145b3, 0xedfe7e4b, 0x977efd2a)
  {
    WordOfRound(20);
    WordOfRound(21);
    hide WordIndex;
  }

  lemma Operations22()
    ensures Gives(22, 0xedfe7e4b, 0x977efd2a, 0x570c43e0, 0x4c2145b3, 0xc28ab49d)
    ensures Gives(23, 0x4c2145b3, 0xc28ab49d, 0x977efd2a, 0x570c43e0, 0xc9f162d4)
  {
    WordOfRound(22);
    WordOfRound(23);
    hide WordIndex;
  }

  lemma Operations24()
    ensures Gives(24, 0x570c43e0, 0xc9f162d4, 0xc28ab49d, 0x977efd2a, 0x25bfae3b)
    ensures Gives(25, 0x977efd2a, 0x25bfae3b, 0xc9f162d4, 0xc28ab49d, 0x89980104)
  {
    WordOfRound(24);
    WordOfRound(25);
    hide WordIndex;
  }

  lemma Operations26()
    ensures Gives(26, 0xc28ab49d, 0x89980104, 0x25bfae3b, 0xc9f162d4, 0xf8c8365f)
    ensures Gives(27, 0xc9f162d4, 0xf8c8365f, 0x89980104, 0x25bfae3b, 0xe6d3b398)
  {
    WordOfRound(26);
    WordOfRound(27);
    hide WordIndex;
  }

  lemma Operations28()
    ensures Gives(28, 0x25bfae3b, 0xe6d3b398, 0xf8c8365f, 0x89980104, 0xf54d8710)
    ensures Gives(29, 0x89980104, 0xf54d8710, 0xe6d3b398, 0xf8c8365f, 0x927b72e2)
  {
    WordOfRound(28);
    WordOfRound(29);
    hide WordIndex;
  }

  lemma Operations30()
    ensures Gives(30, 0xf8c8365f, 0x927b72e2, 0xf54d8710, 0xe6d3b398, 0x2e69afc7)
    ensures Gives(31, 0xe6d3b398, 0x2e69afc7, 0x927b72e2, 0xf54d8710, 0xaeb35766)
  {
    WordOfRound(30);
    WordOfRound(31);
    hide WordIndex;
  }

  lemma Operations32()
    ensures Gives(32, 0xf54d8710, 0xaeb35766, 0x2e69afc7, 0x927b72e2, 0xb4bf680e)
    ensures Gives(33, 0x927b72e2, 0xb4bf680e, 0xaeb35766, 0x2e69afc7, 0x4c8ffa80)
  {
    WordOfRound(32);
    WordOfRound(33);
    hide WordIndex;
  }

  lemma Operations34()
    ensures Gives(34, 0x2e69afc7, 0x4c8ffa80, 0xb4bf680e, 0xaeb35766, 0x2361ed0a)
    ensures Gives(35, 0xaeb35766, 0x2361ed0a, 0x4c8ffa80, 0xb4bf680e, 0x06a5e211)
  {
    WordOfRound(34);
    WordOfRound(35);
    hide WordIndex;
  }

  lemma Operations36()
    ensures Gives(36, 0xb4bf680e, 0x06a5e211, 0x2361ed0a, 0x4c8ffa80, 0xb9c0c733)
    ensures Gives(37, 0x4c8ffa80, 0xb9c0c733, 0x06a5e211, 0x2361ed0a, 0xf1e6dc7a)
  {
    WordOfRound(36);
    WordOfRound(37);
    hide WordIndex;
  }

  lemma Operations38()
    ensures Gives(38, 0x2361ed0a, 0xf1e6dc7a, 0xb9c0c733, 0x06a5e211, 0x23a9451b)
    ensures Gives(39, 0x06a5e211, 0x23a9451b, 0xf1e6dc7a, 0xb9c0c733, 0x8d41bf99)
  {
    WordOfRound(38);
    WordOfRound(39);
    hide WordIndex;
  }

  lemma Operations40()
    ensures Gives(40, 0xb9c0c733, 0x8d41bf99, 0x23a9451b, 0xf1e6dc7a, 0xa3e88ead)
    ensures Gives(41, 0xf1e6dc7a, 0xa3e88ead, 0x8d41bf99, 0x23a9451b, 0x02c0b11c)
  {
    WordOfRound(40);
    WordOfRound(41);
    hide WordIndex;
  }

  lemma Operations42()
    ensures Gives(42, 0x23a9451b, 0x02c0b11c, 0xa3e88ead, 0x8d41bf99, 0x66f6468d)
    ensures Gives(43, 0x8d41bf99, 0x66f6468d, 0x02c0b11c, 0xa3e88ead, 0x90a35af5)
  {
    WordOfRound(42);
    WordOfRound(43);
    hide WordIndex;
  }

  lemma Operations44()
    ensures Gives(44, 0xa3e88ead, 0x90a35af5, 0x66f6468d, 0x02c0b11c, 0xb5d41f9c)
    ensures Gives(45, 0x02c0b11c, 0xb5d41f9c, 0x90a35af5, 0x66f6468d, 0xa04b4904)
  {
    WordOfRound(44);
    WordOfRound(45);
    hide WordIndex;
  }

  lemma Operations46()
    ensures Gives(46, 0x66f6468d, 0xa04b4904, 0xb5d41f9c, 0x90a35af5, 0x703d54d8)
    ensures Gives(47, 0x90a35af5, 0x703d54d8, 0xa04b4904, 0xb5d41f9c, 0x71d10367)
  {
    WordOfRound(46);
    WordOfRound(47);
    hide WordIndex;
  }

  lemma Operations48()
    ensures Gives(48, 0xb5d41f9c, 0x71d10367, 0x703d54d8, 0xa04b4904, 0xfc32dd6e)
    ensures Gives(49, 0xa04b4904, 0xfc32dd6e, 0x71d10367, 0x703d54d8, 0x65456b34)
  {
    WordOfRound(48);
    WordOfRound(49);
    hide WordIndex;
  }

  lemma Operations50()
    ensures Gives(50, 0x703d54d8, 0x65456b34, 0xfc32dd6e, 0x71d10367, 0xb35602cb)
    ensures Gives(51, 0x71d10367, 0xb35602cb, 0x65456b34, 0xfc32dd6e, 0x33edb197)
  {
    WordOfRound(50);
    WordOfRound(51);
    hide WordIndex;
  }

  lemma Operations52()
    ensures Gives(52, 0xfc32dd6e, 0x33edb197, 0xb35602cb, 0x65456b34, 0xc1e942f1)
    ensures Gives(53, 0x65456b34, 0xc1e942f1, 0x33edb197, 0xb35602cb, 0xd9bb987c)
  {
    WordOfRound(52);
    WordOfRound(53);
    hide WordIndex;
  }

  lemma Operations54()
    ensures Gives(54, 0xb35602cb, 0xd9bb987c, 0xc1e942f1, 0x33edb197, 0x23a68048)
    ensures Gives(55, 0x33edb197, 0x23a68048, 0xd9bb987c, 0xc1e942f1, 0x83877d1b)
  {
    WordOfRound(54);
    WordOfRound(55);
    hide WordIndex;
  }

  lemma Operations56()
    ensures Gives(56, 0xc1e942f1, 0x83877d1b, 0x23a68048, 0xd9bb987c, 0x0077c208)
    ensures Gives(57, 0xd9bb987c, 0x0077c208, 0x83877d1b, 0x23a68048, 0x847fc2e7)
  {
    WordOfRound(56);
    WordOfRound(57);
    hide WordIndex;
  }

  lemma Operations58()
    ensures Gives(58, 0x23a68048, 0x847fc2e7, 0x0077c208, 0x83877d1b, 0xa3e2247f)
    ensures Gives(59, 0x83877d1b, 0xa3e2247f, 0x847fc2e7, 0x0077c208, 0x5e6bc930)
  {
    WordOfRound(58);
    WordOfRound(59);
    hide WordIndex;
  }

  lemma Operations60()
    ensures Gives(60, 0x0077c208, 0x5e6bc930, 0xa3e2247f, 0x847fc2e7, 0x708ed9c2)
    ensures Gives(61, 0x847fc2e7, 0x708ed9c2, 0x5e6bc930, 0xa3e2247f, 0x2baf1354)
  {
    WordOfRound(60);
    WordOfRound(61);
    hide WordIndex;
  }

  lemma Operations62()
    ensures Gives(62, 0xa3e2247f, 0x2baf1354, 0x708ed9c2, 0x5e6bc930, 0xd38f1e7f)
    ensures Gives(63, 0x5e6bc930, 0xd38f1e7f, 0x2baf1354, 0x708ed9c2, 0x1116e6d8)
  {
    WordOfRound(62);
    WordOfRound(63);
    hide WordIndex;
  }

  // ----- The four rounds -----

  lemma Turns16()
    ensures Turns(16, INITIAL, WORDS) == Registers(0x1754a316, 0x608d6b7e, 0x00df74d5, 0x85567d90)
  {
    hide Gives;
    Operations00();
    Operations02();
    Operations04();
    Operations06();
    Operations08();
    Operations10();
    Operations12();
    Operations14();
    Next(0, Registers(0x67452301, 0xefcdab89, 0x98badcfe, 0x10325476),
         Registers(0xd6d117a6, 0xefcdab89, 0x98badcfe, 0x10325476));
    Next(1, Registers(0xd6d117a6, 0xefcdab89, 0x98badcfe, 0x10325476),
         Registers(0xd6d117a6, 0xefcdab89, 0x98badcfe, 0xaab1aaaa));
    Next(2, Registers(0xd6d117a6, 0xefcdab89, 0x98badcfe, 0xaab1aaaa),
         Registers(0xd6d117a6, 0xefcdab89, 0x227d8cf1, 0xaab1aaaa));
    Next(3, Registers(0xd6d117a6, 0xefcdab89, 0x227d8cf1, 0xaab1aaaa),
         Registers(0xd6d117a6, 0x4503b812, 0x227d8cf1, 0xaab1aaaa));
    Next(4, Registers(0xd6d117a6, 0x4503b812, 0x227d8cf1, 0xaab1aaaa),
         Registers(0xfe15f787, 0x4503b812, 0x227d8cf1, 0xaab1aaaa));
    Next(5, Registers(0xfe15f787, 0x4503b812, 0x227d8cf1, 0xaab1aaaa),
         Registers(0xfe15f787, 0x4503b812, 0x227d8cf1, 0xa811b278));
    Next(6, Registers(0xfe15f787, 0x4503b812, 0x227d8cf1, 0xa811b278),
         Registers(0xfe15f787, 0x4503b812, 0xb71122fc, 0xa811b278));
    Next(7, Registers(0xfe15f787, 0x4503b812, 0xb71122fc, 0xa811b278),
         Registers(0xfe15f787, 0xda9bbb0d, 0xb71122fc, 0xa811b278));
    Next(8, Registers(0xfe15f787, 0xda9bbb0d, 0xb71122fc, 0xa811b278),
         Registers(0xae752899, 0xda9bbb0d, 0xb71122fc, 0xa811b278));
    Next(9, Registers(0xae752899, 0xda9bbb0d, 0xb71122fc, 0xa811b278),
         Registers(0xae752899, 0xda9bbb0d, 0xb71122fc, 0x2bbe757f));
    Next(10, Registers(0xae752899, 0xda9bbb0d, 0xb71122fc, 0x2bbe757f),
         Registers(0xae752899, 0xda9bbb0d, 0x7d4bd80b, 0x2bbe757f));
    Next(11, Registers(0xae752899, 0xda9bbb0d, 0x7d4bd80b, 0x2bbe757f),
         Registers(0xae752899, 0x56cfa5cb, 0x7d4bd80b, 0x2bbe757f));
    Next(12, Registers(0xae752899, 0x56cfa5cb, 0x7d4bd80b, 0x2bbe757f),
         Registers(0x1754a316, 0x56cfa5cb, 0x7d4bd80b, 0x2bbe757f));
    Next(13, Registers(0x1754a316, 0x56cfa5cb, 0x7d4bd80b, 0x2bbe757f),
         Registers(0x1754a316, 0x56cfa5cb, 0x7d4bd80b, 0x85567d90));
    Next(14, Registers(0x1754a316, 0x56cfa5cb, 0x7d4bd80b, 0x85567d90),
         Registers(0x1754a316, 0x56cfa5cb, 0x00df74d5, 0x85567d90));
    Next(15, Registers(0x1754a316, 0x56cfa5cb, 0x00df74d5, 0x85567d90),
         Registers(0x1754a316, 0x608d6b7e, 0x00df74d5, 0x85567d90));
  }

  lemma Turns32()
    ensures Turns(32, INITIAL, WORDS) == Registers(0xf54d8710, 0xaeb35766, 0x2e69afc7, 0x927b72e2)
  {
    hide Gives;
    hide Turns;
    Turns16();
    Operations16();
    Operations18();
    Operations20();
    Operations22();
    Operations24();
    Operations26();
    Operations28();
    Operations30();
    Next(16, Registers(0x1754a316, 0x608d6b7e, 0x00df74d5, 0x85567d90),
         Registers(0x2d8071cc, 0x608d6b7e, 0x00df74d5, 0x85567d90));
    Next(17, Registers(0x2d8071cc, 0x608d6b7e, 0x00df74d5, 0x85567d90),
         Registers(0x2d8071cc, 0x608d6b7e, 0x00df74d5, 0x5dcee119));
    Next(18, Registers(0x2d8071cc, 0x608d6b7e, 0x00df74d5, 0x5dcee119),
         Registers(0x2d8071cc, 0x608d6b7e, 0xedfe7e4b, 0x5dcee119));
    Next(19, Registers(0x2d8071cc, 0x608d6b7e, 0xedfe7e4b, 0x5dcee119),
         Registers(0x2d8071cc, 0x4c2145b3, 0xedfe7e4b, 0x5dcee119));
    Next(20, Registers(0x2d8071cc, 0x4c2145b3, 0xedfe7e4b, 0x5dcee119),
         Registers(0x570c43e0, 0x4c2145b3, 0xedfe7e4b, 0x5dcee119));
    Next(21, Registers(0x570c43e0, 0x4c2145b3, 0xedfe7e4b, 0x5dcee119),
         Registers(0x570c43e0, 0x4c2145b3, 0xedfe7e4b, 0x977efd2a));
    Next(22, Registers(0x570c43e0, 0x4c2145b3, 0xedfe7e4b, 0x977efd2a),
         Registers(0x570c43e0, 0x4c2145b3, 0xc28ab49d, 0x977efd2a));
    Next(23, Registers(0x570c43e0, 0x4c2145b3, 0xc28ab49d, 0x977efd2a),
         Registers(0x570c43e0, 0xc9f162d4, 0xc28ab49d, 0x977efd2a));
    Next(24, Registers(0x570c43e0, 0xc9f162d4, 0xc28ab49d, 0x977efd2a),
         Registers(0x25bfae3b, 0xc9f162d4, 0xc28ab49d, 0x977efd2a));
    Next(25, Registers(0x25bfae3b, 0xc9f162d4, 0xc28ab49d, 0x977efd2a),
         Registers(0x25bfae3b, 0xc9f162d4, 0xc28ab49d, 0x89980104));
    Next(26, Registers(0x25bfae3b, 0xc9f162d4, 0xc28ab49d, 0x89980104),
         Registers(0x25bfae3b, 0xc9f162d4, 0xf8c8365f, 0x89980104));
    Next(27, Registers(0x25bfae3b, 0xc9f162d4, 0xf8c8365f, 0x89980104),
         Registers(0x25bfae3b, 0xe6d3b398, 0xf8c8365f, 0x89980104));
    Next(28, Registers(0x25bfae3b, 0xe6d3b398, 0xf8c8365f, 0x89980104),
         Registers(0xf54d8710, 0xe6d3b398, 0xf8c8365f, 0x89980104));
    Next(29, Registers(0xf54d8710, 0xe6d3b398, 0xf8c8365f, 0x89980104),
         Registers(0xf54d8710, 0xe6d3b398, 0xf8c8365f, 0x927b72e2));
    Next(30, Registers(0xf54d8710, 0xe6d3b398, 0xf8c8365f, 0x927b72e2),
         Registers(0xf54d8710, 0xe6d3b398, 0x2e69afc7, 0x927b72e2));
    Next(31, Registers(0xf54d8710, 0xe6d3b398, 0x2e69afc7, 0x927b72e2),
         Registers(0xf54d8710, 0xaeb35766, 0x2e69afc7, 0x927b72e2));
  }

  lemma Turns48()
    ensures Turns(48, INITIAL, WORDS) == Registers(0xb5d41f9c, 0x71d10367, 0x703d54d8, 0xa04b4904)
  {
    hide Gives;
    hide Turns;
    Turns32();
    Operations32();
    Operations34();
    Operations36();
    Operations38();
    Operations40();
    Operations42();
    Operations44();
    Operations46();
    Next(32, Registers(0xf54d8710, 0xaeb35766, 0x2e69afc7, 0x927b72e2),
         Registers(0xb4bf680e, 0xaeb35766, 0x2e69afc7, 0x927b72e2));
    Next(33, Registers(0xb4bf680e, 0xaeb35766, 0x2e69afc7, 0x927b72e2),
         Registers(0xb4bf680e, 0xaeb35766, 0x2e69afc7, 0x4c8ffa80));
    Next(34, Registers(0xb4bf680e, 0xaeb35766, 0x2e69afc7, 0x4c8ffa80),
         Registers(0xb4bf680e, 0xaeb35766, 0x2361ed0a, 0x4c8ffa80));
    Next(35, Registers(0xb4bf680e, 0xaeb35766, 0x2361ed0a, 0x4c8ffa80),
         Registers(0xb4bf680e, 0x06a5e211, 0x2361ed0a, 0x4c8ffa80));
    Next(36, Registers(0xb4bf680e, 0x06a5e211, 0x2361ed0a, 0x4c8ffa80),
         Registers(0xb9c0c733, 0x06a5e211, 0x2361ed0a, 0x4c8ffa80));
    Next(37, Registers(0xb9c0c733, 0x06a5e211, 0x2361ed0a, 0x4c8ffa80),
         Registers(0xb9c0c733, 0x06a5e211, 0x2361ed0a, 0xf1e6dc7a));
    Next(38, Registers(0xb9c0c733, 0x06a5e211, 0x2361ed0a, 0xf1e6dc7a),
         Registers(0xb9c0c733, 0x06a5e211, 0x23a9451b, 0xf1e6dc7a));
    Next(39, Registers(0xb9c0c733, 0x06a5e211, 0x23a9451b, 0xf1e6dc7a),
         Registers(0xb9c0c733, 0x8d41bf99, 0x23a9451b, 0xf1e6dc7a));
    Next(40, Registers(0xb9c0c733, 0x8d41bf99, 0x23a9451b, 0xf1e6dc7a),
         Registers(0xa3e88ead, 0x8d41bf99, 0x23a9451b, 0xf1e6dc7a));
    Next(41, Registers(0xa3e88ead, 0x8d41bf99, 0x23a9451b, 0xf1e6dc7a),
         Registers(0xa3e88ead, 0x8d41bf99, 0x23a9451b, 0x02c0b11c));
    Next(42, Registers(0xa3e88ead, 0x8d41bf99, 0x23a9451b, 0x02c0b11c),
         Registers(0xa3e88ead, 0x8d41bf99, 0x66f6468d, 0x02c0b11c));
    Next(43, Registers(0xa3e88ead, 0x8d41bf99, 0x66f6468d, 0x02c0b11c),
         Registers(0xa3e88ead, 0x90a35af5, 0x66f6468d, 0x02c0b11c));
    Next(44, Registers(0xa3e88ead, 0x90a35af5, 0x66f6468d, 0x02c0b11c),
         Registers(0xb5d41f9c, 0x90a35af5, 0x66f6468d, 0x02c0b11c));
    Next(45, Registers(0xb5d41f9c, 0x90a35af5, 0x66f6468d, 0x02c0b11c),
         Registers(0xb5d41f9c, 0x90a35af5, 0x66f6468d, 0xa04b4904));
    Next(46, Registers(0xb5d41f9c, 0x90a35af5, 0x66f6468d, 0xa04b4904),
         Registers(0xb5d41f9c, 0x90a35af5, 0x703d54d8, 0xa04b4904));
    Next(47, Registers(0xb5d41f9c, 0x90a35af5, 0x703d54d8, 0xa04b4904),
         Registers(0xb5d41f9c, 0x71d10367, 0x703d54d8, 0xa04b4904));
  }

  lemma Turns64()
    ensures Turns(64, INITIAL, WORDS) == Registers(0x708ed9c2, 0x1116e6d8, 0xd38f1e7f, 0x2baf1354)
  {
    hide Gives;
    hide Turns;
    Turns48();
    Operations48();
    Operations50();
    Operations52();
    Operations54();
    Operations56();
    Operations58();
    Operations60();
    Operations62();
    Next(48, Registers(0xb5d41f9c, 0x71d10367, 0x703d54d8, 0xa04b4904),
         Registers(0xfc32dd6e, 0x71d10367, 0x703d54d8, 0xa04b4904));
    Next(49, Registers(0xfc32dd6e, 0x71d10367, 0x703d54d8, 0xa04b4904),
         Registers(0xfc32dd6e, 0x71d10367, 0x703d54d8, 0x65456b34));
    Next(50, Registers(0xfc32dd6e, 0x71d10367, 0x703d54d8, 0x65456b34),
         Registers(0xfc32dd6e, 0x71d10367, 0xb35602cb, 0x65456b34));
    Next(51, Registers(0xfc32dd6e, 0x71d10367, 0xb35602cb, 0x65456b34),
         Registers(0xfc32dd6e, 0x33edb197, 0xb35602cb, 0x65456b34));
    Next(52, Registers(0xfc32dd6e, 0x33edb197, 0xb35602cb, 0x65456b34),
         Registers(0xc1e942f1, 0x33edb197, 0xb35602cb, 0x65456b34));
    Next(53, Registers(0xc1e942f1, 0x33edb197, 0xb35602cb, 0x65456b34),
         Registers(0xc1e942f1, 0x33edb197, 0xb35602cb, 0xd9bb987c));
    Next(54, Registers(0xc1e942f1, 0x33edb197, 0xb35602cb, 0xd9bb987c),
         Registers(0xc1e942f1, 0x33edb197, 0x23a68048, 0xd9bb987c));
    Next(55, Registers(0xc1e942f1, 0x33edb197, 0x23a68048, 0xd9bb987c),
         Registers(0xc1e942f1, 0x83877d1b, 0x23a68048, 0xd9bb987c));
    Next(56, Registers(0xc1e942f1, 0x83877d1b, 0x23a68048, 0xd9bb987c),
         Registers(0x0077c208, 0x83877d1b, 0x23a68048, 0xd9bb987c));
    Next(57, Registers(0x0077c208, 0x83877d1b, 0x23a68048, 0xd9bb987c),
         Registers(0x0077c208, 0x83877d1b, 0x23a68048, 0x847fc2e7));
    Next(58, Registers(0x0077c208, 0x83877d1b, 0x23a68048, 0x847fc2e7),
         Registers(0x0077c208, 0x83877d1b, 0xa3e2247f, 0x847fc2e7));
    Next(59, Registers(0x0077c208, 0x83877d1b, 0xa3e2247f, 0x847fc2e7),
         Registers(0x0077c208, 0x5e6bc930, 0xa3e2247f, 0x847fc2e7));
    Next(60, Registers(0x0077c208, 0x5e6bc930, 0xa3e2247f, 0x847fc2e7),
         Registers(0x708ed9c2, 0x5e6bc930, 0xa3e2247f, 0x847fc2e7));
    Next(61, Registers(0x708ed9c2, 0x5e6bc930, 0xa3e2247f, 0x847fc2e7),
         Registers(0x708ed9c2, 0x5e6bc930, 0xa3e2247f, 0x2baf1354));
    Next(62, Registers(0x708ed9c2, 0x5e6bc930, 0xa3e2247f, 0x2baf1354),
         Registers(0x708ed9c2, 0x5e6bc930, 0xd38f1e7f, 0x2baf1354));
    Next(63, Registers(0x708ed9c2, 0x5e6bc930, 0xd38f1e7f, 0x2baf1354),
         Registers(0x708ed9c2, 0x1116e6d8, 0xd38f1e7f, 0x2baf1354));
  }

  // ----- The message -----

  lemma {:induction false} LowFirstZero(k: nat)
    ensures LowFirst(0, k) == Zeros(k)
    decreases k
  {
    if k > 0 {
      LowFirstZero(k - 1);
    }
  }

  /** 26 letters, the end mark, zeros, and the length of 208 bits. */
  lemma PaddedAlphabet()
    ensures Pad(ALPHABET) == ALPHABET + ([0x80] + Zeros(29)) + ([0xd0] + Zeros(7))
  {
    assert |ALPHABET| == 26 && ZeroCount(26) == 29 && LengthInBits(26) == 208;
    assert Padding(26) == [0x80] + Zeros(29);
    LowFirstZero(7);
    assert LowFirst(208, 8) == [0xd0] + LowFirst(0, 7);
    hide Zeros, Padding, LowFirst, ALPHABET;
  }

  lemma LetterWords(p: Block)
    requires p == ALPHABET + ([0x80] + Zeros(29)) + ([0xd0] + Zeros(7))
    ensures forall i | 0 <= i < 4 :: Words(p)[i] == WORDS[i]
  {
    var w := Words(p);
    assert p[..26] == ALPHABET;
    assert w[0] == WORDS[0];
    assert w[1] == WORDS[1];
    assert w[2] == WORDS[2];
    assert w[3] == WORDS[3];
  }

  lemma LastLetterWords(p: Block)
    requires p == ALPHABET + ([0x80] + Zeros(29)) + ([0xd0] + Zeros(7))
    ensures forall i | 4 <= i < 7 :: Words(p)[i] == WORDS[i]
  {
    var w := Words(p);
    assert p[..26] == ALPHABET && p[26] == 0x80 && p[27] == 0;
    assert w[4] == WORDS[4];
    assert w[5] == WORDS[5];
    assert w[6] == WORDS[6];
  }

  lemma LengthWords(p: Block)
    requires p == ALPHABET + ([0x80] + Zeros(29)) + ([0xd0] + Zeros(7))
    ensures forall i | 7 <= i < 16 :: Words(p)[i] == WORDS[i]
  {
    forall k | 28 <= k < 64 ensures p[k] == if k == 56 then 0xd0 else 0 {
    }
    hide ALPHABET;
    var w := Words(p);
    forall i | 7 <= i < 16 ensures w[i] == if i == 14 then 0xd0 else 0 {
      assert Word(0, 0, 0, 0) == 0 && Word(0xd0, 0, 0, 0) == 0xd0;
    }
  }

  lemma OneBlock()
    ensures |Pad(ALPHABET)| == 64 && ProcessBlocks(Pad(ALPHABET), 1) == ProcessBlock(INITIAL, WORDS)
  {
    hide ProcessBlock, Words;
    PaddedAlphabet();
    var p := Pad(ALPHABET);
    assert p[0..64] == p;
    LetterWords(p);
    LastLetterWords(p);
    LengthWords(p);
    assert Words(p) == WORDS;
    assert ProcessBlocks(p, 0) == INITIAL;
  }

  lemma LastSums()
    ensures Output(ProcessBlock(INITIAL, WORDS)) == DIGEST
  {
    Turns64();
    hide Turns;
  }

  /** The digest of the alphabet. */
  lemma AlphabetDigest()
    ensures Digest(ALPHABET) == DIGEST
  {
    hide Pad, ProcessBlocks, ProcessBlock, Output;
    OneBlock();
    LastSums();
  }
}
