/**
  A known answer: the SHA-1 of "abc", round by round, with the values of the example for FIPS 180-4. It
  fixes the initial value, the constants, the functions and their order, the rotations and the order of
  bytes, which the proofs about sha.c take from the standard's definitions.
 */
module KnownAnswer {
  import opened Wrappers
  import opened Fips180

  const ABC: seq<byte> := [0x61, 0x62, 0x63]

  /** The message with its padding: one block. */
  const BLOCK: seq<byte> := ABC + [0x80] + Zeros(52) + [0, 0, 0, 0, 0, 0, 0, 24]

  lemma AbcPadded()
    ensures |BLOCK| == 64 && Pad(ABC) == BLOCK
  {
    LengthOfAbc();
    assert |ABC| == 3 && PadZeros(3) == 52;
  }

  lemma LengthOfAbc()
    ensures LengthField(24) == [0, 0, 0, 0, 0, 0, 0, 24]
  {
  }

  // --------------------------------------------------------------- the schedule

  lemma BytesOfBlock()
    ensures BLOCK[0] == 0x61 && BLOCK[1] == 0x62 && BLOCK[2] == 0x63 && BLOCK[3] == 0x80
    ensures forall i :: 4 <= i < 63 ==> BLOCK[i] == 0
    ensures BLOCK[63] == 24
  {
    var front := ABC + [0x80];
    assert forall i :: 0 <= i < 4 ==> BLOCK[i] == front[i];
    assert forall i :: 4 <= i < 56 ==> BLOCK[i] == Zeros(52)[i - 4];
  }

  lemma FirstWord(t: nat, b0: byte, b1: byte, b2: byte, b3: byte)
    requires t < 16
    requires BLOCK[4 * t] == b0 && BLOCK[4 * t + 1] == b1 && BLOCK[4 * t + 2] == b2 && BLOCK[4 * t + 3] == b3
    ensures W(BLOCK, t) == WordOf(b0, b1, b2, b3)
  {
  }

  lemma WordsTo16()
    ensures W(BLOCK, 0) == 0x61626380
    ensures forall t :: 1 <= t < 15 ==> W(BLOCK, t) == 0
    ensures W(BLOCK, 15) == 0x00000018
  {
    hide W;
    BytesOfBlock();
    FirstWord(0, 0x61, 0x62, 0x63, 0x80);
    forall t | 1 <= t < 15
      ensures W(BLOCK, t) == 0
    {
      FirstWord(t, 0, 0, 0, 0);
      assert WordOf(0, 0, 0, 0) == 0;
    }
    FirstWord(15, 0, 0, 0, 24);
  }

  lemma NextWord(t: nat, w3: word, w8: word, w14: word, w16: word)
    requires 16 <= t && W(BLOCK, t - 3) == w3 && W(BLOCK, t - 8) == w8 && W(BLOCK, t - 14) == w14
    requires W(BLOCK, t - 16) == w16
    ensures W(BLOCK, t) == Rotl1(Mix(w3, w8, w14, w16))
  {
  }

  lemma WordsTo32()
    ensures W(BLOCK, 16) == 0xc2c4c700
    ensures W(BLOCK, 17) == 0x00000000
    ensures W(BLOCK, 18) == 0x00000030
    ensures W(BLOCK, 19) == 0x85898e01
    ensures W(BLOCK, 20) == 0x00000000
    ensures W(BLOCK, 21) == 0x00000060
    ensures W(BLOCK, 22) == 0x0b131c03
    ensures W(BLOCK, 23) == 0x00000030
    ensures W(BLOCK, 24) == 0x85898ec1
    ensures W(BLOCK, 25) == 0x16263806
    ensures W(BLOCK, 26) == 0x00000000
    ensures W(BLOCK, 27) == 0x00000180
    ensures W(BLOCK, 28) == 0x2c4c700c
    ensures W(BLOCK, 29) == 0x000000f0
    ensures W(BLOCK, 30) == 0x93afb507
    ensures W(BLOCK, 31) == 0x5898e048
  {
    hide W;
    WordsTo16();
    NextWord(16, 0x00000000, 0x00000000, 0x00000000, 0x61626380);
    NextWord(17, 0x00000000, 0x00000000, 0x00000000, 0x00000000);
    NextWord(18, 0x00000018, 0x00000000, 0x00000000, 0x00000000);
    NextWord(19, 0xc2c4c700, 0x00000000, 0x00000000, 0x00000000);
    NextWord(20, 0x00000000, 0x00000000, 0x00000000, 0x00000000);
    NextWord(21, 0x00000030, 0x00000000, 0x00000000, 0x00000000);
    NextWord(22, 0x85898e01, 0x00000000, 0x00000000, 0x00000000);
    NextWord(23, 0x00000000, 0x00000018, 0x00000000, 0x00000000);
    NextWord(24, 0x00000060, 0xc2c4c700, 0x00000000, 0x00000000);
    NextWord(25, 0x0b131c03, 0x00000000, 0x00000000, 0x00000000);
    NextWord(26, 0x00000030, 0x00000030, 0x00000000, 0x00000000);
    NextWord(27, 0x85898ec1, 0x85898e01, 0x00000000, 0x00000000);
    NextWord(28, 0x16263806, 0x00000000, 0x00000000, 0x00000000);
    NextWord(29, 0x00000000, 0x00000060, 0x00000018, 0x00000000);
    NextWord(30, 0x00000180, 0x0b131c03, 0xc2c4c700, 0x00000000);
    NextWord(31, 0x2c4c700c, 0x00000030, 0x00000000, 0x00000018);
  }

  lemma WordsTo48()
    ensures W(BLOCK, 32) == 0x8e9a9202
    ensures W(BLOCK, 33) == 0x00000600
    ensures W(BLOCK, 34) == 0xb131c0f0
    ensures W(BLOCK, 35) == 0x16263bc6
    ensures W(BLOCK, 36) == 0x4ebed41e
    ensures W(BLOCK, 37) == 0x626380a1
    ensures W(BLOCK, 38) == 0x16263806
    ensures W(BLOCK, 39) == 0x000018c0
    ensures W(BLOCK, 40) == 0xd2e138c4
    ensures W(BLOCK, 41) == 0x00000f00
    ensures W(BLOCK, 42) == 0x3afb5079
    ensures W(BLOCK, 43) == 0x898e04e5
    ensures W(BLOCK, 44) == 0xe2ba3c2b
    ensures W(BLOCK, 45) == 0x000060c0
    ensures W(BLOCK, 46) == 0x053a37cd
    ensures W(BLOCK, 47) == 0x74458547
  {
    hide W;
    WordsTo32();
    NextWord(32, 0x000000f0, 0x85898ec1, 0x00000030, 0xc2c4c700);
    NextWord(33, 0x93afb507, 0x16263806, 0x85898e01, 0x00000000);
    NextWord(34, 0x5898e048, 0x00000000, 0x00000000, 0x00000030);
    NextWord(35, 0x8e9a9202, 0x00000180, 0x00000060, 0x85898e01);
    NextWord(36, 0x00000600, 0x2c4c700c, 0x0b131c03, 0x00000000);
    NextWord(37, 0xb131c0f0, 0x000000f0, 0x00000030, 0x00000060);
    NextWord(38, 0x16263bc6, 0x93afb507, 0x85898ec1, 0x0b131c03);
    NextWord(39, 0x4ebed41e, 0x5898e048, 0x16263806, 0x00000030);
    NextWord(40, 0x626380a1, 0x8e9a9202, 0x00000000, 0x85898ec1);
    NextWord(41, 0x16263806, 0x00000600, 0x00000180, 0x16263806);
    NextWord(42, 0x000018c0, 0xb131c0f0, 0x2c4c700c, 0x00000000);
    NextWord(43, 0xd2e138c4, 0x16263bc6, 0x000000f0, 0x00000180);
    NextWord(44, 0x00000f00, 0x4ebed41e, 0x93afb507, 0x2c4c700c);
    NextWord(45, 0x3afb5079, 0x626380a1, 0x5898e048, 0x000000f0);
    NextWord(46, 0x898e04e5, 0x16263806, 0x8e9a9202, 0x93afb507);
    NextWord(47, 0xe2ba3c2b, 0x000018c0, 0x00000600, 0x5898e048);
  }

  lemma WordsTo64()
    ensures W(BLOCK, 48) == 0xda9415ed
    ensures W(BLOCK, 49) == 0x26380a16
    ensures W(BLOCK, 50) == 0x626383a1
    ensures W(BLOCK, 51) == 0x4ebf54de
    ensures W(BLOCK, 52) == 0x3835b44b
    ensures W(BLOCK, 53) == 0x0000f600
    ensures W(BLOCK, 54) == 0x1e84c7a3
    ensures W(BLOCK, 55) == 0x98e04d98
    ensures W(BLOCK, 56) == 0x651d16a0
    ensures W(BLOCK, 57) == 0x62658ca1
    ensures W(BLOCK, 58) == 0x458544d6
    ensures W(BLOCK, 59) == 0x44584cb7
    ensures W(BLOCK, 60) == 0x7ba06619
    ensures W(BLOCK, 61) == 0x6380aea2
    ensures W(BLOCK, 62) == 0x0ae55269
    ensures W(BLOCK, 63) == 0x627b49a1
  {
    hide W;
    WordsTo48();
    NextWord(48, 0x000060c0, 0xd2e138c4, 0xb131c0f0, 0x8e9a9202);
    NextWord(49, 0x053a37cd, 0x00000f00, 0x16263bc6, 0x00000600);
    NextWord(50, 0x74458547, 0x3afb5079, 0x4ebed41e, 0xb131c0f0);
    NextWord(51, 0xda9415ed, 0x898e04e5, 0x626380a1, 0x16263bc6);
    NextWord(52, 0x26380a16, 0xe2ba3c2b, 0x16263806, 0x4ebed41e);
    NextWord(53, 0x626383a1, 0x000060c0, 0x000018c0, 0x626380a1);
    NextWord(54, 0x4ebf54de, 0x053a37cd, 0xd2e138c4, 0x16263806);
    NextWord(55, 0x3835b44b, 0x74458547, 0x00000f00, 0x000018c0);
    NextWord(56, 0x0000f600, 0xda9415ed, 0x3afb5079, 0xd2e138c4);
    NextWord(57, 0x1e84c7a3, 0x26380a16, 0x898e04e5, 0x00000f00);
    NextWord(58, 0x98e04d98, 0x626383a1, 0xe2ba3c2b, 0x3afb5079);
    NextWord(59, 0x651d16a0, 0x4ebf54de, 0x000060c0, 0x898e04e5);
    NextWord(60, 0x62658ca1, 0x3835b44b, 0x053a37cd, 0xe2ba3c2b);
    NextWord(61, 0x458544d6, 0x0000f600, 0x74458547, 0x000060c0);
    NextWord(62, 0x44584cb7, 0x1e84c7a3, 0xda9415ed, 0x053a37cd);
    NextWord(63, 0x7ba06619, 0x98e04d98, 0x26380a16, 0x74458547);
  }

  lemma WordsTo80()
    ensures W(BLOCK, 64) == 0x7cd45c9d
    ensures W(BLOCK, 65) == 0x000f0000
    ensures W(BLOCK, 66) == 0xfb50753a
    ensures W(BLOCK, 67) == 0xec6765e8
    ensures W(BLOCK, 68) == 0xba3c2be2
    ensures W(BLOCK, 69) == 0x0060c000
    ensures W(BLOCK, 70) == 0x3a37cd05
    ensures W(BLOCK, 71) == 0x458546f4
    ensures W(BLOCK, 72) == 0xb8599dd6
    ensures W(BLOCK, 73) == 0x380a1a26
    ensures W(BLOCK, 74) == 0x01e02203
    ensures W(BLOCK, 75) == 0xe7cc3456
    ensures W(BLOCK, 76) == 0xe6e60b69
    ensures W(BLOCK, 77) == 0x00f60a00
    ensures W(BLOCK, 78) == 0x5795ef4f
    ensures W(BLOCK, 79) == 0x822e0879
  {
    hide W;
    WordsTo64();
    NextWord(64, 0x6380aea2, 0x651d16a0, 0x626383a1, 0xda9415ed);
    NextWord(65, 0x0ae55269, 0x62658ca1, 0x4ebf54de, 0x26380a16);
    NextWord(66, 0x627b49a1, 0x458544d6, 0x3835b44b, 0x626383a1);
    NextWord(67, 0x7cd45c9d, 0x44584cb7, 0x0000f600, 0x4ebf54de);
    NextWord(68, 0x000f0000, 0x7ba06619, 0x1e84c7a3, 0x3835b44b);
    NextWord(69, 0xfb50753a, 0x6380aea2, 0x98e04d98, 0x0000f600);
    NextWord(70, 0xec6765e8, 0x0ae55269, 0x651d16a0, 0x1e84c7a3);
    NextWord(71, 0xba3c2be2, 0x627b49a1, 0x62658ca1, 0x98e04d98);
    NextWord(72, 0x0060c000, 0x7cd45c9d, 0x458544d6, 0x651d16a0);
    NextWord(73, 0x3a37cd05, 0x000f0000, 0x44584cb7, 0x62658ca1);
    NextWord(74, 0x458546f4, 0xfb50753a, 0x7ba06619, 0x458544d6);
    NextWord(75, 0xb8599dd6, 0xec6765e8, 0x6380aea2, 0x44584cb7);
    NextWord(76, 0x380a1a26, 0xba3c2be2, 0x0ae55269, 0x7ba06619);
    NextWord(77, 0x01e02203, 0x0060c000, 0x627b49a1, 0x6380aea2);
    NextWord(78, 0xe7cc3456, 0x3a37cd05, 0x7cd45c9d, 0x0ae55269);
    NextWord(79, 0xe6e60b69, 0x458546f4, 0x000f0000, 0x627b49a1);
  }

  // ----------------------------------------------------------------- the rounds

  lemma NextRound(v: Hash, t: nat, w: word)
    requires Rounds(H0, BLOCK, t) == v && W(BLOCK, t) == w
    ensures Rounds(H0, BLOCK, t + 1) == Round(v, t, w)
  {
  }

  lemma RoundsTo10()
    ensures Rounds(H0, BLOCK, 10) == Hash(0x8351f929, 0x4b6ae328, 0x27a301f5, 0x664f8c30, 0x0ff1f290)
  {
    hide Rounds, W;
    NoRounds();
    WordsTo16();
    NextRound(Hash(0x67452301, 0xefcdab89, 0x98badcfe, 0x10325476, 0xc3d2e1f0), 0, 0x61626380);
    NextRound(Hash(0x0116fc33, 0x67452301, 0x7bf36ae2, 0x98badcfe, 0x10325476), 1, 0x00000000);
    NextRound(Hash(0x8990536d, 0x0116fc33, 0x59d148c0, 0x7bf36ae2, 0x98badcfe), 2, 0x00000000);
    NextRound(Hash(0xa1390f08, 0x8990536d, 0xc045bf0c, 0x59d148c0, 0x7bf36ae2), 3, 0x00000000);
    NextRound(Hash(0xcdd8e11b, 0xa1390f08, 0x626414db, 0xc045bf0c, 0x59d148c0), 4, 0x00000000);
    NextRound(Hash(0xcfd499de, 0xcdd8e11b, 0x284e43c2, 0x626414db, 0xc045bf0c), 5, 0x00000000);
    NextRound(Hash(0x3fc7ca40, 0xcfd499de, 0xf3763846, 0x284e43c2, 0x626414db), 6, 0x00000000);
    NextRound(Hash(0x993e30c1, 0x3fc7ca40, 0xb3f52677, 0xf3763846, 0x284e43c2), 7, 0x00000000);
    NextRound(Hash(0x9e8c07d4, 0x993e30c1, 0x0ff1f290, 0xb3f52677, 0xf3763846), 8, 0x00000000);
    NextRound(Hash(0x4b6ae328, 0x9e8c07d4, 0x664f8c30, 0x0ff1f290, 0xb3f52677), 9, 0x00000000);
  }

  lemma RoundsTo20()
    ensures Rounds(H0, BLOCK, 20) == Hash(0xfd9e1d7d, 0xdc64901d, 0x20aa99ca, 0xd3a49608, 0xc82f758b)
  {
    hide Rounds, W;
    RoundsTo10();
    WordsTo16();
    WordsTo32();
    NextRound(Hash(0x8351f929, 0x4b6ae328, 0x27a301f5, 0x664f8c30, 0x0ff1f290), 10, 0x00000000);
    NextRound(Hash(0xfbda9e89, 0x8351f929, 0x12dab8ca, 0x27a301f5, 0x664f8c30), 11, 0x00000000);
    NextRound(Hash(0x63188fe4, 0xfbda9e89, 0x60d47e4a, 0x12dab8ca, 0x27a301f5), 12, 0x00000000);
    NextRound(Hash(0x4607b664, 0x63188fe4, 0x7ef6a7a2, 0x60d47e4a, 0x12dab8ca), 13, 0x00000000);
    NextRound(Hash(0x9128f695, 0x4607b664, 0x18c623f9, 0x7ef6a7a2, 0x60d47e4a), 14, 0x00000000);
    NextRound(Hash(0x196bee77, 0x9128f695, 0x1181ed99, 0x18c623f9, 0x7ef6a7a2), 15, 0x00000018);
    NextRound(Hash(0x20bdd62f, 0x196bee77, 0x644a3da5, 0x1181ed99, 0x18c623f9), 16, 0xc2c4c700);
    NextRound(Hash(0x4e925823, 0x20bdd62f, 0xc65afb9d, 0x644a3da5, 0x1181ed99), 17, 0x00000000);
    NextRound(Hash(0x82aa6728, 0x4e925823, 0xc82f758b, 0xc65afb9d, 0x644a3da5), 18, 0x00000030);
    NextRound(Hash(0xdc64901d, 0x82aa6728, 0xd3a49608, 0xc82f758b, 0xc65afb9d), 19, 0x85898e01);
  }

  lemma RoundsTo30()
    ensures Rounds(H0, BLOCK, 30) == Hash(0xc5fbaf5d, 0x8370b52e, 0xd2aa1365, 0x6f8d7ef5, 0x12104ee9)
  {
    hide Rounds, W;
    RoundsTo20();
    WordsTo32();
    NextRound(Hash(0xfd9e1d7d, 0xdc64901d, 0x20aa99ca, 0xd3a49608, 0xc82f758b), 20, 0x00000000);
    NextRound(Hash(0x1a37b0ca, 0xfd9e1d7d, 0x77192407, 0x20aa99ca, 0xd3a49608), 21, 0x00000060);
    NextRound(Hash(0x33a23bfc, 0x1a37b0ca, 0x7f67875f, 0x77192407, 0x20aa99ca), 22, 0x0b131c03);
    NextRound(Hash(0x21283486, 0x33a23bfc, 0x868dec32, 0x7f67875f, 0x77192407), 23, 0x00000030);
    NextRound(Hash(0xd541f12d, 0x21283486, 0x0ce88eff, 0x868dec32, 0x7f67875f), 24, 0x85898ec1);
    NextRound(Hash(0xc7567dc6, 0xd541f12d, 0x884a0d21, 0x0ce88eff, 0x868dec32), 25, 0x16263806);
    NextRound(Hash(0x48413ba4, 0xc7567dc6, 0x75507c4b, 0x884a0d21, 0x0ce88eff), 26, 0x00000000);
    NextRound(Hash(0xbe35fbd5, 0x48413ba4, 0xb1d59f71, 0x75507c4b, 0x884a0d21), 27, 0x00000180);
    NextRound(Hash(0x4aa84d97, 0xbe35fbd5, 0x12104ee9, 0xb1d59f71, 0x75507c4b), 28, 0x2c4c700c);
    NextRound(Hash(0x8370b52e, 0x4aa84d97, 0x6f8d7ef5, 0x12104ee9, 0xb1d59f71), 29, 0x000000f0);
  }

  lemma RoundsTo40()
    ensures Rounds(H0, BLOCK, 40) == Hash(0x32de1cba, 0x4c986405, 0xf718e5cf, 0x03d447f6, 0xf72eec32)
  {
    hide Rounds, W;
    RoundsTo30();
    WordsTo32();
    WordsTo48();
    NextRound(Hash(0xc5fbaf5d, 0x8370b52e, 0xd2aa1365, 0x6f8d7ef5, 0x12104ee9), 30, 0x93afb507);
    NextRound(Hash(0x1267b407, 0xc5fbaf5d, 0xa0dc2d4b, 0xd2aa1365, 0x6f8d7ef5), 31, 0x5898e048);
    NextRound(Hash(0x3b845d33, 0x1267b407, 0x717eebd7, 0xa0dc2d4b, 0xd2aa1365), 32, 0x8e9a9202);
    NextRound(Hash(0x046faa0a, 0x3b845d33, 0xc499ed01, 0x717eebd7, 0xa0dc2d4b), 33, 0x00000600);
    NextRound(Hash(0x2c0ebc11, 0x046faa0a, 0xcee1174c, 0xc499ed01, 0x717eebd7), 34, 0xb131c0f0);
    NextRound(Hash(0x21796ad4, 0x2c0ebc11, 0x811bea82, 0xcee1174c, 0xc499ed01), 35, 0x16263bc6);
    NextRound(Hash(0xdcbbb0cb, 0x21796ad4, 0x4b03af04, 0x811bea82, 0xcee1174c), 36, 0x4ebed41e);
    NextRound(Hash(0x0f511fd8, 0xdcbbb0cb, 0x085e5ab5, 0x4b03af04, 0x811bea82), 37, 0x626380a1);
    NextRound(Hash(0xdc63973f, 0x0f511fd8, 0xf72eec32, 0x085e5ab5, 0x4b03af04), 38, 0x16263806);
    NextRound(Hash(0x4c986405, 0xdc63973f, 0x03d447f6, 0xf72eec32, 0x085e5ab5), 39, 0x000018c0);
  }

  lemma RoundsTo50()
    ensures Rounds(H0, BLOCK, 50) == Hash(0x120731c5, 0xbaf39337, 0xafab40b2, 0x2806e11b, 0x8714787c)
  {
    hide Rounds, W;
    RoundsTo40();
    WordsTo48();
    WordsTo64();
    NextRound(Hash(0x32de1cba, 0x4c986405, 0xf718e5cf, 0x03d447f6, 0xf72eec32), 40, 0xd2e138c4);
    NextRound(Hash(0xfc87dedf, 0x32de1cba, 0x53261901, 0xf718e5cf, 0x03d447f6), 41, 0x00000f00);
    NextRound(Hash(0x970a0d5c, 0xfc87dedf, 0x8cb7872e, 0x53261901, 0xf718e5cf), 42, 0x3afb5079);
    NextRound(Hash(0x7f193dc5, 0x970a0d5c, 0xff21f7b7, 0x8cb7872e, 0x53261901), 43, 0x898e04e5);
    NextRound(Hash(0xee1b1aaf, 0x7f193dc5, 0x25c28357, 0xff21f7b7, 0x8cb7872e), 44, 0xe2ba3c2b);
    NextRound(Hash(0x40f28e09, 0xee1b1aaf, 0x5fc64f71, 0x25c28357, 0xff21f7b7), 45, 0x000060c0);
    NextRound(Hash(0x1c51e1f2, 0x40f28e09, 0xfb86c6ab, 0x5fc64f71, 0x25c28357), 46, 0x053a37cd);
    NextRound(Hash(0xa01b846c, 0x1c51e1f2, 0x503ca382, 0xfb86c6ab, 0x5fc64f71), 47, 0x74458547);
    NextRound(Hash(0xbead02ca, 0xa01b846c, 0x8714787c, 0x503ca382, 0xfb86c6ab), 48, 0xda9415ed);
    NextRound(Hash(0xbaf39337, 0xbead02ca, 0x2806e11b, 0x8714787c, 0x503ca382), 49, 0x26380a16);
  }

  lemma RoundsTo60()
    ensures Rounds(H0, BLOCK, 60) == Hash(0x3f52de5a, 0x09d785fd, 0x3498bfd4, 0xf211824f, 0xd79915ab)
  {
    hide Rounds, W;
    RoundsTo50();
    WordsTo64();
    NextRound(Hash(0x120731c5, 0xbaf39337, 0xafab40b2, 0x2806e11b, 0x8714787c), 50, 0x626383a1);
    NextRound(Hash(0x641db2ce, 0x120731c5, 0xeebce4cd, 0xafab40b2, 0x2806e11b), 51, 0x4ebf54de);
    NextRound(Hash(0x3847ad66, 0x641db2ce, 0x4481cc71, 0xeebce4cd, 0xafab40b2), 52, 0x3835b44b);
    NextRound(Hash(0xe490436d, 0x3847ad66, 0x99076cb3, 0x4481cc71, 0xeebce4cd), 53, 0x0000f600);
    NextRound(Hash(0x27e9f1d8, 0xe490436d, 0x8e11eb59, 0x99076cb3, 0x4481cc71), 54, 0x1e84c7a3);
    NextRound(Hash(0x7b71f76d, 0x27e9f1d8, 0x792410db, 0x8e11eb59, 0x99076cb3), 55, 0x98e04d98);
    NextRound(Hash(0x5e6456af, 0x7b71f76d, 0x09fa7c76, 0x792410db, 0x8e11eb59), 56, 0x651d16a0);
    NextRound(Hash(0xc846093f, 0x5e6456af, 0x5edc7ddb, 0x09fa7c76, 0x792410db), 57, 0x62658ca1);
    NextRound(Hash(0xd262ff50, 0xc846093f, 0xd79915ab, 0x5edc7ddb, 0x09fa7c76), 58, 0x458544d6);
    NextRound(Hash(0x09d785fd, 0xd262ff50, 0xf211824f, 0xd79915ab, 0x5edc7ddb), 59, 0x44584cb7);
  }

  lemma RoundsTo70()
    ensures Rounds(H0, BLOCK, 70) == Hash(0x3f2588c2, 0x497093c0, 0xde37534a, 0x030f7cad, 0x4405957e)
  {
    hide Rounds, W;
    RoundsTo60();
    WordsTo64();
    WordsTo80();
    NextRound(Hash(0x3f52de5a, 0x09d785fd, 0x3498bfd4, 0xf211824f, 0xd79915ab), 60, 0x7ba06619);
    NextRound(Hash(0xd756c147, 0x3f52de5a, 0x4275e17f, 0x3498bfd4, 0xf211824f), 61, 0x6380aea2);
    NextRound(Hash(0x548c9cb2, 0xd756c147, 0x8fd4b796, 0x4275e17f, 0x3498bfd4), 62, 0x0ae55269);
    NextRound(Hash(0xb66c020b, 0x548c9cb2, 0xf5d5b051, 0x8fd4b796, 0x4275e17f), 63, 0x627b49a1);
    NextRound(Hash(0x6b61c9e1, 0xb66c020b, 0x9523272c, 0xf5d5b051, 0x8fd4b796), 64, 0x7cd45c9d);
    NextRound(Hash(0x19dfa7ac, 0x6b61c9e1, 0xed9b0082, 0x9523272c, 0xf5d5b051), 65, 0x000f0000);
    NextRound(Hash(0x101655f9, 0x19dfa7ac, 0x5ad87278, 0xed9b0082, 0x9523272c), 66, 0xfb50753a);
    NextRound(Hash(0x0c3df2b4, 0x101655f9, 0x0677e9eb, 0x5ad87278, 0xed9b0082), 67, 0xec6765e8);
    NextRound(Hash(0x78dd4d2b, 0x0c3df2b4, 0x4405957e, 0x0677e9eb, 0x5ad87278), 68, 0xba3c2be2);
    NextRound(Hash(0x497093c0, 0x78dd4d2b, 0x030f7cad, 0x4405957e, 0x0677e9eb), 69, 0x0060c000);
  }

  lemma RoundsTo80()
    ensures Rounds(H0, BLOCK, 80) == Hash(0x42541b35, 0x5738d5e1, 0x21834873, 0x681e6df6, 0xd8fdf6ad)
  {
    hide Rounds, W;
    RoundsTo70();
    WordsTo80();
    NextRound(Hash(0x3f2588c2, 0x497093c0, 0xde37534a, 0x030f7cad, 0x4405957e), 70, 0x3a37cd05);
    NextRound(Hash(0xc199f8c7, 0x3f2588c2, 0x125c24f0, 0xde37534a, 0x030f7cad), 71, 0x458546f4);
    NextRound(Hash(0x39859de7, 0xc199f8c7, 0x8fc96230, 0x125c24f0, 0xde37534a), 72, 0xb8599dd6);
    NextRound(Hash(0xedb42de4, 0x39859de7, 0xf0667e31, 0x8fc96230, 0x125c24f0), 73, 0x380a1a26);
    NextRound(Hash(0x11793f6f, 0xedb42de4, 0xce616779, 0xf0667e31, 0x8fc96230), 74, 0x01e02203);
    NextRound(Hash(0x5ee76897, 0x11793f6f, 0x3b6d0b79, 0xce616779, 0xf0667e31), 75, 0xe7cc3456);
    NextRound(Hash(0x63f7dab7, 0x5ee76897, 0xc45e4fdb, 0x3b6d0b79, 0xce616779), 76, 0xe6e60b69);
    NextRound(Hash(0xa079b7d9, 0x63f7dab7, 0xd7b9da25, 0xc45e4fdb, 0x3b6d0b79), 77, 0x00f60a00);
    NextRound(Hash(0x860d21cc, 0xa079b7d9, 0xd8fdf6ad, 0xd7b9da25, 0xc45e4fdb), 78, 0x5795ef4f);
    NextRound(Hash(0x5738d5e1, 0x860d21cc, 0x681e6df6, 0xd8fdf6ad, 0xd7b9da25), 79, 0x822e0879);
  }

  lemma NoRounds()
    ensures Rounds(H0, BLOCK, 0) == H0
  {
  }

  // ----------------------------------------------------------------- the digest

  lemma OneBlock()
    ensures CompressAll(BLOCK) == Compress(H0, BLOCK)
  {
    assert BLOCK[..0] == [] && BLOCK[0..] == BLOCK;
    assert CompressAll([]) == H0;
  }

  lemma AbcCompressed()
    ensures Compress(H0, BLOCK) == Hash(0xa9993e36, 0x4706816a, 0xba3e2571, 0x7850c26c, 0x9cd0d89d)
  {
    hide Rounds;
    RoundsTo80();
  }

  lemma DigestOfAbc()
    ensures Digest(ABC) == [
              0xa9, 0x99, 0x3e, 0x36, 0x47, 0x06, 0x81, 0x6a, 0xba, 0x3e,
              0x25, 0x71, 0x78, 0x50, 0xc2, 0x6c, 0x9c, 0xd0, 0xd8, 0x9d
            ]
  {
    hide CompressAll, Pad, Compress;
    AbcPadded();
    OneBlock();
    AbcCompressed();
  }
}
