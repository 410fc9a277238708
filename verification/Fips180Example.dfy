/** The digest of "abc", worked out round by round: the example that comes with
    FIPS 180-4.  It pins the functions, the constants and the order of everything. */
module Fips180Example {
  import opened Basics
  import opened Fips180
  import opened Fips180Constants

  const ABC: seq<Byte> := [0x61, 0x62, 0x63]

  /** "abc", the byte 0x80, zeros, and the length of 24 bits. */
  predicate IsBlock(b: seq<Byte>) {
    && |b| == 64 && b[0] == 0x61 && b[1] == 0x62 && b[2] == 0x63 && b[3] == 0x80 && b[63] == 24
    && forall i :: 4 <= i < 63 ==> b[i] == 0
  }

  lemma OneBlock()
    ensures IsBlock(Padded(ABC))
  {
    hide BigEndian;
    LastBytes();
    assert ZeroCount(3) == 52 && 8 * |ABC| % WRAP == 24;
  }

  lemma LastBytes()
    ensures BigEndian(24, 8) == [0, 0, 0, 0, 0, 0, 0, 24]
  {
    assert BigEndian(0, 1) == [0] && BigEndian(0, 2) == [0, 0] && BigEndian(0, 3) == [0, 0, 0];
    assert BigEndian(0, 4) == [0, 0, 0, 0] && BigEndian(0, 5) == [0, 0, 0, 0, 0];
    assert BigEndian(0, 6) == [0, 0, 0, 0, 0, 0] && BigEndian(0, 7) == [0, 0, 0, 0, 0, 0, 0];
  }

  // ------------------------------------------------ one function, on its bits

  lemma SmallSigma0At(x: Word, a: bv32, r: bv32)
    requires ToWord(a) == x && SmallSigma0Bits(a) == r
    ensures SmallSigma0(x) == ToWord(r)
  {
    hide ToBits, ToWord, SmallSigma0Bits;
    BitsOf(x, a);
  }

  lemma SmallSigma1At(x: Word, a: bv32, r: bv32)
    requires ToWord(a) == x && SmallSigma1Bits(a) == r
    ensures SmallSigma1(x) == ToWord(r)
  {
    hide ToBits, ToWord, SmallSigma1Bits;
    BitsOf(x, a);
  }

  lemma BigSigma0At(x: Word, a: bv32, r: bv32)
    requires ToWord(a) == x && BigSigma0Bits(a) == r
    ensures BigSigma0(x) == ToWord(r)
  {
    hide ToBits, ToWord, BigSigma0Bits;
    BitsOf(x, a);
  }

  lemma BigSigma1At(x: Word, a: bv32, r: bv32)
    requires ToWord(a) == x && BigSigma1Bits(a) == r
    ensures BigSigma1(x) == ToWord(r)
  {
    hide ToBits, ToWord, BigSigma1Bits;
    BitsOf(x, a);
  }

  lemma ChAt(x: Word, y: Word, z: Word, a: bv32, b: bv32, c: bv32, r: bv32)
    requires ToWord(a) == x && ToWord(b) == y && ToWord(c) == z && ChBits(a, b, c) == r
    ensures Ch(x, y, z) == ToWord(r)
  {
    hide ToBits, ToWord, ChBits;
    BitsOf(x, a);
    BitsOf(y, b);
    BitsOf(z, c);
  }

  lemma MajAt(x: Word, y: Word, z: Word, a: bv32, b: bv32, c: bv32, r: bv32)
    requires ToWord(a) == x && ToWord(b) == y && ToWord(c) == z && MajBits(a, b, c) == r
    ensures Maj(x, y, z) == ToWord(r)
  {
    hide ToBits, ToWord, MajBits;
    BitsOf(x, a);
    BitsOf(y, b);
    BitsOf(z, c);
  }

  /** An entry of the schedule, from the bits of the two entries it mixes. */
  lemma Entry(b: seq<Byte>, t: nat, x2: bv32, x15: bv32, s1: bv32, s0: bv32)
    requires |b| == 64 && t >= 16 && W(b, t - 2) == ToWord(x2) && W(b, t - 15) == ToWord(x15)
    requires SmallSigma1Bits(x2) == s1 && SmallSigma0Bits(x15) == s0
    ensures W(b, t) == Add(Add(Add(ToWord(s1), W(b, t - 7)), ToWord(s0)), W(b, t - 16))
  {
    hide WordAt, SmallSigma0, SmallSigma1, SmallSigma0Bits, SmallSigma1Bits, Add, ToWord, ToBits;
    SmallSigma1At(W(b, t - 2), x2, s1);
    SmallSigma0At(W(b, t - 15), x15, s0);
  }

  /** A round, from the bits of the working variables it mixes. */
  lemma Turn(m: seq<Byte>, t: nat, k: Word, v: Hash, a: bv32, b: bv32, c: bv32, e: bv32, f: bv32, g: bv32,
             s1: bv32, ch: bv32, s0: bv32, maj: bv32)
    requires |m| == 64 && t < |K| && K[t] == k && Rounds(H0, m, t) == v
    requires v.a == ToWord(a) && v.b == ToWord(b) && v.c == ToWord(c)
    requires v.e == ToWord(e) && v.f == ToWord(f) && v.g == ToWord(g)
    requires BigSigma1Bits(e) == s1 && ChBits(e, f, g) == ch && BigSigma0Bits(a) == s0 && MajBits(a, b, c) == maj
    ensures var t1 := Add(Add(Add(Add(v.h, ToWord(s1)), ToWord(ch)), k), W(m, t));
            Rounds(H0, m, t + 1) ==
            Hash(Add(t1, Add(ToWord(s0), ToWord(maj))), v.a, v.b, v.c, Add(v.d, t1), v.e, v.f, v.g)
  {
    hide K, W, Add, ToWord, ToBits, BigSigma0, BigSigma1, Ch, Maj, BigSigma0Bits, BigSigma1Bits, ChBits, MajBits;
    BigSigma1At(v.e, e, s1);
    ChAt(v.e, v.f, v.g, e, f, g, ch);
    BigSigma0At(v.a, a, s0);
    MajAt(v.a, v.b, v.c, a, b, c, maj);
  }

  // ------------------------------------------------------------ the schedule

  lemma Words0(b: seq<Byte>)
    requires IsBlock(b)
    ensures W(b, 0) == 0x61626380 && W(b, 15) == 24 && forall t :: 1 <= t < 15 ==> W(b, t) == 0
  {
  }

  lemma Words16(b: seq<Byte>)
    requires IsBlock(b)
    ensures W(b, 16) == 0x61626380 && W(b, 17) == 0x000f0000 && W(b, 18) == 0x7da86405 && W(b, 19) == 0x600003c6
    ensures W(b, 20) == 0x3e9d7b78 && W(b, 21) == 0x0183fc00 && W(b, 22) == 0x12dcbfdb && W(b, 23) == 0xe2e2c38e
  {
    hide W, IsBlock, K;
    SizeOf(b);
    Words0(b);
    Entry(b, 16, 0x00000000, 0x00000000, 0x00000000, 0x00000000);
    Entry(b, 17, 0x00000018, 0x00000000, 0x000f0000, 0x00000000);
    Entry(b, 18, 0x61626380, 0x00000000, 0x7da86405, 0x00000000);
    Entry(b, 19, 0x000f0000, 0x00000000, 0x600003c6, 0x00000000);
    Entry(b, 20, 0x7da86405, 0x00000000, 0x3e9d7b78, 0x00000000);
    Entry(b, 21, 0x600003c6, 0x00000000, 0x0183fc00, 0x00000000);
    Entry(b, 22, 0x3e9d7b78, 0x00000000, 0x12dcbfc3, 0x00000000);
    Entry(b, 23, 0x0183fc00, 0x00000000, 0x8180600e, 0x00000000);
  }

  lemma Words24(b: seq<Byte>)
    requires IsBlock(b)
    ensures W(b, 24) == 0xc8215c1a && W(b, 25) == 0xb73679a2 && W(b, 26) == 0xe5bc3909 && W(b, 27) == 0x32663c5b
    ensures W(b, 28) == 0x9d209d67 && W(b, 29) == 0xec8726cb && W(b, 30) == 0x702138a4 && W(b, 31) == 0xd3b7973b
  {
    hide W, IsBlock, K;
    SizeOf(b);
    Words0(b);
    Words16(b);
    Entry(b, 24, 0x12dcbfdb, 0x00000000, 0xc8125c1a, 0x00000000);
    Entry(b, 25, 0xe2e2c38e, 0x00000000, 0x398e159d, 0x00000000);
    Entry(b, 26, 0xc8215c1a, 0x00000000, 0x85bc3543, 0x00000000);
    Entry(b, 27, 0xb73679a2, 0x00000000, 0xf3c8c0e3, 0x00000000);
    Entry(b, 28, 0xe5bc3909, 0x00000000, 0x9b9ca167, 0x00000000);
    Entry(b, 29, 0x32663c5b, 0x00000000, 0xd9aa66f0, 0x00000000);
    Entry(b, 30, 0x9d209d67, 0x00000018, 0x5d387513, 0x30060003);
    Entry(b, 31, 0xec8726cb, 0x61626380, 0x7787aa1a, 0x940e90ef);
  }

  lemma Words32(b: seq<Byte>)
    requires IsBlock(b)
    ensures W(b, 32) == 0x93f5997f && W(b, 33) == 0x3b68ba73 && W(b, 34) == 0xaff4ffc1 && W(b, 35) == 0xf10a5c62
    ensures W(b, 36) == 0x0a8b3996 && W(b, 37) == 0x72af830a && W(b, 38) == 0x9409e33e && W(b, 39) == 0x24641522
  {
    hide W, IsBlock, K;
    SizeOf(b);
    Words16(b);
    Words24(b);
    Entry(b, 32, 0x702138a4, 0x000f0000, 0xbb5abe5a, 0xc001fe03);
    Entry(b, 33, 0xd3b7973b, 0x7da86405, 0x394e7e48, 0x1c4f0322);
    Entry(b, 34, 0x93f5997f, 0x600003c6, 0x7fb4c6e2, 0x8031987f);
    Entry(b, 35, 0x3b68ba73, 0x3e9d7b78, 0x4a7920f7, 0xa9709a3e);
    Entry(b, 36, 0xaff4ffc1, 0x0183fc00, 0xe0331f3b, 0xff337818);
    Entry(b, 37, 0xf10a5c62, 0x12dcbfdb, 0x65816433, 0x9b88ea33);
    Entry(b, 38, 0x0a8b3996, 0xe2e2c38e, 0xfbfb66da, 0xb17a254e);
    Entry(b, 39, 0x72af830a, 0xc8215c1a, 0x31f8dce2, 0x7b92db33);
  }

  lemma Words40(b: seq<Byte>)
    requires IsBlock(b)
    ensures W(b, 40) == 0x9f47bf94 && W(b, 41) == 0xf0a64f5a && W(b, 42) == 0x3e246a79 && W(b, 43) == 0x27333ba3
    ensures W(b, 44) == 0x0c4763f2 && W(b, 45) == 0x840abf27 && W(b, 46) == 0x7a290d5d && W(b, 47) == 0x065c43da
  {
    hide W, IsBlock, K;
    SizeOf(b);
    Words24(b);
    Words32(b);
    Entry(b, 40, 0x9409e33e, 0xb73679a2, 0xcddd9afd, 0xcde00e0a);
    Entry(b, 41, 0x24641522, 0xe5bc3909, 0x883c4fbb, 0x013e863c);
    Entry(b, 42, 0x9f47bf94, 0x32663c5b, 0x281f0da4, 0x3f3ec76a);
    Entry(b, 43, 0xf0a64f5a, 0x9d209d67, 0xee7a0fd4, 0xfbc7b5de);
    Entry(b, 44, 0x3e246a79, 0xec8726cb, 0xb87c31cc, 0x43fb11b5);
    Entry(b, 45, 0x27333ba3, 0x702138a4, 0xfaac3bb1, 0x08cd796d);
    Entry(b, 46, 0x0c4763f2, 0xd3b7973b, 0x5d845673, 0x881f6924);
    Entry(b, 47, 0x840abf27, 0x93f5997f, 0x0856302b, 0x8b06bce0);
  }

  lemma Words48(b: seq<Byte>)
    requires IsBlock(b)
    ensures W(b, 48) == 0xfb3e89cb && W(b, 49) == 0xcc7617db && W(b, 50) == 0xb9e66c34 && W(b, 51) == 0xa9993667
    ensures W(b, 52) == 0x84badedd && W(b, 53) == 0xc21462bc && W(b, 54) == 0x1487472c && W(b, 55) == 0xb20f7a99
  {
    hide W, IsBlock, K;
    SizeOf(b);
    Words32(b);
    Words40(b);
    Entry(b, 48, 0x7a290d5d, 0x3b68ba73, 0xa71b9812, 0xcf8708e0);
    Entry(b, 49, 0x065c43da, 0xaff4ffc1, 0xa997d4f5, 0xa9511dfa);
    Entry(b, 50, 0xfb3e89cb, 0xf10a5c62, 0x95e24d5a, 0x4cdbe376);
    Entry(b, 51, 0xcc7617db, 0x0a8b3996, 0xc9258230, 0xe321f3e3);
    Entry(b, 52, 0xb9e66c34, 0x72af830a, 0xfbb2b254, 0xfa7233cc);
    Entry(b, 53, 0xa9993667, 0x9409e33e, 0xbdd547b2, 0x17668aa3);
    Entry(b, 54, 0x84badedd, 0x24641522, 0x34945c7d, 0x458cc397);
    Entry(b, 55, 0xc21462bc, 0x9f47bf94, 0xbd397c50, 0xd5335f5c);
  }

  lemma Words56(b: seq<Byte>)
    requires IsBlock(b)
    ensures W(b, 56) == 0xef57b9cd && W(b, 57) == 0xebe6b238 && W(b, 58) == 0x9fe3095e && W(b, 59) == 0x78bc8d4b
    ensures W(b, 60) == 0xa43fcf15 && W(b, 61) == 0x668b2ff8 && W(b, 62) == 0xeeaba2cc && W(b, 63) == 0x12b1edeb
  {
    hide W, IsBlock, K;
    SizeOf(b);
    Words40(b);
    Words48(b);
    Entry(b, 56, 0x1487472c, 0xf0a64f5a, 0x4b76a902, 0x3823395c);
    Entry(b, 57, 0xb20f7a99, 0x3e246a79, 0x52336c98, 0xef268a12);
    Entry(b, 58, 0xef57b9cd, 0x27333ba3, 0x2be49faf, 0x8c40c8cf);
    Entry(b, 59, 0xebe6b238, 0x0c4763f2, 0x8f619123, 0x3d6ce1a8);
    Entry(b, 60, 0x9fe3095e, 0x840abf27, 0xe5a364cf, 0xf040a398);
    Entry(b, 61, 0x78bc8d4b, 0x7a290d5d, 0xd712fc6a, 0xf6e62d3b);
    Entry(b, 62, 0xa43fcf15, 0x065c43da, 0x1e41696b, 0xa431b16b);
    Entry(b, 63, 0x668b2ff8, 0xfb3e89cb, 0xf21a9d5f, 0x2ae352e5);
  }

  lemma SizeOf(b: seq<Byte>)
    requires IsBlock(b)
    ensures |b| == 64
  {
  }

  // -------------------------------------------------------------- the rounds

  lemma Rounds0(b: seq<Byte>)
    requires IsBlock(b)
    ensures |b| == 64 && |K| == 64
    ensures Rounds(H0, b, 4) ==
            Hash(0xd550f666, 0xc8c347a7, 0x5a6ad9ad, 0x5d6aebcd,
                 0x24e00850, 0xf92939eb, 0x78ce7989, 0xfa2a4622)
  {
    hide W, Rounds, IsBlock, K;
    KLength();
    SizeOf(b);
    Begin(b);
    Words0(b);
    Values0();
    Turn(b, 0, 0x428a2f98, Rounds(H0, b, 0), 0x6a09e667, 0xbb67ae85, 0x3c6ef372, 0x510e527f, 0x9b05688c, 0x1f83d9ab,
         0x3587272b, 0x1f85c98c, 0xce20b47e, 0x3a6fe667);
    Turn(b, 1, 0x71374491, Rounds(H0, b, 1), 0x5d6aebcd, 0x6a09e667, 0xbb67ae85, 0xfa2a4622, 0x510e527f, 0x9b05688c,
         0x5a94fd2d, 0x510f6aae, 0xa29f64d1, 0x7b6beec5);
    Turn(b, 2, 0xb5c0fbcf, Rounds(H0, b, 2), 0x5a6ad9ad, 0x5d6aebcd, 0x6a09e667, 0x78ce7989, 0xfa2a4622, 0x510e527f,
         0x73f0e495, 0x790a4276, 0x3096d054, 0x5a6aebed);
    Turn(b, 3, 0xe9b5dba5, Rounds(H0, b, 3), 0xc8c347a7, 0x5a6ad9ad, 0x5d6aebcd, 0xf92939eb, 0x78ce7989, 0xfa2a4622,
         0x0607743c, 0x7a0a7f89, 0xc21008d0, 0x586acbad);
  }

  lemma Rounds4(b: seq<Byte>)
    requires IsBlock(b)
    ensures |b| == 64 && |K| == 64
    ensures Rounds(H0, b, 8) ==
            Hash(0x85a07b5f, 0xe5030380, 0x2b4209f5, 0x04409a6a,
                 0x0c657a79, 0x9b27a401, 0x714260ad, 0x43ada245)
  {
    hide W, Rounds, IsBlock, K;
    KLength();
    SizeOf(b);
    Rounds0(b);
    Words0(b);
    Values0();
    Turn(b, 4, 0x3956c25b, Rounds(H0, b, 4), 0xd550f666, 0xc8c347a7, 0x5a6ad9ad, 0x24e00850, 0xf92939eb, 0x78ce7989,
         0x3a933432, 0x782e79c9, 0x45bb0c4b, 0xd842d7a7);
    Turn(b, 5, 0x59f111f1, Rounds(H0, b, 5), 0x04409a6a, 0xd550f666, 0xc8c347a7, 0x43ada245, 0x24e00850, 0xf92939eb,
         0x8b77e19c, 0xb8a019ea, 0x5029ac8f, 0xc440d666);
    Turn(b, 6, 0x923f82a4, Rounds(H0, b, 6), 0x2b4209f5, 0x04409a6a, 0xd550f666, 0x714260ad, 0x43ada245, 0x24e00850,
         0x015b7776, 0x45a02855, 0x0d5e0cc0, 0x05409a66);
    Turn(b, 7, 0xab1c5ed5, Rounds(H0, b, 7), 0xe5030380, 0x2b4209f5, 0x04409a6a, 0x9b27a401, 0x714260ad, 0x43ada245,
         0x158dfaa9, 0x518a2245, 0x2949eb6c, 0x25420be0);
  }

  lemma Rounds8(b: seq<Byte>)
    requires IsBlock(b)
    ensures |b| == 64 && |K| == 64
    ensures Rounds(H0, b, 12) ==
            Hash(0xf71fc5a9, 0x4798a3f4, 0x8c87346b, 0x8e04ecb9,
                 0x816fd6e9, 0x436b23e8, 0x1cc92596, 0x32ca2d8c)
  {
    hide W, Rounds, IsBlock, K;
    KLength();
    SizeOf(b);
    Rounds4(b);
    Words0(b);
    Values8();
    Turn(b, 8, 0xd807aa98, Rounds(H0, b, 8), 0x85a07b5f, 0xe5030380, 0x2b4209f5, 0x0c657a79, 0x9b27a401, 0x714260ad,
         0x99ad25c0, 0x79272085, 0xba794dc2, 0xa5020bd5);
    Turn(b, 9, 0x12835b01, Rounds(H0, b, 9), 0x8e04ecb9, 0x85a07b5f, 0xe5030380, 0x32ca2d8c, 0x0c657a79, 0x9b27a401,
         0xe45bb7ea, 0x8965a809, 0x15ffad31, 0x85006b99);
    Turn(b, 10, 0x243185be, Rounds(H0, b, 10), 0x8c87346b, 0x8e04ecb9, 0x85a07b5f, 0x1cc92596, 0x32ca2d8c, 0x0c657a79,
         0x8e2276bc, 0x10ec7fed, 0x5cac0711, 0x8c847c7b);
    Turn(b, 11, 0x550c7dc3, Rounds(H0, b, 11), 0x4798a3f4, 0x8c87346b, 0x8e04ecb9, 0x436b23e8, 0x1cc92596, 0x32ca2d8c,
         0x699435ca, 0x30c92d84, 0x6ccbc526, 0x8e84a4f9);
  }

  lemma Rounds12(b: seq<Byte>)
    requires IsBlock(b)
    ensures |b| == 64 && |K| == 64
    ensures Rounds(H0, b, 16) ==
            Hash(0xb0fa238e, 0xc0645fde, 0xd932eb16, 0x87912990,
                 0x07590dcd, 0x0b92f20c, 0x745a48de, 0x1e578218)
  {
    hide W, Rounds, IsBlock, K;
    KLength();
    SizeOf(b);
    Rounds8(b);
    Words0(b);
    Values8();
    Turn(b, 12, 0x72be5d74, Rounds(H0, b, 12), 0xf71fc5a9, 0x4798a3f4, 0x8c87346b, 0x816fd6e9, 0x436b23e8, 0x1cc92596,
         0xccdee661, 0x1deb23fe, 0x2f9eee48, 0xc79fa5e9);
    Turn(b, 13, 0x80deb1fe, Rounds(H0, b, 13), 0x87912990, 0xf71fc5a9, 0x4798a3f4, 0x1e578218, 0x816fd6e9, 0x436b23e8,
         0x08bb98f7, 0x416fa3e8, 0x29c634f3, 0xc799a1b0);
    Turn(b, 14, 0x9bdc06a7, Rounds(H0, b, 14), 0xd932eb16, 0x87912990, 0xf71fc5a9, 0x745a48de, 0x1e578218, 0x816fd6e9,
         0x4f3b8d50, 0x95779639, 0x25562836, 0xd713e990);
    Turn(b, 15, 0xc19bf174, Rounds(H0, b, 15), 0xc0645fde, 0xd932eb16, 0x87912990, 0x0b92f20c, 0x745a48de, 0x1e578218,
         0xb8d63f93, 0x1457401c, 0xdf906fd4, 0xc1306b96);
  }

  lemma Rounds16(b: seq<Byte>)
    requires IsBlock(b)
    ensures |b| == 64 && |K| == 64
    ensures Rounds(H0, b, 20) ==
            Hash(0xe1f20c33, 0xfe777bbf, 0xc2fbd9d1, 0x21da9a9b,
                 0xb0638179, 0xcc899961, 0x846ee454, 0x8034229c)
  {
    hide W, Rounds, IsBlock, K;
    KLength();
    SizeOf(b);
    Rounds12(b);
    Words16(b);
    Values16();
    Turn(b, 16, 0xe49b69c1, Rounds(H0, b, 16), 0xb0fa238e, 0xc0645fde, 0xd932eb16, 0x07590dcd, 0x0b92f20c, 0x745a48de,
         0x213b6995, 0x7312401e, 0x58c535f1, 0xd0726b9e);
    Turn(b, 17, 0xefbe4786, Rounds(H0, b, 17), 0x21da9a9b, 0xb0fa238e, 0xc0645fde, 0x8034229c, 0x07590dcd, 0x0b92f20c,
         0x3b81984e, 0x0b92d08c, 0x76c5c4f5, 0xa0fa1b9e);
    Turn(b, 18, 0x0fc19dc6, Rounds(H0, b, 18), 0xc2fbd9d1, 0x21da9a9b, 0xb0fa238e, 0x846ee454, 0x8034229c, 0x07590dcd,
         0xeff31c0f, 0x8335299d, 0x5157a6a1, 0xa0fa9b9b);
    Turn(b, 19, 0x240ca1cc, Rounds(H0, b, 19), 0xfe777bbf, 0xc2fbd9d1, 0x21da9a9b, 0xcc899961, 0x846ee454, 0x8034229c,
         0xefc707b0, 0x843ca2dc, 0xff8cd2ad, 0xe2fbdb9b);
  }

  lemma Rounds20(b: seq<Byte>)
    requires IsBlock(b)
    ensures |b| == 64 && |K| == 64
    ensures Rounds(H0, b, 24) ==
            Hash(0xc5d53d8d, 0xa7a3623f, 0xc2606d6d, 0x9dc68b63,
                 0xaa47c347, 0x49f5114a, 0xe1257970, 0x8ada8930)
  {
    hide W, Rounds, IsBlock, K;
    KLength();
    SizeOf(b);
    Rounds16(b);
    Words16(b);
    Values16();
    Turn(b, 20, 0x2de92c6f, Rounds(H0, b, 20), 0xe1f20c33, 0xfe777bbf, 0xc2fbd9d1, 0xb0638179, 0xcc899961, 0x846ee454,
         0xf8373ead, 0x840de565, 0x51d3431b, 0xe2f359b3);
    Turn(b, 21, 0x4a7484aa, Rounds(H0, b, 21), 0x9dc68b63, 0xe1f20c33, 0xfe777bbf, 0x8ada8930, 0xb0638179, 0xcc899961,
         0x897ea930, 0xc4439171, 0xa640c29b, 0xfdf60b33);
    Turn(b, 22, 0x5cb0a9dc, Rounds(H0, b, 22), 0xc2606d6d, 0x9dc68b63, 0xe1f20c33, 0xe1257970, 0x8ada8930, 0xb0638179,
         0x7f24093a, 0x90428939, 0x9a43bf51, 0xc1e20d63);
    Turn(b, 23, 0x76f988da, Rounds(H0, b, 23), 0xa7a3623f, 0xc2606d6d, 0x9dc68b63, 0x49f5114a, 0xe1257970, 0x8ada8930,
         0xfae64fc3, 0xc32f9970, 0x759d1b0a, 0x87e26b6f);
  }

  lemma Rounds24(b: seq<Byte>)
    requires IsBlock(b)
    ensures |b| == 64 && |K| == 64
    ensures Rounds(H0, b, 28) ==
            Hash(0x77d37528, 0xb62ec4bc, 0xcde8037d, 0x1c2c2838,
                 0xedffbff8, 0xc74c6516, 0x14383d8e, 0x2823ef91)
  {
    hide W, Rounds, IsBlock, K;
    KLength();
    SizeOf(b);
    Rounds20(b);
    Words24(b);
    Values24();
    Turn(b, 24, 0x983e5152, Rounds(H0, b, 24), 0xc5d53d8d, 0xa7a3623f, 0xc2606d6d, 0xaa47c347, 0x49f5114a, 0xe1257970,
         0x55bdf420, 0x49653972, 0xc9ed56dd, 0xc7e16d2d);
    Turn(b, 25, 0xa831c66d, Rounds(H0, b, 25), 0x1c2c2838, 0xc5d53d8d, 0xa7a3623f, 0x2823ef91, 0xaa47c347, 0x49f5114a,
         0xa7724357, 0x69d7d34b, 0xf66b0b1f, 0x85a5283d);
    Turn(b, 26, 0xb00327c8, Rounds(H0, b, 26), 0xcde8037d, 0x1c2c2838, 0xc5d53d8d, 0x14383d8e, 0x2823ef91, 0xaa47c347,
         0x958ca0fb, 0xaa67efc1, 0xc89998a8, 0xcdec293d);
    Turn(b, 27, 0xbf597fc7, Rounds(H0, b, 27), 0xb62ec4bc, 0xcde8037d, 0x1c2c2838, 0xc74c6516, 0x14383d8e, 0x2823ef91,
         0x5ff7537b, 0x2c2baf87, 0xb37cf281, 0x9c2c003c);
  }

  lemma Rounds28(b: seq<Byte>)
    requires IsBlock(b)
    ensures |b| == 64 && |K| == 64
    ensures Rounds(H0, b, 32) ==
            Hash(0x73b33bf5, 0xea992a22, 0xa0060b30, 0x363482c9,
                 0xba591112, 0x0109ab3a, 0xade79437, 0x6112a3b7)
  {
    hide W, Rounds, IsBlock, K;
    KLength();
    SizeOf(b);
    Rounds24(b);
    Words24(b);
    Values24();
    Turn(b, 28, 0xc6e00bf3, Rounds(H0, b, 28), 0x77d37528, 0xb62ec4bc, 0xcde8037d, 0xedffbff8, 0xc74c6516, 0x14383d8e,
         0xe375bd7e, 0xd54c2516, 0xf963c20e, 0xf7ea453c);
    Turn(b, 29, 0xd5a79147, Rounds(H0, b, 29), 0x363482c9, 0x77d37528, 0xb62ec4bc, 0x6112a3b7, 0xedffbff8, 0xc74c6516,
         0x2239b36a, 0xe75ee7b0, 0x89cfb5ce, 0x3636c4a8);
    Turn(b, 30, 0x06ca6351, Rounds(H0, b, 30), 0xa0060b30, 0x363482c9, 0x77d37528, 0xade79437, 0x6112a3b7, 0xedffbff8,
         0xab883974, 0x611aabff, 0x69a8407c, 0x36160328);
    Turn(b, 31, 0x14292967, Rounds(H0, b, 31), 0xea992a22, 0xa0060b30, 0x363482c9, 0x0109ab3a, 0xade79437, 0x6112a3b7,
         0x0b919a99, 0x611380b7, 0x8f1995eb, 0xa2140a20);
  }

  lemma Rounds32(b: seq<Byte>)
    requires IsBlock(b)
    ensures |b| == 64 && |K| == 64
    ensures Rounds(H0, b, 36) ==
            Hash(0x65a0cfe4, 0xa9a7738c, 0xfe604df5, 0x98e12507,
                 0xf4b002d6, 0x085f3833, 0x59249dd3, 0x9cd9f5f6)
  {
    hide W, Rounds, IsBlock, K;
    KLength();
    SizeOf(b);
    Rounds28(b);
    Words32(b);
    Values32();
    Turn(b, 32, 0x27b70a85, Rounds(H0, b, 32), 0x73b33bf5, 0xea992a22, 0xa0060b30, 0xba591112, 0x0109ab3a, 0xade79437,
         0x4436a63b, 0x05af8537, 0x4fa886aa, 0xe2932b30);
    Turn(b, 33, 0x2e1b2138, Rounds(H0, b, 33), 0x98e12507, 0x73b33bf5, 0xea992a22, 0x9cd9f5f6, 0xba591112, 0x0109ab3a,
         0x085a07a7, 0x99591b1a, 0x4a90902b, 0xfab12b27);
    Turn(b, 34, 0x4d2c6dfc, Rounds(H0, b, 34), 0xfe604df5, 0x98e12507, 0x73b33bf5, 0x59249dd3, 0x9cd9f5f6, 0xba591112,
         0x65415f48, 0xba5995d2, 0x91003786, 0xfae12df5);
    Turn(b, 35, 0x53380d13, Rounds(H0, b, 35), 0xa9a7738c, 0xfe604df5, 0x98e12507, 0x085f3833, 0x59249dd3, 0x9cd9f5f6,
         0xe5dc6e83, 0x9c84ddd7, 0x2bc2a37e, 0xb8e16585);
  }

  lemma Rounds36(b: seq<Byte>)
    requires IsBlock(b)
    ensures |b| == 64 && |K| == 64
    ensures Rounds(H0, b, 40) ==
            Hash(0x79ea687a, 0x6dc57a8a, 0x34df1604, 0x41a65cb1,
                 0x1efbc0a0, 0xf0781bc8, 0xa507a53d, 0x0772a26b)
  {
    hide W, Rounds, IsBlock, K;
    KLength();
    SizeOf(b);
    Rounds32(b);
    Words32(b);
    Values32();
    Turn(b, 36, 0x650a7354, Rounds(H0, b, 36), 0x65a0cfe4, 0xa9a7738c, 0xfe604df5, 0xf4b002d6, 0x085f3833, 0x59249dd3,
         0x590d3d71, 0x09149d13, 0xe5748f69, 0xeda04fe4);
    Turn(b, 37, 0x766a0abb, Rounds(H0, b, 37), 0x41a65cb1, 0x65a0cfe4, 0xa9a7738c, 0x0772a26b, 0xf4b002d6, 0x085f3833,
         0x582c115e, 0x0c3d1a52, 0x2c915f18, 0x61a65fa4);
    Turn(b, 38, 0x81c2c92e, Rounds(H0, b, 38), 0x34df1604, 0x41a65cb1, 0x65a0cfe4, 0xa507a53d, 0x0772a26b, 0xf4b002d6,
         0xd2f220b2, 0x55b2a2eb, 0xc14e73aa, 0x65a65ea4);
    Turn(b, 39, 0x92722c85, Rounds(H0, b, 39), 0x6dc57a8a, 0x34df1604, 0x41a65cb1, 0xf0781bc8, 0xa507a53d, 0x0772a26b,
         0x66d20b14, 0xa702a12b, 0x5ac8193e, 0x65c75e80);
  }

  lemma Rounds40(b: seq<Byte>)
    requires IsBlock(b)
    ensures |b| == 64 && |K| == 64
    ensures Rounds(H0, b, 44) ==
            Hash(0x9d4baf93, 0x17aa0dfe, 0xdf46652f, 0xd6670766,
                 0xfda24c2e, 0xdecd4715, 0x838b2711, 0x26352d63)
  {
    hide W, Rounds, IsBlock, K;
    KLength();
    SizeOf(b);
    Rounds36(b);
    Words40(b);
    Values40();
    Turn(b, 40, 0xa2bfe8a1, Rounds(H0, b, 40), 0x79ea687a, 0x6dc57a8a, 0x34df1604, 0x1efbc0a0, 0xf0781bc8, 0xa507a53d,
         0xe9986075, 0xb17c259d, 0x7408bcaa, 0x7dcf7a0a);
    Turn(b, 41, 0xa81a664b, Rounds(H0, b, 41), 0xd6670766, 0x79ea687a, 0x6dc57a8a, 0x26352d63, 0x1efbc0a0, 0xf0781bc8,
         0x3a6aa383, 0xd67912a8, 0x12b2e9b8, 0x7de76a6a);
    Turn(b, 42, 0xc24b8b70, Rounds(H0, b, 42), 0xdf46652f, 0xd6670766, 0x79ea687a, 0x838b2711, 0x26352d63, 0x1efbc0a0,
         0x61add539, 0x1e71e5a1, 0xc73bdc05, 0xdf66656e);
    Turn(b, 43, 0xc76c51a3, Rounds(H0, b, 43), 0x17aa0dfe, 0xdf46652f, 0xd6670766, 0xdecd4715, 0x838b2711, 0x26352d63,
         0xd363665b, 0xa2b92f73, 0x422dc671, 0xd766056e);
  }

  lemma Rounds44(b: seq<Byte>)
    requires IsBlock(b)
    ensures |b| == 64 && |K| == 64
    ensures Rounds(H0, b, 48) ==
            Hash(0x4172328d, 0xa14c14b0, 0x72ab4b91, 0x26628815,
                 0xfecf0bc6, 0xd57b94a9, 0xb7755da1, 0xa80f11f0)
  {
    hide W, Rounds, IsBlock, K;
    KLength();
    SizeOf(b);
    Rounds40(b);
    Words40(b);
    Values40();
    Turn(b, 44, 0xd192e819, Rounds(H0, b, 44), 0x9d4baf93, 0x17aa0dfe, 0xdf46652f, 0xfda24c2e, 0xdecd4715, 0x838b2711,
         0xef0f2a07, 0xde896715, 0xb5704fcc, 0x9f4a2dbf);
    Turn(b, 45, 0xd6990624, Rounds(H0, b, 45), 0x26628815, 0x9d4baf93, 0x17aa0dfe, 0xa80f11f0, 0xfda24c2e, 0xdecd4715,
         0xfb3dc5f1, 0xfec24625, 0x8311c588, 0x176a8d97);
    Turn(b, 46, 0xf40e3585, Rounds(H0, b, 46), 0x72ab4b91, 0x26628815, 0x9d4baf93, 0xb7755da1, 0xa80f11f0, 0xfda24c2e,
         0x8845eb06, 0xe88711ae, 0xad0f0274, 0x366b8b91);
    Turn(b, 47, 0x106aa070, Rounds(H0, b, 47), 0xa14c14b0, 0x72ab4b91, 0x26628815, 0xd57b94a9, 0xb7755da1, 0xa80f11f0,
         0x8fa515ca, 0xbd7515f1, 0xbd84cdc9, 0x226a0891);
  }

  lemma Rounds48(b: seq<Byte>)
    requires IsBlock(b)
    ensures |b| == 64 && |K| == 64
    ensures Rounds(H0, b, 52) ==
            Hash(0x886e7a22, 0x7a0508a1, 0xf11bfaa8, 0x05757ceb,
                 0x49231c1e, 0x52f1ccf7, 0x6e5c390c, 0xbd714038)
  {
    hide W, Rounds, IsBlock, K;
    KLength();
    SizeOf(b);
    Rounds44(b);
    Words48(b);
    Values48();
    Turn(b, 48, 0x19a4c116, Rounds(H0, b, 48), 0x4172328d, 0xa14c14b0, 0x72ab4b91, 0xfecf0bc6, 0xd57b94a9, 0xb7755da1,
         0x04a106b1, 0xd57b54a1, 0x0cfcb237, 0x616a1291);
    Turn(b, 49, 0x1e376c08, Rounds(H0, b, 49), 0x05757ceb, 0x4172328d, 0xa14c14b0, 0xbd714038, 0xfecf0bc6, 0xd57b94a9,
         0x5d427776, 0xfc4b9481, 0xf3f6d884, 0x017434a9);
    Turn(b, 50, 0x2748774c, Rounds(H0, b, 50), 0xf11bfaa8, 0x05757ceb, 0x4172328d, 0x6e5c390c, 0xbd714038, 0xfecf0bc6,
         0x3e283d54, 0xbcd302ca, 0x86ebd5b1, 0x41737aa9);
    Turn(b, 51, 0x34b0bcb5, Rounds(H0, b, 51), 0x7a0508a1, 0xf11bfaa8, 0x05757ceb, 0x52f1ccf7, 0x6e5c390c, 0xbd714038,
         0x3b47e2a3, 0xef50080c, 0x0fa817e8, 0x711578a9);
  }

  lemma Rounds52(b: seq<Byte>)
    requires IsBlock(b)
    ensures |b| == 64 && |K| == 64
    ensures Rounds(H0, b, 56) ==
            Hash(0x38cc9913, 0x3ec45cdb, 0xf5702fdb, 0x101fd28f,
                 0x54cb266b, 0xe50e1b4f, 0x9f4787c3, 0x529e7d00)
  {
    hide W, Rounds, IsBlock, K;
    KLength();
    SizeOf(b);
    Rounds48(b);
    Words48(b);
    Values48();
    Turn(b, 52, 0x391c0cb3, Rounds(H0, b, 52), 0x886e7a22, 0x7a0508a1, 0xf11bfaa8, 0x49231c1e, 0x52f1ccf7, 0x6e5c390c,
         0x6b63a737, 0x667d2d16, 0xcae757da, 0xf80f7aa0);
    Turn(b, 53, 0x4ed8aa4a, Rounds(H0, b, 53), 0x101fd28f, 0x886e7a22, 0x7a0508a1, 0x529e7d00, 0x49231c1e, 0x52f1ccf7,
         0xee7eaa12, 0x40639cf7, 0x2f35481d, 0x180f5aa3);
    Turn(b, 54, 0x5b9cca4f, Rounds(H0, b, 54), 0xf5702fdb, 0x101fd28f, 0x886e7a22, 0x9f4787c3, 0x529e7d00, 0x49231c1e,
         0x55cd1720, 0x52261d1c, 0x433ccfa2, 0x907e7a8b);
    Turn(b, 55, 0x682e6ff3, Rounds(H0, b, 55), 0x3ec45cdb, 0xf5702fdb, 0x101fd28f, 0xe50e1b4f, 0x9f4787c3, 0x529e7d00,
         0xd1653e5c, 0x97966743, 0x381b8def, 0x34545edb);
  }

  lemma Rounds56(b: seq<Byte>)
    requires IsBlock(b)
    ensures |b| == 64 && |K| == 64
    ensures Rounds(H0, b, 60) ==
            Hash(0xb6ae8fff, 0xffb70472, 0xc062d46f, 0xfcd1887b,
                 0xb21bad3d, 0x6d83bfc6, 0x7e44008e, 0x9b5e906c)
  {
    hide W, Rounds, IsBlock, K;
    KLength();
    SizeOf(b);
    Rounds52(b);
    Words56(b);
    Values56();
    Turn(b, 56, 0x748f82ee, Rounds(H0, b, 56), 0x38cc9913, 0x3ec45cdb, 0xf5702fdb, 0x54cb266b, 0xe50e1b4f, 0x9f4787c3,
         0x05aa8057, 0xcf0e83cb, 0x34ceacc3, 0x3cc41ddb);
    Turn(b, 57, 0x78a5636f, Rounds(H0, b, 57), 0xfcd1887b, 0x38cc9913, 0x3ec45cdb, 0x9b5e906c, 0x54cb266b, 0xe50e1b4f,
         0x10b627de, 0x744a0b6b, 0xfaca6b61, 0x3cc4985b);
    Turn(b, 58, 0x84c87814, Rounds(H0, b, 58), 0xc062d46f, 0xfcd1887b, 0x38cc9913, 0x7e44008e, 0x9b5e906c, 0x54cb266b,
         0x0a369fbd, 0x1acf266d, 0xd837090c, 0xf8c0987b);
    Turn(b, 59, 0x8cc70208, Rounds(H0, b, 59), 0xffb70472, 0xc062d46f, 0xfcd1887b, 0x6d83bfc6, 0x7e44008e, 0x9b5e906c,
         0x20a45dbe, 0xfe5c00ae, 0x406bf75a, 0xfcf3847b);
  }

  lemma Rounds60(b: seq<Byte>)
    requires IsBlock(b)
    ensures |b| == 64 && |K| == 64
    ensures Rounds(H0, b, 64) ==
            Hash(0x506e3058, 0xd39a2165, 0x04d24d6c, 0xb85e2ce9,
                 0x5ef50f24, 0xfb121210, 0x948d25b6, 0x961f4894)
  {
    hide W, Rounds, IsBlock, K;
    KLength();
    SizeOf(b);
    Rounds56(b);
    Words56(b);
    Values56();
    Turn(b, 60, 0x90befffa, Rounds(H0, b, 60), 0xb6ae8fff, 0xffb70472, 0xc062d46f, 0xb21bad3d, 0x6d83bfc6, 0x7e44008e,
         0x5ca8b318, 0x6c47ad86, 0x2869e851, 0xf6a6847f);
    Turn(b, 61, 0xa4506ceb, Rounds(H0, b, 61), 0xb85e2ce9, 0xb6ae8fff, 0xffb70472, 0x961f4894, 0xb21bad3d, 0x6d83bfc6,
         0x4f6ef480, 0xfb9bbf56, 0x71e9ef2a, 0xbebe0cfb);
    Turn(b, 62, 0xbef9a3f7, Rounds(H0, b, 62), 0x04d24d6c, 0xb85e2ce9, 0xb6ae8fff, 0x948d25b6, 0x961f4894, 0xb21bad3d,
         0x2a127e78, 0xb61f889d, 0x236105da, 0xb4de0ded);
    Turn(b, 63, 0xc67178f2, Rounds(H0, b, 63), 0xd39a2165, 0x04d24d6c, 0xb85e2ce9, 0xfb121210, 0x948d25b6, 0x961f4894,
         0x88fa2277, 0x940d4894, 0x174d83c6, 0x90da2d6d);
  }

  lemma Begin(b: seq<Byte>)
    requires |b| == 64
    ensures Rounds(H0, b, 0) == H0
  {
  }

  lemma AbcHash(b: seq<Byte>)
    requires IsBlock(b)
    ensures |b| == 64
    ensures Chained(b) ==
            Hash(0xba7816bf, 0x8f01cfea, 0x414140de, 0x5dae2223,
                 0xb00361a3, 0x96177a9c, 0xb410ff61, 0xf20015ad)
  {
    hide IsBlock, Rounds, K;
    SizeOf(b);
    KLength();
    Rounds60(b);
    OneBlockChain(b);
  }

  lemma OneBlockChain(b: seq<Byte>)
    requires |b| == 64
    ensures Chained(b) == Plus(H0, Rounds(H0, b, |K|))
  {
    hide Rounds, K;
    assert b[..0] == [] && b[0..] == b;
  }

  /** FIPS 180-4 gives ba7816bf 8f01cfea 414140de 5dae2223 b00361a3 96177a9c b410ff61 f20015ad. */
  lemma AbcDigest()
    ensures Digest(ABC) == [
              0xba, 0x78, 0x16, 0xbf, 0x8f, 0x01, 0xcf, 0xea, 0x41, 0x41, 0x40, 0xde, 0x5d, 0xae, 0x22, 0x23,
              0xb0, 0x03, 0x61, 0xa3, 0x96, 0x17, 0x7a, 0x9c, 0xb4, 0x10, 0xff, 0x61, 0xf2, 0x00, 0x15, 0xad]
  {
    hide Padded, Chained, IsBlock, Octets;
    OneBlock();
    AbcHash(Padded(ABC));
    AbcOctets();
  }

  lemma AbcOctets()
    ensures Octets(0xba7816bf) == [0xba, 0x78, 0x16, 0xbf]
    ensures Octets(0x8f01cfea) == [0x8f, 0x01, 0xcf, 0xea]
    ensures Octets(0x414140de) == [0x41, 0x41, 0x40, 0xde]
    ensures Octets(0x5dae2223) == [0x5d, 0xae, 0x22, 0x23]
    ensures Octets(0xb00361a3) == [0xb0, 0x03, 0x61, 0xa3]
    ensures Octets(0x96177a9c) == [0x96, 0x17, 0x7a, 0x9c]
    ensures Octets(0xb410ff61) == [0xb4, 0x10, 0xff, 0x61]
    ensures Octets(0xf20015ad) == [0xf2, 0x00, 0x15, 0xad]
  {
  }
}
