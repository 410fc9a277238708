/** SHA-256 as FIPS 180-4 defines it: functions (section 4.1.2), constants (4.2.2,
    5.3.3), padding (5.1.1) and computation (6.2). */
module Fips180 {
  import opened Basics

  newtype Word = w: int | 0 <= w < 0x1_0000_0000

  /** Addition modulo 2^32. */
  function Add(x: Word, y: Word): Word {
    var sum := x as int + y as int;
    (if sum < 0x1_0000_0000 then sum else sum - 0x1_0000_0000) as Word
  }

  function RotR(x: bv32, n: bv6): bv32
    requires 0 < n < 32
  {
    (x >> n) | (x << (32 - n))
  }

  function ToBits(x: Word): bv32 { x as bv32 }

  function ToWord(a: bv32): Word { a as Word }

  /** A word is found again from its bits. */
  lemma BitsOf(x: Word, a: bv32)
    requires ToWord(a) == x
    ensures ToBits(x) == a
  {
    BackAndForth(a);
  }

  lemma BackAndForth(a: bv32)
    ensures (a as Word) as bv32 == a
  {
  }

  function ChBits(x: bv32, y: bv32, z: bv32): bv32 { (x & y) ^ (!x & z) }

  function MajBits(x: bv32, y: bv32, z: bv32): bv32 { (x & y) ^ (x & z) ^ (y & z) }

  function BigSigma0Bits(x: bv32): bv32 { RotR(x, 2) ^ RotR(x, 13) ^ RotR(x, 22) }

  function BigSigma1Bits(x: bv32): bv32 { RotR(x, 6) ^ RotR(x, 11) ^ RotR(x, 25) }

  function SmallSigma0Bits(x: bv32): bv32 { RotR(x, 7) ^ RotR(x, 18) ^ (x >> 3) }

  function SmallSigma1Bits(x: bv32): bv32 { RotR(x, 17) ^ RotR(x, 19) ^ (x >> 10) }

  function Ch(x: Word, y: Word, z: Word): Word { ToWord(ChBits(ToBits(x), ToBits(y), ToBits(z))) }

  function Maj(x: Word, y: Word, z: Word): Word { ToWord(MajBits(ToBits(x), ToBits(y), ToBits(z))) }

  function BigSigma0(x: Word): Word { ToWord(BigSigma0Bits(ToBits(x))) }

  function BigSigma1(x: Word): Word { ToWord(BigSigma1Bits(ToBits(x))) }

  function SmallSigma0(x: Word): Word { ToWord(SmallSigma0Bits(ToBits(x))) }

  function SmallSigma1(x: Word): Word { ToWord(SmallSigma1Bits(ToBits(x))) }

  /** Where a bit of x is set Ch takes the bit of y, elsewhere that of z. */
  lemma Chooses(x: bv32, y: bv32, z: bv32)
    ensures ChBits(x, y, z) & x == y & x && ChBits(x, y, z) & !x == z & !x
  {
  }

  /** Where x and y agree Maj takes their bit, elsewhere that of z. */
  lemma Majority(x: bv32, y: bv32, z: bv32)
    ensures MajBits(x, y, z) & !(x ^ y) == x & !(x ^ y) && MajBits(x, y, z) & (x ^ y) == z & (x ^ y)
  {
  }

  /** The six rotations and two shifts, on the word with the lowest and the word
      with the highest bit set. */
  lemma SigmasAtBits()
    ensures BigSigma0Bits(1) == 0x4008_0400 && BigSigma0Bits(0x8000_0000) == 0x2004_0200
    ensures BigSigma1Bits(1) == 0x0420_0080 && BigSigma1Bits(0x8000_0000) == 0x0210_0040
    ensures SmallSigma0Bits(1) == 0x0200_4000 && SmallSigma0Bits(0x8000_0000) == 0x1100_2000
    ensures SmallSigma1Bits(1) == 0x0000_a000 && SmallSigma1Bits(0x8000_0000) == 0x0020_5000
  {
  }

  const K: seq<Word> := K0 + K16 + K32 + K48

  const K0: seq<Word> := [
    0x428a2f98, 0x71374491, 0xb5c0fbcf, 0xe9b5dba5, 0x3956c25b, 0x59f111f1, 0x923f82a4, 0xab1c5ed5,
    0xd807aa98, 0x12835b01, 0x243185be, 0x550c7dc3, 0x72be5d74, 0x80deb1fe, 0x9bdc06a7, 0xc19bf174]

  const K16: seq<Word> := [
    0xe49b69c1, 0xefbe4786, 0x0fc19dc6, 0x240ca1cc, 0x2de92c6f, 0x4a7484aa, 0x5cb0a9dc, 0x76f988da,
    0x983e5152, 0xa831c66d, 0xb00327c8, 0xbf597fc7, 0xc6e00bf3, 0xd5a79147, 0x06ca6351, 0x14292967]

  const K32: seq<Word> := [
    0x27b70a85, 0x2e1b2138, 0x4d2c6dfc, 0x53380d13, 0x650a7354, 0x766a0abb, 0x81c2c92e, 0x92722c85,
    0xa2bfe8a1, 0xa81a664b, 0xc24b8b70, 0xc76c51a3, 0xd192e819, 0xd6990624, 0xf40e3585, 0x106aa070]

  const K48: seq<Word> := [
    0x19a4c116, 0x1e376c08, 0x2748774c, 0x34b0bcb5, 0x391c0cb3, 0x4ed8aa4a, 0x5b9cca4f, 0x682e6ff3,
    0x748f82ee, 0x78a5636f, 0x84c87814, 0x8cc70208, 0x90befffa, 0xa4506ceb, 0xbef9a3f7, 0xc67178f2]

  /** Eight words: a hash value, or the working variables a to h. */
  datatype Hash = Hash(a: Word, b: Word, c: Word, d: Word, e: Word, f: Word, g: Word, h: Word)

  const H0 := Hash(0x6a09e667, 0xbb67ae85, 0x3c6ef372, 0xa54ff53a,
                   0x510e527f, 0x9b05688c, 0x1f83d9ab, 0x5be0cd19)

  // ------------------------------------------------------------- computation

  /** Four bytes, most significant first. */
  function WordAt(block: seq<Byte>, i: nat): Word
    requires 4 * i + 3 < |block|
  {
    block[4 * i] as Word * 0x100_0000 + block[4 * i + 1] as Word * 0x1_0000 +
    block[4 * i + 2] as Word * 0x100 + block[4 * i + 3] as Word
  }

  /** The message schedule. */
  function W(block: seq<Byte>, t: nat): Word
    requires |block| == 64
  {
    if t < 16 then WordAt(block, t)
    else
      Add(Add(Add(SmallSigma1(W(block, t - 2)), W(block, t - 7)), SmallSigma0(W(block, t - 15))), W(block, t - 16))
  }

  function Round(v: Hash, k: Word, w: Word): Hash {
    var t1 := Add(Add(Add(Add(v.h, BigSigma1(v.e)), Ch(v.e, v.f, v.g)), k), w);
    var t2 := Add(BigSigma0(v.a), Maj(v.a, v.b, v.c));
    Hash(Add(t1, t2), v.a, v.b, v.c, Add(v.d, t1), v.e, v.f, v.g)
  }

  lemma KLength()
    ensures |K| == 64
  {
  }

  function Rounds(v: Hash, block: seq<Byte>, t: nat): Hash
    requires |block| == 64 && t <= |K|
  {
    if t == 0 then v else Round(Rounds(v, block, t - 1), K[t - 1], W(block, t - 1))
  }

  function Plus(x: Hash, y: Hash): Hash {
    Hash(Add(x.a, y.a), Add(x.b, y.b), Add(x.c, y.c), Add(x.d, y.d),
         Add(x.e, y.e), Add(x.f, y.f), Add(x.g, y.g), Add(x.h, y.h))
  }

  function Compressed(h: Hash, block: seq<Byte>): Hash
    requires |block| == 64
  {
    Plus(h, Rounds(h, block, |K|))
  }

  /** The hash value after all the blocks of `m`. */
  function Chained(m: seq<Byte>): Hash
    requires |m| % 64 == 0
  {
    if m == [] then H0 else Compressed(Chained(m[..|m| - 64]), m[|m| - 64..])
  }

  // ----------------------------------------------------------------- padding

  function Zeros(k: nat): (s: seq<Byte>)
    ensures |s| == k
  {
    seq(k, _ => 0)
  }

  /** Bytes of zeros that bring `n` bytes and the byte 0x80 to 56 modulo 64. */
  function ZeroCount(n: nat): nat {
    (55 - n) % 64
  }

  /** The bit count is kept in 64 bits. */
  const WRAP: nat := 0x1_0000_0000_0000_0000

  /** The message, the byte 0x80, zeros, and the number of bits in 64 bits. */
  function Padded(m: seq<Byte>): seq<Byte> {
    m + [0x80] + Zeros(ZeroCount(|m|)) + BigEndian(8 * |m| % WRAP, 8)
  }

  /** Section 5.1.1 of FIPS 180-4: the padded message is the shortest run of whole blocks that
      has room for the message, one bit and the 64-bit length. */
  lemma PaddedShape(m: seq<Byte>)
    ensures |Padded(m)| % 64 == 0 && |m| + 9 <= |Padded(m)| < |m| + 9 + 64
    ensures Padded(m)[..|m|] == m && Padded(m)[|m|] == 0x80
    ensures forall i :: |m| < i < |Padded(m)| - 8 ==> Padded(m)[i] == 0
  {
    hide BigEndian;
    PaddedLength(|m|);
  }

  lemma PaddedLength(n: nat)
    ensures (n + 1 + ZeroCount(n) + 8) % 64 == 0 && ZeroCount(n) < 64
  {
    var q := (55 - n) / 64;
    assert n + 1 + ZeroCount(n) + 8 == 64 * (1 - q);
  }

  function Bytes(h: Hash): seq<Byte> {
    Octets(h.a) + Octets(h.b) + Octets(h.c) + Octets(h.d) + Octets(h.e) + Octets(h.f) + Octets(h.g) + Octets(h.h)
  }

  function Octets(w: Word): (s: seq<Byte>)
    ensures |s| == 4
  {
    [(w / 0x100_0000 % 256) as Byte, (w / 0x1_0000 % 256) as Byte, (w / 0x100 % 256) as Byte, (w % 256) as Byte]
  }

  function Digest(m: seq<Byte>): (d: seq<Byte>)
    ensures |d| == 32
  {
    PaddedShape(m);
    Bytes(Chained(Padded(m)))
  }

  lemma OneMoreBlock(m: seq<Byte>, block: seq<Byte>)
    requires |m| % 64 == 0 && |block| == 64
    ensures Chained(m + block) == Compressed(Chained(m), block)
  {
    hide Compressed;
    var n := m + block;
    assert n[..|n| - 64] == m && n[|n| - 64..] == block;
  }

  /** Section 6.2.2, step 4: each word of the hash value is increased, modulo 2^32, by
      the working variable that the 64 rounds, begun with that hash value, have left. */
  lemma HashValue(h: Hash, block: seq<Byte>)
    requires |block| == 64
    ensures var v, n := Rounds(h, block, |K|), Compressed(h, block);
            && IsSum(n.a, h.a, v.a) && IsSum(n.b, h.b, v.b) && IsSum(n.c, h.c, v.c) && IsSum(n.d, h.d, v.d)
            && IsSum(n.e, h.e, v.e) && IsSum(n.f, h.f, v.f) && IsSum(n.g, h.g, v.g) && IsSum(n.h, h.h, v.h)
  {
    hide Rounds, K;
  }

  predicate IsSum(n: Word, x: Word, y: Word) {
    n as int == (x as int + y as int) % 0x1_0000_0000
  }

  /** The last eight bytes spell the number of bits exactly for messages of fewer
      than 2^61 bytes, the longest FIPS 180-4 allows; beyond, the count wraps. */
  lemma LengthField(m: seq<Byte>)
    ensures var p := Padded(m);
            FromBigEndian(p[|p| - 8..]) == 8 * |m| <==> |m| < 0x2000_0000_0000_0000
  {
    hide BigEndian, FromBigEndian, Zeros, Pow256;
    var p, bits := Padded(m), 8 * |m| % WRAP;
    assert p[|p| - 8..] == BigEndian(bits, 8);
    Pow256Values();
    BigEndianInverse(bits, 8);
    Reduced(8 * |m|);
  }

  lemma Reduced(n: nat)
    ensures n % WRAP == n <==> n < WRAP
  {
  }

  /** No two of those messages are padded alike. */
  lemma PaddedInjective(m: seq<Byte>, n: seq<Byte>)
    requires |m| < 0x2000_0000_0000_0000 && |n| < 0x2000_0000_0000_0000 && Padded(m) == Padded(n)
    ensures m == n
  {
    hide BigEndian, FromBigEndian, Zeros;
    LengthField(m);
    LengthField(n);
    assert Padded(m)[..|m|] == m && Padded(n)[..|n|] == n;
  }
}
