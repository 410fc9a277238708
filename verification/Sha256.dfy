/** The streaming SHA-256 of usersig.cc. */
module Sha256 {
  import opened Basics
  import opened Fips180

  function Words(s: seq<Word>): Hash
    requires |s| == 8
  {
    Hash(s[0], s[1], s[2], s[3], s[4], s[5], s[6], s[7])
  }

  /** The schedule in the order of the code's additions. */
  lemma ScheduleTurn(block: seq<Byte>, t: nat)
    requires |block| == 64
    ensures t < 16 ==> W(block, t) == WordAt(block, t)
    ensures t >= 16 ==>
              W(block, t) == Add(Add(Add(W(block, t - 16), SmallSigma0(W(block, t - 15))), W(block, t - 7)),
                                 SmallSigma1(W(block, t - 2)))
  {
    hide WordAt, SmallSigma0, SmallSigma1, Add;
    if t >= 16 {
      AddOrder(W(block, t - 16), SmallSigma0(W(block, t - 15)), W(block, t - 7), SmallSigma1(W(block, t - 2)));
    }
  }

  lemma AddOrder(a: Word, b: Word, c: Word, d: Word)
    ensures Add(Add(Add(a, b), c), d) == Add(Add(Add(d, c), b), a)
  {
    hide Add;
    AddCommutes(Add(Add(a, b), c), d);
    AddCommutes(Add(a, b), c);
    AddAssociates(d, c, Add(a, b));
    AddCommutes(a, b);
    AddAssociates(Add(d, c), b, a);
  }

  lemma AddCommutes(a: Word, b: Word)
    ensures Add(a, b) == Add(b, a)
  {
  }

  lemma AddAssociates(a: Word, b: Word, c: Word)
    ensures Add(a, Add(b, c)) == Add(Add(a, b), c)
  {
  }

  lemma RoundsTurn(v: Hash, block: seq<Byte>, t: nat)
    requires |block| == 64 && t < |K|
    ensures Rounds(v, block, 0) == v
    ensures Rounds(v, block, t + 1) == Round(Rounds(v, block, t), K[t], W(block, t))
  {
    hide K, W, Round;
  }

  class Sha256 {
    const h: array<Word>
    const buf: array<Byte>
    var bufLen: nat
    var bitLen: nat              // modulo 2^64
    ghost var seen: seq<Byte>   // every byte absorbed so far

    ghost predicate Shape()
      reads this
    {
      h.Length == 8 && buf.Length == 64 && bufLen < 64 && |seen| % 64 == bufLen
    }

    /** The hash value of the whole blocks seen so far, the rest in the buffer. */
    ghost predicate Valid()
      reads this, h, buf
    {
      && Shape() && Words(h[..]) == Chained(seen[..|seen| - bufLen])
      && buf[..bufLen] == seen[|seen| - bufLen..]
    }

    ghost predicate Counted()
      reads this
    {
      bitLen == 8 * |seen| % WRAP
    }

    constructor ()
      ensures Valid() && Counted() && seen == [] && fresh(h) && fresh(buf)
    {
      h := new Word[] [0x6a09e667, 0xbb67ae85, 0x3c6ef372, 0xa54ff53a,
                       0x510e527f, 0x9b05688c, 0x1f83d9ab, 0x5be0cd19];
      buf := new Byte[64];
      bufLen, bitLen, seen := 0, 0, [];
    }

    method Schedule() returns (w: array<Word>)
      requires buf.Length == 64
      ensures fresh(w) && w.Length == 64 && forall t :: 0 <= t < 64 ==> w[t] == W(buf[..], t)
    {
      hide W, WordAt, SmallSigma0, SmallSigma1, Add;
      w := new Word[64];
      ghost var block := buf[..];
      for i := 0 to 16
        invariant buf[..] == block
        invariant forall t :: 0 <= t < i ==> w[t] == W(block, t)
      {
        ScheduleTurn(block, i);
        w[i] := WordAt(buf[..], i);
      }
      for i := 16 to 64
        invariant buf[..] == block
        invariant forall t :: 0 <= t < i ==> w[t] == W(block, t)
      {
        ScheduleTurn(block, i);
        var s0 := SmallSigma0(w[i - 15]);
        var s1 := SmallSigma1(w[i - 2]);
        w[i] := Add(Add(Add(w[i - 16], s0), w[i - 7]), s1);
      }
    }

    /** The 64 rounds on the working variables. */
    method RunRounds(w: array<Word>, v: Hash) returns (r: Hash)
      requires buf.Length == 64 && w.Length == 64 && forall t :: 0 <= t < 64 ==> w[t] == W(buf[..], t)
      ensures r == Rounds(v, buf[..], |K|)
    {
      hide K, W, Ch, Maj, BigSigma0, BigSigma1, Rounds, Add;
      KLength();
      ghost var block := buf[..];
      var a, b, c, d, e, f, g, h := v.a, v.b, v.c, v.d, v.e, v.f, v.g, v.h;
      RoundsTurn(v, block, 0);
      for i := 0 to 64
        invariant Hash(a, b, c, d, e, f, g, h) == Rounds(v, block, i)
      {
        RoundsTurn(v, block, i);
        var s1 := BigSigma1(e);
        var ch := Ch(e, f, g);
        var temp1 := Add(Add(Add(Add(h, s1), ch), K[i]), w[i]);
        var s0 := BigSigma0(a);
        var maj := Maj(a, b, c);
        var temp2 := Add(s0, maj);
        h := g;
        g := f;
        f := e;
        e := Add(d, temp1);
        d := c;
        c := b;
        b := a;
        a := Add(temp1, temp2);
      }
      r := Hash(a, b, c, d, e, f, g, h);
    }

    /** One block, taken from the buffer, into the hash value. */
    method Compress()
      requires h.Length == 8 && buf.Length == 64
      modifies h
      ensures Words(h[..]) == Compressed(old(Words(h[..])), buf[..])
    {
      hide K, Rounds, W, Add;
      var w := Schedule();
      var r := RunRounds(w, Words(h[..]));
      h[0] := Add(h[0], r.a);
      h[1] := Add(h[1], r.b);
      h[2] := Add(h[2], r.c);
      h[3] := Add(h[3], r.d);
      h[4] := Add(h[4], r.e);
      h[5] := Add(h[5], r.f);
      h[6] := Add(h[6], r.g);
      h[7] := Add(h[7], r.h);
    }

    /** memcpy into the buffer. */
    method CopyIn(data: seq<Byte>, off: nat, take: nat)
      requires buf.Length == 64 && bufLen + take <= 64 && off + take <= |data|
      modifies buf
      ensures buf[..bufLen] == old(buf[..bufLen])
      ensures buf[bufLen..bufLen + take] == data[off..off + take]
    {
      for i := 0 to take
        invariant forall j :: 0 <= j < bufLen ==> buf[j] == old(buf[j])
        invariant forall p :: bufLen <= p < bufLen + i ==> buf[p] == data[off + (p - bufLen)]
      {
        buf[bufLen + i] := data[off + i];
      }
    }

    /** One turn of the loop: at most what fits in the buffer. */
    method Absorb(data: seq<Byte>, off: nat, take: nat)
      requires Valid() && off + take <= |data| && 0 < take <= 64 - bufLen
      modifies this`bufLen, this`seen, h, buf
      ensures Valid() && seen == old(seen) + data[off..off + take]
    {
      hide Chained, Compressed;
      ghost var s, n := seen, bufLen;
      ghost var t := s + data[off..off + take];
      CopyIn(data, off, take);
      bufLen := bufLen + take;
      BufferTail(s, n, data[off..off + take], buf[..bufLen]);
      if bufLen == 64 {
        Compress();
        bufLen := 0;
        OneMoreBlock(s[..|s| - n], buf[..]);
        assert buf[..64] == buf[..];
        assert t == s[..|s| - n] + buf[..] && t[..|t| - 0] == t;
      } else {
        assert |t| - bufLen == |s| - n;
      }
      seen := t;
    }

    /** UpdateNoCount: absorbs the bytes, block by block. */
    method UpdateNoCount(data: seq<Byte>)
      requires Valid()
      modifies this`bufLen, this`seen, h, buf
      ensures Valid() && seen == old(seen) + data
    {
      hide Chained, Words;
      var off := 0;
      ghost var before := seen;
      assert before + data[..0] == before;
      while off < |data|
        invariant 0 <= off <= |data| && Valid() && seen == before + data[..off]
      {
        var take := if |data| - off < 64 - bufLen then |data| - off else 64 - bufLen;
        Absorb(data, off, take);
        Stretch(before, data, off, take);
        off := off + take;
      }
      assert data[..off] == data;
    }

    /** Update: the same, counting the bits. */
    method Update(data: seq<Byte>)
      requires Valid()
      modifies this, h, buf
      ensures Valid() && seen == old(seen) + data
      ensures bitLen == (old(bitLen) + 8 * |data|) % WRAP && (old(Counted()) ==> Counted())
    {
      hide Chained, Words;
      CountMore(|seen|, |data|);
      bitLen := (bitLen + 8 * |data|) % WRAP;
      UpdateNoCount(data);
    }

    /** Final: the digest of everything counted so far. */
    method Final() returns (out: seq<Byte>)
      requires Valid() && Counted()
      modifies this, h, buf
      ensures out == Digest(old(seen))
    {
      hide Chained, Zeros, BigEndian, Bytes, Words, ZeroCount;
      ghost var m := seen;
      Update([0x80]);
      bitLen := (bitLen - 8) % WRAP;  // the padding byte does not count
      BitsBack(|m|);
      FillZeros(m);
      var bytes := LengthBytes();
      UpdateNoCount(bytes);
      assert seen == Padded(m);
      PaddedShape(m);
      assert seen[..|seen| - 0] == seen;
      out := Output();
    }

    method FillZeros(ghost m: seq<Byte>)
      requires Valid() && seen == m + [0x80]
      modifies this`bufLen, this`seen, h, buf
      ensures Valid() && seen == m + [0x80] + Zeros(ZeroCount(|m|))
    {
      hide Chained, Words, ZeroCount, Zeros, ToGo;
      ghost var k := 0;
      FirstZero(|m|, bufLen);
      ZerosTurn(m + [0x80], 0);
      while bufLen != 56
        invariant Valid() && seen == m + [0x80] + Zeros(k) && k + ToGo(bufLen) == ZeroCount(|m|)
        decreases ToGo(bufLen)
      {
        OneCloser(|seen|);
        UpdateNoCount([0]);
        ZerosTurn(m + [0x80], k);
        k := k + 1;
      }
      Arrived();
    }

    method LengthBytes() returns (bytes: seq<Byte>)
      modifies this`bitLen
      ensures bytes == BigEndian(old(bitLen), 8)
    {
      bytes := [];
      for i := 8 downto 0
        invariant BigEndian(bitLen, i) + bytes == BigEndian(old(bitLen), 8)
      {
        bytes := [(bitLen % 256) as Byte] + bytes;
        bitLen := bitLen / 256;
      }
    }

    method Output() returns (out: seq<Byte>)
      requires h.Length == 8
      ensures out == Bytes(Words(h[..]))
    {
      out := [];
      for i := 0 to 8
        invariant out == FirstBytes(h[..], i)
      {
        ghost var before := out;
        out := out + [(h[i] / 0x100_0000 % 256) as Byte];
        out := out + [(h[i] / 0x1_0000 % 256) as Byte];
        out := out + [(h[i] / 0x100 % 256) as Byte];
        out := out + [(h[i] % 256) as Byte];
        assert out == before + Octets(h[i]);
      }
      AllBytes(h[..]);
    }

    /** Hash: the whole message in one Update. */
    static method HashOf(data: seq<Byte>) returns (out: seq<Byte>)
      ensures out == Digest(data)
    {
      hide Digest, Chained, Words;
      var s := new Sha256();
      s.Update(data);
      assert [] + data == data;
      out := s.Final();
    }
  }

  function FirstBytes(s: seq<Word>, i: nat): seq<Byte>
    requires i <= |s|
  {
    if i == 0 then [] else FirstBytes(s, i - 1) + Octets(s[i - 1])
  }

  lemma AllBytes(s: seq<Word>)
    requires |s| == 8
    ensures FirstBytes(s, 8) == Bytes(Words(s))
  {
    hide Octets;
    assert FirstBytes(s, 1) == FirstBytes(s, 0) + Octets(s[0]) == Octets(s[0]);
    assert FirstBytes(s, 2) == Octets(s[0]) + Octets(s[1]);
    assert FirstBytes(s, 4) == FirstBytes(s, 2) + Octets(s[2]) + Octets(s[3]);
    assert FirstBytes(s, 6) == FirstBytes(s, 4) + Octets(s[4]) + Octets(s[5]);
    assert FirstBytes(s, 8) == FirstBytes(s, 6) + Octets(s[6]) + Octets(s[7]);
  }

  /** Zero bytes still missing when `b` bytes are buffered. */
  function ToGo(b: nat): nat
    requires b < 64
  {
    if b <= 56 then 56 - b else 120 - b
  }

  lemma ZerosTurn(m: seq<Byte>, k: nat)
    ensures m + Zeros(0) == m && m + Zeros(k) + [0] == m + Zeros(k + 1)
  {
  }

  lemma OneCloser(n: nat)
    requires n % 64 != 56
    ensures ToGo((n + 1) % 64) == ToGo(n % 64) - 1
  {
    assert (n + 1) % 64 == if n % 64 == 63 then 0 else n % 64 + 1;
  }

  lemma Arrived()
    ensures ToGo(56) == 0
  {
  }

  lemma FirstZero(n: nat, b: nat)
    requires b < 64 && b == (n + 1) % 64
    ensures ToGo(b) == ZeroCount(n)
  {
    var q := (n + 1) / 64;
    assert 55 - n == 64 * (-q) + (56 - b);
  }

  lemma CountMore(n: nat, k: nat)
    ensures (8 * n % WRAP + 8 * k) % WRAP == 8 * (n + k) % WRAP
  {
    var q := 8 * n / WRAP;
    ModShift(8 * n % WRAP + 8 * k, q);
  }

  lemma {:induction false} ModShift(x: nat, q: nat)
    ensures (x + q * WRAP) % WRAP == x % WRAP
  {
    if q > 0 {
      ModShift(x, q - 1);
      assert x + q * WRAP == x + (q - 1) * WRAP + WRAP;
    }
  }

  function Concat(chunks: seq<seq<Byte>>): seq<Byte> {
    if chunks == [] then [] else Concat(chunks[..|chunks| - 1]) + chunks[|chunks| - 1]
  }

  /** Any split of a message into calls of Update, the empty ones included, gives
      the digest of the whole message. */
  method HashChunks(chunks: seq<seq<Byte>>) returns (out: seq<Byte>)
    ensures out == Digest(Concat(chunks))
  {
    hide Digest, Chained, Words;
    var s := new Sha256();
    for i := 0 to |chunks|
      invariant s.Valid() && s.Counted() && s.seen == Concat(chunks[..i])
      invariant fresh(s) && fresh(s.h) && fresh(s.buf)
    {
      s.Update(chunks[i]);
      assert chunks[..i + 1][..i] == chunks[..i];
    }
    assert chunks[..|chunks|] == chunks;
    out := s.Final();
  }

  lemma BitsBack(n: nat)
    ensures ((8 * n % WRAP + 8) % WRAP - 8) % WRAP == 8 * n % WRAP
  {
  }

  lemma Stretch(before: seq<Byte>, data: seq<Byte>, off: nat, take: nat)
    requires off + take <= |data|
    ensures before + data[..off] + data[off..off + take] == before + data[..off + take]
  {
  }

  lemma BufferTail(s: seq<Byte>, n: nat, more: seq<Byte>, buffered: seq<Byte>)
    requires n <= |s| && |buffered| == n + |more|
    requires buffered[..n] == s[|s| - n..] && buffered[n..] == more
    ensures s + more == s[..|s| - n] + buffered
    ensures (s + more)[..|s| - n] == s[..|s| - n] && (s + more)[|s| - n..] == buffered
  {
    assert s == s[..|s| - n] + s[|s| - n..];
    assert buffered == buffered[..n] + buffered[n..];
  }
}
