/** HMAC-SHA-256 (RFC 2104) as usersig.cc computes it. */
module Hmac {
  import opened Basics
  import opened Fips180
  import opened Sha256

  // -------------------------------------------------- section 2 of RFC 2104

  const BLOCK: nat := 64
  const IPAD: Byte := 0x36
  const OPAD: Byte := 0x5c

  /** The key, hashed first if it is longer than a block, filled up with zeros. */
  function KeyBlock(key: seq<Byte>): (k: seq<Byte>)
    ensures |k| == BLOCK
  {
    if |key| > BLOCK then Digest(key) + Zeros(32) else key + Zeros(BLOCK - |key|)
  }

  function XorAll(s: seq<Byte>, pad: Byte): (t: seq<Byte>)
    ensures |t| == |s|
  {
    seq(|s|, i requires 0 <= i < |s| => Xor(s[i], pad))
  }

  function Mac(key: seq<Byte>, text: seq<Byte>): seq<Byte> {
    Digest(XorAll(KeyBlock(key), OPAD) + Digest(XorAll(KeyBlock(key), IPAD) + text))
  }

  // ------------------------------------------------------------- the C++ code

  method FillKey(key: seq<Byte>) returns (block: array<Byte>)
    ensures fresh(block) && block[..] == KeyBlock(key)
  {
    hide Digest, Zeros;
    block := new Byte[BLOCK](_ => 0);
    var k := key;
    if |key| > BLOCK {
      k := Sha256.HashOf(key);
    }
    for i := 0 to |k|
      invariant forall j :: 0 <= j < BLOCK ==> block[j] == if j < i then k[j] else 0
    {
      block[i] := k[i];
    }
    AllZero(BLOCK - |k|);
    assert block[..] == k + Zeros(BLOCK - |k|);
  }

  lemma AllZero(k: nat)
    ensures forall j :: 0 <= j < k ==> Zeros(k)[j] == 0
  {
  }

  /** The key block with every byte XORed, then the text. */
  method Keyed(block: array<Byte>, pad: Byte, text: seq<Byte>) returns (s: seq<Byte>)
    requires block.Length == BLOCK
    ensures s == XorAll(block[..], pad) + text
  {
    hide Xor;
    var buffer := new Byte[BLOCK + |text|](_ => 0);
    for i := 0 to BLOCK
      invariant forall j :: 0 <= j < i ==> buffer[j] == Xor(block[j], pad)
    {
      buffer[i] := Xor(block[i], pad);
    }
    for i := 0 to |text|
      invariant forall j :: 0 <= j < BLOCK ==> buffer[j] == Xor(block[j], pad)
      invariant forall j :: 0 <= j < i ==> buffer[BLOCK + j] == text[j]
    {
      buffer[BLOCK + i] := text[i];
    }
    s := buffer[..];
    assert s[..BLOCK] == XorAll(block[..], pad) && s[BLOCK..] == text;
  }

  method HmacSha256(key: seq<Byte>, message: seq<Byte>) returns (out: seq<Byte>)
    ensures out == Mac(key, message)
  {
    hide Digest, KeyBlock, XorAll;
    var block := FillKey(key);
    var inner := Keyed(block, IPAD, message);
    var innerHash := Sha256.HashOf(inner);
    var outer := Keyed(block, OPAD, innerHash);
    out := Sha256.HashOf(outer);
  }

  /** Section 2 of RFC 2104, byte by byte: the key (or its digest) filled up with
      zeros, XORed with 0x36 before the text and with 0x5c before the inner digest. */
  lemma MacOfPads(key: seq<Byte>, text: seq<Byte>, inner: seq<Byte>, outer: seq<Byte>)
    requires |inner| == |outer| == 64
    requires forall i :: 0 <= i < 64 ==>
               var k := if |key| > 64 then Digest(key) else key;
               var b: Byte := if i < |k| then k[i] else 0;
               inner[i] == Xor(b, 0x36) && outer[i] == Xor(b, 0x5c)
    ensures Mac(key, text) == Digest(outer + Digest(inner + text))
  {
    hide Digest, Xor;
    AllZero(32);
    AllZero(if |key| > 64 then 0 else 64 - |key|);
    assert inner == XorAll(KeyBlock(key), IPAD);
    assert outer == XorAll(KeyBlock(key), OPAD);
  }

  /** A key longer than a block stands for its digest. */
  lemma LongKey(key: seq<Byte>, text: seq<Byte>)
    requires |key| > BLOCK
    ensures Mac(key, text) == Mac(Digest(key), text)
  {
    hide Digest, XorAll;
  }
}
