/** The frame format of RFC 6455 as the client writes and reads it: what
    EncodeWsFrame produces, and what Read makes of a byte stream. */
module WsCodec {
  import opened Basics

  datatype Frame = Frame(fin: bool, opcode: Byte, payload: seq<Byte>)

  /** The largest payload Read accepts. */
  const MAX_PAYLOAD: nat := 64 * 1024 * 1024

  const TEXT: Byte := 0x1
  const BINARY: Byte := 0x2
  const PING: Byte := 0x9
  const PONG: Byte := 0xA

  // ------------------------------------------------------------------ encoding

  /** XOR with the repeated key; its own inverse. */
  function Masked(payload: seq<Byte>, key: seq<Byte>): seq<Byte>
    requires |key| == 4
  {
    seq(|payload|, i requires 0 <= i < |payload| => Xor(payload[i], key[i % 4]))
  }

  lemma MaskedTwice(payload: seq<Byte>, key: seq<Byte>)
    requires |key| == 4
    ensures Masked(Masked(payload, key), key) == payload
  {
    forall i | 0 <= i < |payload|
      ensures Masked(Masked(payload, key), key)[i] == payload[i]
    {
      XorTwice(payload[i], key[i % 4]);
    }
  }

  /** `b | 0x80`, `b & 0x80 != 0` and `b & 0x7F`. */
  function WithTop(b: Byte): Byte { if b < 0x80 then b + 0x80 else b }

  predicate Top(b: Byte) { b >= 0x80 }

  function Low(b: Byte): Byte { b % 0x80 }

  predicate GoodKey(key: Option<seq<Byte>>) {
    key.Some? ==> |key.value| == 4
  }

  function Marked(masked: bool, b: Byte): Byte {
    if masked then WithTop(b) else b
  }

  /** Section 5.2 of RFC 6455: seven bits of length, then sixteen, then sixty-four. */
  function LengthField(n: nat, masked: bool): seq<Byte> {
    if n < 126 then [Marked(masked, n as Byte)]
    else if n <= 0xFFFF then [Marked(masked, 126)] + BigEndian(n, 2)
    else [Marked(masked, 127)] + BigEndian(n, 8)
  }

  function Encode(opcode: Byte, payload: seq<Byte>, key: Option<seq<Byte>>): seq<Byte>
    requires GoodKey(key)
  {
    [WithTop(opcode)] + LengthField(|payload|, key.Some?) +
    (match key case None => payload case Some(k) => k + Masked(payload, k))
  }

  // ------------------------------------------------------------------ decoding

  datatype Parsed = Parsed(frame: Frame, used: nat) | NeedMore | TooLong

  function ExtLength(b: Byte): nat {
    if Low(b) == 126 then 2 else if Low(b) == 127 then 8 else 0
  }

  function KeyLength(b: Byte): nat {
    if Top(b) then 4 else 0
  }

  function PayloadLength(s: seq<Byte>): nat
    requires |s| >= 2 && |s| >= 2 + ExtLength(s[1])
  {
    if ExtLength(s[1]) == 0 then Low(s[1]) as nat else FromBigEndian(s[2..2 + ExtLength(s[1])])
  }

  /** The first frame of a byte stream. */
  function Parse(s: seq<Byte>): (p: Parsed)
    ensures p.Parsed? ==> 2 <= p.used <= |s|
  {
    if |s| < 2 || |s| < 2 + ExtLength(s[1]) then NeedMore
    else
      var n := PayloadLength(s);
      var start := 2 + ExtLength(s[1]) + KeyLength(s[1]);
      if n > MAX_PAYLOAD then TooLong
      else if |s| < start + n then NeedMore
      else
        var raw := s[start..start + n];
        var payload := if KeyLength(s[1]) == 0 then raw else Masked(raw, s[start - 4..start]);
        Parsed(Frame(Top(s[0]), s[0] % 16, payload), start + n)
  }

  // --------------------------------------------------------------- round trip

  /** What the length field alone tells the reader. */
  lemma LengthFieldReads(n: nat, key: Option<seq<Byte>>, b0: Byte, rest: seq<Byte>)
    requires n < Pow256(8)
    ensures var f := LengthField(n, key.Some?);
            var s := [b0] + f + rest;
            && |f| == 1 + ExtLength(s[1])
            && KeyLength(s[1]) == (if key.Some? then 4 else 0)
            && PayloadLength(s) == n
  {
    var s := [b0] + LengthField(n, key.Some?) + rest;
    Pow256Values();
    if n >= 126 {
      var k := if n <= 0xFFFF then 2 else 8;
      assert s[2..2 + k] == BigEndian(n, k);
      BigEndianInverse(n, k);
    }
  }

  lemma Slices(head: seq<Byte>, k: seq<Byte>, body: seq<Byte>, rest: seq<Byte>)
    ensures var s := head + k + body + rest;
            && s[|head|..|head| + |k|] == k
            && s[|head| + |k|..|head| + |k| + |body|] == body
  {
  }

  /** Parsing a frame cut into its parts. */
  lemma ParseParts(b0: Byte, f: seq<Byte>, k: seq<Byte>, raw: seq<Byte>, rest: seq<Byte>)
    requires var s := [b0] + f + (k + raw + rest);
             && |f| >= 1 && |f| == 1 + ExtLength(s[1])
             && |k| == KeyLength(s[1]) && PayloadLength(s) == |raw|
    ensures Parse([b0] + f + (k + raw + rest)) ==
            if |raw| > MAX_PAYLOAD then TooLong
            else Parsed(Frame(Top(b0), b0 % 16, if k == [] then raw else Masked(raw, k)),
                        1 + |f| + |k| + |raw|)
  {
    hide Masked, FromBigEndian;
    var s := [b0] + f + (k + raw + rest);
    assert s == [b0] + f + k + raw + rest;
    Slices([b0] + f, k, raw, rest);
    var start := 2 + ExtLength(s[1]) + KeyLength(s[1]);
    assert start == 1 + |f| + |k| && start + |raw| <= |s|;
    assert s[start..start + |raw|] == raw;
    if KeyLength(s[1]) == 4 {
      assert s[start - 4..start] == k;
    } else {
      assert k == [];
    }
  }

  /** Decoding an encoded frame gives back opcode, fin and payload and consumes
      exactly the frame, whatever follows; beyond the size bound, and only
      there, it is refused. */
  lemma RoundTrip(opcode: Byte, payload: seq<Byte>, key: Option<seq<Byte>>, rest: seq<Byte>)
    requires opcode < 16 && GoodKey(key) && |payload| < Pow256(8)
    ensures var e := Encode(opcode, payload, key);
            Parse(e + rest) ==
            if |payload| <= 67108864 then Parsed(Frame(true, opcode, payload), |e|) else TooLong
  {
    hide Parse, LengthField, PayloadLength, ExtLength, Masked;
    var b0 := WithTop(opcode);
    var f := LengthField(|payload|, key.Some?);
    var k := match key case None => [] case Some(k) => k;
    var raw := match key case None => payload case Some(k) => Masked(payload, k);
    MaskedSize(payload, key);
    assert Encode(opcode, payload, key) + rest == [b0] + f + (k + raw + rest);
    LengthFieldReads(|payload|, key, b0, k + raw + rest);
    ParseParts(b0, f, k, raw, rest);
    if key.Some? {
      MaskedTwice(payload, k);
    }
  }

  lemma MaskedSize(payload: seq<Byte>, key: Option<seq<Byte>>)
    requires GoodKey(key)
    ensures key.Some? ==> |Masked(payload, key.value)| == |payload|
  {
  }

  // ---------------------------------------------------- the bytes on the wire

  /** Two and eight bytes, most significant first. */
  lemma TwoBytes(n: nat)
    requires n < 0x1_0000
    ensures var s := BigEndian(n, 2); s[0] as nat * 256 + s[1] as nat == n
  {
    assert BigEndian(n, 2) == BigEndian(n / 256, 1) + [(n % 256) as Byte];
    assert BigEndian(n / 256, 1) == [(n / 256) as Byte];
  }

  function Horner(s: seq<Byte>): nat
    requires |s| == 8
  {
    ((((((s[0] as nat * 256 + s[1] as nat) * 256 + s[2] as nat) * 256 + s[3] as nat) * 256 + s[4] as nat) * 256
      + s[5] as nat) * 256 + s[6] as nat) * 256 + s[7] as nat
  }

  lemma EightBytes(n: nat)
    requires n < Pow256(8)
    ensures Horner(BigEndian(n, 8)) == n
  {
    BigEndianInverse(n, 8);
    var s := BigEndian(n, 8);
    Leading(s, 1);
    Leading(s, 2);
    Leading(s, 3);
    Leading(s, 4);
    Leading(s, 5);
    Leading(s, 6);
    Leading(s, 7);
    assert s[..8] == s && s[..1][..0] == [];
    assert FromBigEndian(s[..1]) == s[0] as nat;
  }

  lemma Leading(s: seq<Byte>, k: nat)
    requires k < |s|
    ensures FromBigEndian(s[..k + 1]) == FromBigEndian(s[..k]) * 256 + s[k] as nat
  {
    assert s[..k + 1][..k] == s[..k];
  }

  /** Section 5.2 of RFC 6455, byte by byte: fin and opcode, the mask bit with seven
      bits of length, the longer lengths most significant byte first, the key. */
  lemma WireFormat(opcode: Byte, payload: seq<Byte>, key: Option<seq<Byte>>)
    requires opcode < 16 && GoodKey(key) && |payload| < Pow256(8)
    ensures var e, n, m := Encode(opcode, payload, key), |payload|, if key.Some? then 128 else 0;
            && |e| >= 2 && e[0] == 128 + opcode
            && (n < 126 ==> |e| == 2 + |KeyBytes(key)| + n && e[1] as nat == m + n)
            && (126 <= n < 0x1_0000 ==>
                  && |e| == 4 + |KeyBytes(key)| + n && e[1] as nat == m + 126
                  && e[2] as nat * 256 + e[3] as nat == n)
            && (n >= 0x1_0000 ==>
                  && |e| == 10 + |KeyBytes(key)| + n && e[1] as nat == m + 127 && Horner(e[2..10]) == n)
  {
    hide BigEndian, Masked, Horner, Pow256;
    MaskedSize(payload, key);
    var n := |payload|;
    var rest := match key case None => payload case Some(k) => k + Masked(payload, k);
    if 126 <= n < 0x1_0000 {
      TwoBytes(n);
    } else if n >= 0x1_0000 {
      EightBytes(n);
      var e := Encode(opcode, payload, key);
      assert e[2..10] == BigEndian(n, 8);
    }
  }

  function KeyBytes(key: Option<seq<Byte>>): seq<Byte> {
    if key.Some? then key.value else []
  }

  /** Section 5.3 of RFC 6455: the key comes just before the payload, and payload
      byte i is XORed with key byte i modulo 4. */
  lemma MaskedPayload(opcode: Byte, payload: seq<Byte>, key: Option<seq<Byte>>)
    requires GoodKey(key)
    ensures var e := Encode(opcode, payload, key); var start := |e| - |payload|;
            && start >= |KeyBytes(key)| && e[start - |KeyBytes(key)|..start] == KeyBytes(key)
            && forall i :: 0 <= i < |payload| ==>
                 e[start + i] == if key.Some? then Xor(payload[i], key.value[i % 4]) else payload[i]
  {
    hide LengthField, Xor;
    MaskedSize(payload, key);
    var head := [WithTop(opcode)] + LengthField(|payload|, key.Some?);
    var e := Encode(opcode, payload, key);
    match key {
      case None =>
        assert e == head + payload;
      case Some(k) =>
        assert e == head + (k + Masked(payload, k));
        assert e[|head|..|head| + 4] == k;
        forall i | 0 <= i < |payload|
          ensures e[|head| + 4 + i] == Xor(payload[i], k[i % 4])
        {
          assert (k + Masked(payload, k))[4 + i] == Masked(payload, k)[i];
        }
    }
  }

  const HELLO: seq<Byte> := [0x48, 0x65, 0x6c, 0x6c, 0x6f]
  const HELLO_KEY: seq<Byte> := [0x37, 0xfa, 0x21, 0x3d]

  /** Bit `i` of a number. */
  function Bit(x: nat, i: nat): nat {
    if i == 0 then x % 2 else Bit(x / 2, i - 1)
  }

  /** Exclusive or works bit by bit. */
  lemma {:induction false} XorBit(a: nat, b: nat, n: nat, i: nat)
    requires i < n
    ensures Bit(XorBits(a, b, n), i) == (Bit(a, i) + Bit(b, i)) % 2
    decreases n
  {
    var q, d := XorBits(a / 2, b / 2, n - 1), (a + b) % 2;
    HalfAndBit(q, d);
    if i == 0 {
      SumBit(a, b);
    } else {
      XorBit(a / 2, b / 2, n - 1, i - 1);
    }
  }

  lemma SumBit(a: nat, b: nat)
    ensures (a % 2 + b % 2) % 2 == (a + b) % 2
  {
  }

  lemma HelloXor1()
    ensures Xor(0x48, 0x37) == 0x7f
  {
    assert XorBits(0x1, 0x0, 2) == 0x1;
    assert XorBits(0x4, 0x3, 4) == 0x7;
    assert XorBits(0x12, 0xd, 6) == 0x1f;
  }

  lemma HelloXor2()
    ensures Xor(0x65, 0xfa) == 0x9f
  {
    assert XorBits(0x1, 0x3, 2) == 0x2;
    assert XorBits(0x6, 0xf, 4) == 0x9;
    assert XorBits(0x19, 0x3e, 6) == 0x27;
  }

  lemma HelloXor3()
    ensures Xor(0x6c, 0x21) == 0x4d
  {
    assert XorBits(0x1, 0x0, 2) == 0x1;
    assert XorBits(0x6, 0x2, 4) == 0x4;
    assert XorBits(0x1b, 0x8, 6) == 0x13;
  }

  lemma HelloXor4()
    ensures Xor(0x6c, 0x3d) == 0x51
  {
    assert XorBits(0x1, 0x0, 2) == 0x1;
    assert XorBits(0x6, 0x3, 4) == 0x5;
    assert XorBits(0x1b, 0xf, 6) == 0x14;
  }

  lemma HelloXor5()
    ensures Xor(0x6f, 0x37) == 0x58
  {
    assert XorBits(0x1, 0x0, 2) == 0x1;
    assert XorBits(0x6, 0x3, 4) == 0x5;
    assert XorBits(0x1b, 0xd, 6) == 0x16;
  }

  /** The examples of section 5.7 of RFC 6455: a text frame with "Hello", as the
      server and as the client sends it. */
  lemma HelloFrames()
    ensures Encode(TEXT, HELLO, None) == [0x81, 0x05, 0x48, 0x65, 0x6c, 0x6c, 0x6f]
    ensures Encode(TEXT, HELLO, Some(HELLO_KEY)) ==
            [0x81, 0x85, 0x37, 0xfa, 0x21, 0x3d, 0x7f, 0x9f, 0x4d, 0x51, 0x58]
  {
    hide Xor;
    HelloXor1();
    HelloXor2();
    HelloXor3();
    HelloXor4();
    HelloXor5();
    assert Masked(HELLO, HELLO_KEY) == [0x7f, 0x9f, 0x4d, 0x51, 0x58];
  }

  /** The least number of extra length bytes that can say `n`. */
  function ExtraBytes(n: nat): nat {
    if n < 126 then 0 else if n <= 0xFFFF then 2 else 8
  }

  lemma EncodeSize(opcode: Byte, payload: seq<Byte>, key: Option<seq<Byte>>)
    requires GoodKey(key)
    ensures |Encode(opcode, payload, key)| ==
            2 + ExtraBytes(|payload|) + (if key.Some? then 4 else 0) + |payload|
  {
    hide Marked, BigEndian, Xor;
  }

  /** The length field is in its shortest form: no frame a reader would accept
      with the same payload, masked or not alike, is shorter. */
  lemma ShortestForm(s: seq<Byte>, key: Option<seq<Byte>>)
    requires Parse(s).Parsed? && GoodKey(key) && (key.Some? <==> KeyLength(s[1]) == 4)
    ensures |Encode(Parse(s).frame.opcode, Parse(s).frame.payload, key)| <= Parse(s).used
  {
    hide Encode;
    EncodeSize(Parse(s).frame.opcode, Parse(s).frame.payload, key);
    if ExtLength(s[1]) == 2 {
      Pow256Values();
      FromBigEndianBound(s[2..4]);
    }
  }

  // ----------------------------------------------------------- the C++ encoder

  /** `n >> (8 * i)`. */
  function ShiftBytes(n: nat, i: nat): nat {
    if i == 0 then n else ShiftBytes(n, i - 1) / 256
  }

  /** The length part of EncodeWsFrame. */
  method EncodeLength(len: nat, masked: bool) returns (field: seq<Byte>)
    ensures field == LengthField(len, masked)
  {
    if len < 126 {
      field := [Marked(masked, len as Byte)];
    } else if len <= 0xFFFF {
      field := [Marked(masked, 126)];
      field := field + [((len / 256) % 256) as Byte];
      field := field + [(len % 256) as Byte];
      assert BigEndian(len / 256, 1) == BigEndian(len / 256 / 256, 0) + [((len / 256) % 256) as Byte];
      assert BigEndian(len, 2) == BigEndian(len / 256, 1) + [(len % 256) as Byte];
    } else {
      field := [Marked(masked, 127)];
      var tail := EncodeEightBytes(len);
      field := field + tail;
    }
  }

  method EncodeEightBytes(len: nat) returns (tail: seq<Byte>)
    ensures tail == BigEndian(len, 8)
  {
    tail := [];
    var i := 7;
    while i >= 0
      invariant -1 <= i <= 7
      invariant tail == BigEndian(ShiftBytes(len, i + 1), 7 - i)
    {
      tail := tail + [(ShiftBytes(len, i) % 256) as Byte];
      i := i - 1;
    }
  }

  /** EncodeWsFrame, with the random mask key as a parameter. */
  method EncodeWsFrame(opcode: Byte, payload: seq<Byte>, key: Option<seq<Byte>>) returns (frame: seq<Byte>)
    requires GoodKey(key)
    ensures frame == Encode(opcode, payload, key)
  {
    frame := [WithTop(opcode)];
    var field := EncodeLength(|payload|, key.Some?);
    frame := frame + field;
    match key {
      case Some(k) =>
        frame := frame + k;
        ghost var head := frame;
        var i := 0;
        while i < |payload|
          invariant 0 <= i <= |payload|
          invariant frame == head + Masked(payload[..i], k)
        {
          frame := frame + [Xor(payload[i], k[i % 4])];
          assert Masked(payload[..i + 1], k) == Masked(payload[..i], k) + [Xor(payload[i], k[i % 4])];
          i := i + 1;
        }
        assert payload[..i] == payload;
      case None =>
        frame := frame + payload;
    }
  }
}
