/** Base64 (section 4 of RFC 4648) as usersig.cc writes and reads it, and the
    variant with `*`, `-` and `_` that goes into a UserSig. */
module Base64 {
  import opened Basics

  // ---------------------------------------------------------------- alphabet

  function Run(first: char, n: nat): (s: string)
    requires first as int + n < 0xD800
    ensures |s| == n
  {
    seq(n, i requires 0 <= i < n => first + i as char)
  }

  const ALPHABET: string := Run('A', 26) + Run('a', 26) + Run('0', 10) + "+/"

  /** The value of a character, or -1. */
  function Value(c: char): (v: int)
    ensures -1 <= v < 64
  {
    if 'A' <= c <= 'Z' then (c - 'A') as int
    else if 'a' <= c <= 'z' then (c - 'a') as int + 26
    else if '0' <= c <= '9' then (c - '0') as int + 52
    else if c == '+' then 62
    else if c == '/' then 63
    else -1
  }

  function Digit(v: int): char
    requires 0 <= v < 64
  {
    ALPHABET[v]
  }

  /** Value reads back the characters of the alphabet. */
  lemma DigitValue(v: int)
    requires 0 <= v < 64
    ensures Value(Digit(v)) == v && Digit(v) != '='
  {
  }

  // ---------------------------------------------------------------- encoding

  function Group1(a: Byte): string {
    [Digit((a / 4) as int), Digit((a % 4 * 16) as int), '=', '=']
  }

  function Group2(a: Byte, b: Byte): string {
    [Digit((a / 4) as int), Digit((a % 4 * 16 + b / 16) as int), Digit((b % 16 * 4) as int), '=']
  }

  function Group3(a: Byte, b: Byte, c: Byte): string {
    [Digit((a / 4) as int), Digit((a % 4 * 16 + b / 16) as int),
     Digit((b % 16 * 4 + c / 64) as int), Digit((c % 64) as int)]
  }

  /** The characters of the first three bytes, or of as many as there are. */
  function Head(data: seq<Byte>): string
    requires data != []
  {
    if |data| == 1 then Group1(data[0])
    else if |data| == 2 then Group2(data[0], data[1])
    else Group3(data[0], data[1], data[2])
  }

  function Encoded(data: seq<Byte>): string {
    if data == [] then "" else Head(data) + if |data| <= 3 then "" else Encoded(data[3..])
  }

  lemma EncodedTurn(data: seq<Byte>)
    ensures |data| == 0 ==> Encoded(data) == ""
    ensures |data| == 1 ==> Encoded(data) == Group1(data[0])
    ensures |data| == 2 ==> Encoded(data) == Group2(data[0], data[1])
    ensures |data| >= 3 ==> Encoded(data) == Group3(data[0], data[1], data[2]) + Encoded(data[3..])
  {
    if |data| in {1, 2} {
      assert Head(data) + "" == Head(data);
    } else if |data| == 3 {
      assert data[3..] == [];
    }
  }

  /** Section 4 of RFC 4648: four characters for every three bytes begun. */
  lemma {:induction false} EncodedLength(data: seq<Byte>)
    ensures |Encoded(data)| == (|data| + 2) / 3 * 4
    decreases |data|
  {
    hide Encoded, Digit;
    EncodedTurn(data);
    if |data| >= 3 {
      EncodedLength(data[3..]);
    }
  }

  lemma Divides(v: nat, d: nat, q: nat, r: nat)
    requires r < d && v == d * q + r
    ensures v / d == q && v % d == r
  {
    NextMultiple(d, v / d, q);
    NextMultiple(d, q, v / d);
  }

  lemma {:induction false} NextMultiple(d: nat, a: nat, b: nat)
    ensures a < b ==> d * a + d <= d * b
  {
    if a < b {
      NextMultiple(d, a, b - 1);
      assert d * b == d * (b - 1) + d;
    }
  }

  /** The digits of 24 bits are those of the three bytes they were put together
      from; missing bytes count as zero. */
  lemma Sextets(a: Byte, b: Byte, c: Byte)
    ensures var v := a as nat * 0x1_0000 + b as nat * 0x100 + c as nat;
            && v / 0x4_0000 % 64 == (a / 4) as nat
            && v / 0x1000 % 64 == (a % 4 * 16 + b / 16) as nat
            && v / 0x40 % 64 == (b % 16 * 4 + c / 64) as nat
            && v % 64 == (c % 64) as nat
  {
    var v := a as nat * 0x1_0000 + b as nat * 0x100 + c as nat;
    var w, x := (a / 4) as nat, (a % 4 * 16 + b / 16) as nat;
    var y, z := (b % 16 * 4 + c / 64) as nat, (c % 64) as nat;
    Divides(v, 0x4_0000, w, x * 0x1000 + y * 0x40 + z);
    Divides(v, 0x1000, w * 64 + x, y * 0x40 + z);
    Divides(w * 64 + x, 64, w, x);
    Divides(v, 0x40, (w * 64 + x) * 64 + y, z);
    Divides((w * 64 + x) * 64 + y, 64, w * 64 + x, y);
  }

  /** The 24 bits of the first three bytes; missing ones count as zero. */
  function Bits24(data: seq<Byte>): nat
    requires data != []
  {
    data[0] as nat * 0x1_0000 + (if |data| > 1 then data[1] as nat * 0x100 else 0) +
    (if |data| > 2 then data[2] as nat else 0)
  }

  lemma HeadDigits(data: seq<Byte>)
    requires data != []
    ensures var v := Bits24(data);
            Head(data) == [Digit(v / 0x4_0000 % 64), Digit(v / 0x1000 % 64),
                           if |data| > 1 then Digit(v / 0x40 % 64) else '=',
                           if |data| > 2 then Digit(v % 64) else '=']
  {
    hide Digit;
    var a := data[0];
    if |data| == 1 {
      Sextets(a, 0, 0);
    } else if |data| == 2 {
      Sextets(a, data[1], 0);
    } else {
      Sextets(a, data[1], data[2]);
    }
  }

  /** The body of the loop: the four characters for the bytes at `i`. */
  method EncodeGroup(data: seq<Byte>, i: nat) returns (out: string)
    requires i < |data|
    ensures out == Head(data[i..])
  {
    hide Digit, Head;
    var v := data[i] as nat * 0x1_0000;
    if i + 1 < |data| {
      v := v + data[i + 1] as nat * 0x100;
    }
    if i + 2 < |data| {
      v := v + data[i + 2] as nat;
    }
    assert v == Bits24(data[i..]);
    HeadDigits(data[i..]);
    out := [Digit(v / 0x4_0000 % 64)];
    out := out + [Digit(v / 0x1000 % 64)];
    out := out + [if i + 1 < |data| then Digit(v / 0x40 % 64) else '='];
    out := out + [if i + 2 < |data| then Digit(v % 64) else '='];
  }

  method Base64Encode(data: seq<Byte>) returns (out: string)
    ensures out == Encoded(data)
  {
    hide Head, Encoded, Left;
    LeftAtEnds(data);
    out := "";
    var i := 0;
    while i < |data|
      invariant 0 <= i && out + Left(data, i) == Encoded(data)
    {
      var chars := EncodeGroup(data, i);
      HeadFirst(data, i);
      Assoc(out, chars, Left(data, i + 3));
      out := out + chars;
      i := i + 3;
    }
    LeftOver(data, i, out);
  }

  /** What is still to be written from the byte at `i` on. */
  function Left(data: seq<Byte>, i: nat): string {
    if i < |data| then Encoded(data[i..]) else ""
  }

  lemma LeftAtEnds(data: seq<Byte>)
    ensures "" + Left(data, 0) == Encoded(data)
  {
    hide Head;
    assert data[0..] == data;
  }

  lemma LeftOver(data: seq<Byte>, i: nat, out: string)
    requires i >= |data|
    ensures out + Left(data, i) == out
  {
  }

  lemma HeadFirst(data: seq<Byte>, i: nat)
    requires i < |data|
    ensures Left(data, i) == Head(data[i..]) + Left(data, i + 3)
  {
    hide Head;
    if i + 3 < |data| {
      assert data[i..][3..] == data[i + 3..];
    }
  }

  // ---------------------------------------------------------------- decoding

  datatype Error = InvalidCharacter

  /** Bytes decoded so far and the bits left over, fewer than a byte. */
  datatype State = State(out: seq<Byte>, pending: nat, bits: nat)

  /** `1 << bits`. */
  function Unit(bits: nat): (u: nat)
    ensures u > 0
  {
    if bits == 0 then 1 else if bits == 2 then 4 else if bits == 4 then 16 else 64
  }

  predicate Sound(st: State) {
    st.bits in {0, 2, 4, 6} && st.pending < Unit(st.bits)
  }

  function Step(st: State, v: nat): (t: State)
    requires Sound(st) && v < 64
    ensures Sound(t)
  {
    var p := st.pending * 64 + v;
    if st.bits == 0 then State(st.out, p, 6)
    else
      var u := Unit(st.bits - 2);
      State(st.out + [(p / u) as Byte], p % u, st.bits - 2)
  }

  function DecodeFrom(st: State, s: string): Result<seq<Byte>, Error>
    requires Sound(st)
    decreases |s|
  {
    if s == "" || s[0] == '=' then Ok(st.out)
    else if Value(s[0]) < 0 then Err(InvalidCharacter)
    else DecodeFrom(Step(st, Value(s[0])), s[1..])
  }

  const START := State([], 0, 0)

  function Decoded(s: string): Result<seq<Byte>, Error> {
    DecodeFrom(START, s)
  }

  lemma Window(x: nat, m: int, p: nat, u: nat)
    requires u in {1, 4, 16} && p < 256 * u && x == 256 * u * m + p
    ensures x / u % 256 == p / u && x % u == p % u
  {
    assert m >= 0;
    var d, r := p / u, p % u;
    assert x == u * (256 * m + d) + r;
    Divides(x, u, 256 * m + d, r);
    Divides(256 * m + d, 256, m, d);
  }

  /** Only the pending bits of the accumulator reach the output: whatever lies
      above them, wrapped off or not, the next byte and the next pending bits are
      the same. */
  lemma AccumulatorWraps(acc: nat, st: State, v: nat)
    requires Sound(st) && v < 64 && acc % Unit(st.bits) == st.pending
    ensures var wrapped, unbounded, t := acc * 64 % 0x1_0000_0000 + v, acc * 64 + v, Step(st, v);
            && wrapped < 0x1_0000_0000
            && wrapped % Unit(t.bits) == unbounded % Unit(t.bits) == t.pending
            && (st.bits > 0 ==>
                  wrapped / Unit(t.bits) % 256 == unbounded / Unit(t.bits) % 256 == t.out[|st.out|] as nat)
  {
    var k := acc * 64 / 0x1_0000_0000;
    var wrapped := acc * 64 - 0x1_0000_0000 * k + v;
    Multiple(acc * 64 % 0x1_0000_0000, acc, k, v);
    var p := st.pending * 64 + v;
    if st.bits == 0 {
      Divides(wrapped, 64, acc - 0x400_0000 * k, v);
      Divides(acc * 64 + v, 64, acc, v);
    } else if st.bits == 2 {
      var q := acc / 4;
      Window(wrapped, q - 0x100_0000 * k, p, 1);
      Window(acc * 64 + v, q, p, 1);
    } else if st.bits == 4 {
      var q := acc / 16;
      Window(wrapped, q - 0x40_0000 * k, p, 4);
      Window(acc * 64 + v, q, p, 4);
    } else {
      var q := acc / 64;
      Window(wrapped, q - 0x10_0000 * k, p, 16);
      Window(acc * 64 + v, q, p, 16);
    }
  }

  /** The low six bits are free for the next digit. */
  lemma Multiple(shifted: nat, acc: nat, k: nat, v: nat)
    requires shifted == acc * 64 - 0x1_0000_0000 * k < 0x1_0000_0000 && v < 64
    ensures shifted + v < 0x1_0000_0000 && acc >= 0x400_0000 * k
  {
  }

  method Base64Decode(s: string) returns (r: Result<seq<Byte>, Error>)
    ensures r == Decoded(s)
  {
    hide Step, Value, Unit;
    var out: seq<Byte>, acc: nat, bits: nat := [], 0, 0;
    var i := 0;
    ghost var st := START;
    StartUnit();
    while i < |s|
      invariant 0 <= i <= |s| && acc < 0x1_0000_0000
      invariant Sound(st) && st.out == out && st.bits == bits && acc % Unit(bits) == st.pending
      invariant DecodeFrom(st, s[i..]) == Decoded(s)
    {
      if s[i] == '=' {
        break;
      }
      var v := Value(s[i]);
      if v < 0 {
        return Err(InvalidCharacter);
      }
      AccumulatorWraps(acc, st, v);
      StepBits(st, v);
      assert s[i..][1..] == s[i + 1..];
      acc := acc * 64 % 0x1_0000_0000 + v;
      bits := bits + 6;
      if bits >= 8 {
        bits := bits - 8;
        out := out + [(acc / Unit(bits) % 256) as Byte];
      }
      st := Step(st, v);
      i := i + 1;
    }
    r := Ok(out);
  }

  lemma StartUnit()
    ensures Unit(0) == 1
  {
  }

  lemma StepBits(st: State, v: nat)
    requires Sound(st) && v < 64
    ensures Step(st, v).bits == if st.bits < 2 then st.bits + 6 else st.bits - 2
    ensures st.bits < 2 ==> Step(st, v).out == st.out
    ensures st.bits >= 2 ==>
              |Step(st, v).out| == |st.out| + 1 && Step(st, v).out == st.out + [Step(st, v).out[|st.out|]]
  {
  }

  // --------------------------------------------------------------- round trip

  lemma DecodeDigit(st: State, v: nat, rest: string)
    requires Sound(st) && v < 64
    ensures DecodeFrom(st, [Digit(v)] + rest) == DecodeFrom(Step(st, v), rest)
  {
    DigitValue(v);
    assert ([Digit(v)] + rest)[1..] == rest;
  }

  /** Four digits decoded in a row. */
  lemma DecodeFour(st: State, w: nat, x: nat, y: nat, z: nat, rest: string)
    requires Sound(st) && w < 64 && x < 64 && y < 64 && z < 64
    ensures DecodeFrom(st, [Digit(w), Digit(x), Digit(y), Digit(z)] + rest) ==
            DecodeFrom(Step(Step(Step(Step(st, w), x), y), z), rest)
  {
    hide DecodeFrom, Digit, Step;
    var s1, s2 := Step(st, w), Step(Step(st, w), x);
    assert [Digit(w), Digit(x), Digit(y), Digit(z)] + rest ==
           [Digit(w)] + ([Digit(x)] + ([Digit(y)] + ([Digit(z)] + rest)));
    DecodeDigit(st, w, [Digit(x)] + ([Digit(y)] + ([Digit(z)] + rest)));
    DecodeDigit(s1, x, [Digit(y)] + ([Digit(z)] + rest));
    DecodeDigit(s2, y, [Digit(z)] + rest);
    DecodeDigit(Step(s2, y), z, rest);
  }

  /** The second, third and fourth digit of a group complete a byte each. */
  lemma SecondStep(out: seq<Byte>, a: Byte, b: Byte)
    ensures Step(State(out, (a / 4) as nat, 6), (a % 4 * 16 + b / 16) as nat) == State(out + [a], (b / 16) as nat, 4)
  {
    Divides((a / 4) as nat * 64 + (a % 4 * 16 + b / 16) as nat, 16, a as nat, (b / 16) as nat);
  }

  lemma ThirdStep(out: seq<Byte>, b: Byte, c: Byte)
    ensures Step(State(out, (b / 16) as nat, 4), (b % 16 * 4 + c / 64) as nat) == State(out + [b], (c / 64) as nat, 2)
  {
    Divides((b / 16) as nat * 64 + (b % 16 * 4 + c / 64) as nat, 4, b as nat, (c / 64) as nat);
  }

  lemma FourthStep(out: seq<Byte>, c: Byte)
    ensures Step(State(out, (c / 64) as nat, 2), (c % 64) as nat) == State(out + [c], 0, 0)
  {
  }

  lemma FourSteps(out: seq<Byte>, a: Byte, b: Byte, c: Byte)
    ensures var w, x, y := (a / 4) as nat, (a % 4 * 16 + b / 16) as nat, (b % 16 * 4 + c / 64) as nat;
            Step(Step(Step(Step(State(out, 0, 0), w), x), y), (c % 64) as nat) == State(out + [a] + [b] + [c], 0, 0)
  {
    assert Step(State(out, 0, 0), (a / 4) as nat) == State(out, (a / 4) as nat, 6);
    hide Step;
    SecondStep(out, a, b);
    ThirdStep(out + [a], b, c);
    FourthStep(out + [a] + [b], c);
  }

  lemma DecodeGroup(out: seq<Byte>, a: Byte, b: Byte, c: Byte, rest: string)
    ensures DecodeFrom(State(out, 0, 0), Group3(a, b, c) + rest) == DecodeFrom(State(out + [a, b, c], 0, 0), rest)
  {
    hide DecodeFrom, Digit, Step;
    var w, x, y, z := (a / 4) as nat, (a % 4 * 16 + b / 16) as nat, (b % 16 * 4 + c / 64) as nat, (c % 64) as nat;
    DecodeFour(State(out, 0, 0), w, x, y, z, rest);
    FourSteps(out, a, b, c);
    assert out + [a] + [b] + [c] == out + [a, b, c];
  }

  lemma DecodeTail1(out: seq<Byte>, a: Byte)
    ensures DecodeFrom(State(out, 0, 0), Group1(a)) == Ok(out + [a])
  {
    hide Digit;
    var w, x := (a / 4) as nat, (a % 4 * 16) as nat;
    var s1, s2 := State(out, w, 6), State(out + [a], 0, 4);
    assert Step(State(out, 0, 0), w) == s1 && Step(s1, x) == s2;
    assert Group1(a) == [Digit(w)] + ([Digit(x)] + "==");
    DecodeDigit(State(out, 0, 0), w, [Digit(x)] + "==");
    DecodeDigit(s1, x, "==");
  }

  lemma DecodeTail2(out: seq<Byte>, a: Byte, b: Byte)
    ensures DecodeFrom(State(out, 0, 0), Group2(a, b)) == Ok(out + [a, b])
  {
    hide Digit, DecodeFrom;
    var w, x, y := (a / 4) as nat, (a % 4 * 16 + b / 16) as nat, (b % 16 * 4) as nat;
    var s1, s2, s3 := State(out, w, 6), State(out + [a], x % 16, 4), State(out + [a] + [b], 0, 2);
    assert Step(State(out, 0, 0), w) == s1;
    assert Step(s1, x) == s2;
    assert Step(s2, y) == s3;
    assert Group2(a, b) == [Digit(w)] + ([Digit(x)] + ([Digit(y)] + "="));
    DecodeDigit(State(out, 0, 0), w, [Digit(x)] + ([Digit(y)] + "="));
    DecodeDigit(s1, x, [Digit(y)] + "=");
    DecodeDigit(s2, y, "=");
    DecodeEnd(s3, "=");
    assert out + [a] + [b] == out + [a, b];
  }

  lemma DecodeEnd(st: State, s: string)
    requires Sound(st) && (s == "" || s[0] == '=')
    ensures DecodeFrom(st, s) == Ok(st.out)
  {
  }

  lemma {:induction false} DecodeEncoded(out: seq<Byte>, data: seq<Byte>)
    ensures DecodeFrom(State(out, 0, 0), Encoded(data)) == Ok(out + data)
    decreases |data|
  {
    hide DecodeFrom, Encoded, Group1, Group2, Group3;
    EncodedTurn(data);
    if |data| == 0 {
      DecodeEnd(State(out, 0, 0), "");
      assert out + data == out;
    } else if |data| == 1 {
      DecodeTail1(out, data[0]);
      assert data == [data[0]];
    } else if |data| == 2 {
      DecodeTail2(out, data[0], data[1]);
      assert data == [data[0], data[1]];
    } else {
      var g := [data[0], data[1], data[2]];
      DecodeGroup(out, data[0], data[1], data[2], Encoded(data[3..]));
      DecodeEncoded(out + g, data[3..]);
      assert out + g + data[3..] == out + data;
    }
  }

  /** Decoding what was encoded gives back every byte string. */
  lemma RoundTrip(data: seq<Byte>)
    ensures Decoded(Encoded(data)) == Ok(data)
  {
    DecodeEncoded([], data);
    assert [] + data == data;
  }

  // ---------------------------------------------- what decoding accepts and means

  /** Decoding fails exactly on an invalid character before the first `=`. */
  predicate InvalidAt(s: string, i: nat) {
    i < |s| && Value(s[i]) < 0 && '=' !in s[..i + 1]
  }

  lemma {:induction false} DecodeFails(st: State, s: string)
    requires Sound(st)
    ensures DecodeFrom(st, s).Err? <==> exists i: nat :: InvalidAt(s, i)
    decreases |s|
  {
    hide Step, Value;
    if s != "" {
      if s[0] == '=' {
        forall i: nat
          ensures !InvalidAt(s, i)
        {
          if i < |s| {
            assert s[..i + 1][0] == '=';
          }
        }
      } else if Value(s[0]) < 0 {
        assert InvalidAt(s, 0);
      } else {
        DecodeFails(Step(st, Value(s[0])), s[1..]);
        forall i: nat
          ensures InvalidAt(s[1..], i) <==> InvalidAt(s, i + 1)
        {
          if i + 1 < |s| {
            assert s[..i + 2] == [s[0]] + s[1..][..i + 1];
          }
        }
        if exists i: nat :: InvalidAt(s, i) {
          var i: nat :| InvalidAt(s, i);
          assert InvalidAt(s[1..], i - 1);
        }
        if exists i: nat :: InvalidAt(s[1..], i) {
          var i: nat :| InvalidAt(s[1..], i);
          assert InvalidAt(s, i + 1);
        }
      }
    }
  }

  /** The number a byte string or a string of digits stands for. */
  function Number(s: seq<Byte>): nat {
    if s == [] then 0 else Number(s[..|s| - 1]) * 256 + s[|s| - 1] as nat
  }

  function SextetNumber(n: nat, s: string): nat
    requires forall i :: 0 <= i < |s| ==> Value(s[i]) >= 0
    decreases |s|
  {
    if s == "" then n else SextetNumber(n * 64 + Value(s[0]), s[1..])
  }

  /** A state stands for a number as well: its bytes, then its pending bits. */
  function Stands(st: State): nat
    requires Sound(st)
  {
    Number(st.out) * Unit(st.bits) + st.pending
  }

  lemma StepStands(st: State, v: nat)
    requires Sound(st) && v < 64
    ensures Stands(Step(st, v)) == Stands(st) * 64 + v
  {
    var t := Step(st, v);
    var p := st.pending * 64 + v;
    if st.bits > 0 {
      assert t.out[..|t.out| - 1] == st.out;
      var u := Unit(t.bits);
      assert p == p / u * u + p % u;
      var n := Number(st.out);
      if st.bits == 2 {
      } else if st.bits == 4 {
      } else {
      }
    }
  }

  /** Decoding n digits yields the 6n / 8 bytes of the number they spell in base
      64, its last 6n % 8 bits dropped. */
  lemma {:induction false} DecodeMeans(st: State, s: string)
    requires Sound(st) && forall i :: 0 <= i < |s| ==> Value(s[i]) >= 0
    ensures var r, total := DecodeFrom(st, s), 8 * |st.out| + st.bits + 6 * |s|;
            && r.Ok? && |r.value| == total / 8
            && Number(r.value) == SextetNumber(Stands(st), s) / Unit(total % 8)
    decreases |s|
  {
    hide Step, Value, Stands, Number;
    if s == "" {
      StandsBytes(st);
    } else {
      NoPadding(s[0]);
      StepBits(st, Value(s[0]));
      StepStands(st, Value(s[0]));
      DecodeMeans(Step(st, Value(s[0])), s[1..]);
    }
  }

  lemma NoPadding(c: char)
    requires Value(c) >= 0
    ensures c != '='
  {
  }

  lemma StandsBytes(st: State)
    requires Sound(st)
    ensures Stands(st) / Unit(st.bits) == Number(st.out)
    ensures (8 * |st.out| + st.bits) / 8 == |st.out| && (8 * |st.out| + st.bits) % 8 == st.bits
  {
    var n := Number(st.out);
    if st.bits == 0 {
    } else if st.bits == 2 {
    } else if st.bits == 4 {
    } else {
    }
  }

  // ------------------------------------------------------------ test vectors

  /** Section 10 of RFC 4648. */
  lemma Vectors()
    ensures Encoded([0x66]) == "Zg==" && Encoded([0x66, 0x6f]) == "Zm8="
    ensures Encoded([0x66, 0x6f, 0x6f]) == "Zm9v" && Encoded([0x66, 0x6f, 0x6f, 0x62, 0x61, 0x72]) == "Zm9vYmFy"
    ensures Encoded([0xfb, 0xff]) == "+/8=" && Mapped(ToUrl, Encoded([0xfb, 0xff])) == "*-8_"
  {
    hide Digit, Encoded;
    VectorDigits();
    EncodedTurn([0x66]);
    EncodedTurn([0x66, 0x6f]);
    EncodedTurn([0x66, 0x6f, 0x6f]);
    EncodedTurn([0x66, 0x6f, 0x6f, 0x62, 0x61, 0x72]);
    EncodedTurn([0x62, 0x61, 0x72]);
    EncodedTurn([0xfb, 0xff]);
    EncodedTurn([]);
    var foobar: seq<Byte> := [0x66, 0x6f, 0x6f, 0x62, 0x61, 0x72];
    assert foobar[3..] == [0x62, 0x61, 0x72] && foobar[3..][3..] == [];
    assert Encoded(foobar) == "Zm9v" + "YmFy" == "Zm9vYmFy";
  }

  lemma VectorDigits()
    ensures Digit(25) == 'Z' && Digit(32) == 'g' && Digit(38) == 'm' && Digit(60) == '8' && Digit(61) == '9'
    ensures Digit(47) == 'v' && Digit(24) == 'Y' && Digit(5) == 'F' && Digit(50) == 'y'
    ensures Digit(62) == '+' && Digit(63) == '/'
  {
  }

  // --------------------------------------------------------- UserSig variant

  function ToUrl(c: char): char {
    if c == '+' then '*' else if c == '/' then '-' else if c == '=' then '_' else c
  }

  function FromUrl(c: char): char {
    if c == '_' then '=' else if c == '-' then '/' else if c == '*' then '+' else c
  }

  function Mapped(f: char -> char, s: string): (t: string)
    ensures |t| == |s| && forall i :: 0 <= i < |s| ==> t[i] == f(s[i])
  {
    seq(|s|, i requires 0 <= i < |s| => f(s[i]))
  }

  method Base64UrlEncode(data: seq<Byte>) returns (out: string)
    ensures out == Mapped(ToUrl, Encoded(data))
  {
    out := Base64Encode(data);
    ghost var was := out;
    for i := 0 to |out|
      invariant |out| == |was|
      invariant forall j :: 0 <= j < |out| ==> out[j] == if j < i then ToUrl(was[j]) else was[j]
    {
      if out[i] == '+' {
        out := out[i := '*'];
      } else if out[i] == '/' {
        out := out[i := '-'];
      } else if out[i] == '=' {
        out := out[i := '_'];
      }
    }
  }

  method Base64UrlDecode(s: string) returns (r: Result<seq<Byte>, Error>)
    ensures r == Decoded(Mapped(FromUrl, s))
  {
    var form := s;
    for i := 0 to |form|
      invariant |form| == |s|
      invariant forall j :: 0 <= j < |s| ==> form[j] == if j < i then FromUrl(s[j]) else s[j]
    {
      if form[i] == '_' {
        form := form[i := '='];
      } else if form[i] == '-' {
        form := form[i := '/'];
      } else if form[i] == '*' {
        form := form[i := '+'];
      }
    }
    assert form == Mapped(FromUrl, s);
    r := Base64Decode(form);
  }

  predicate Base64Char(c: char) {
    Value(c) >= 0 || c == '='
  }

  lemma {:induction false} EncodedChars(data: seq<Byte>, i: nat)
    requires i < |Encoded(data)|
    ensures Base64Char(Encoded(data)[i])
    decreases |data|
  {
    hide Encoded, Digit;
    EncodedTurn(data);
    forall v | 0 <= v < 64
      ensures Value(Digit(v)) == v
    {
      DigitValue(v);
    }
    if |data| >= 3 && i >= 4 {
      EncodedChars(data[3..], i - 4);
    }
  }

  /** The UserSig variant reads back what it wrote. */
  lemma UrlRoundTrip(data: seq<Byte>)
    ensures Decoded(Mapped(FromUrl, Mapped(ToUrl, Encoded(data)))) == Ok(data)
  {
    hide Encoded, Decoded, Value;
    var s := Encoded(data);
    forall i | 0 <= i < |s|
      ensures FromUrl(ToUrl(s[i])) == s[i]
    {
      EncodedChars(data, i);
      UrlInverse(s[i]);
    }
    assert Mapped(FromUrl, Mapped(ToUrl, s)) == s;
    RoundTrip(data);
  }

  lemma UrlInverse(c: char)
    requires Base64Char(c)
    ensures FromUrl(ToUrl(c)) == c
  {
  }
}
