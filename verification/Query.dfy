/** The query string of signature_params.cc, written by QueryEscape and the two
    builders, and the reading of it by splitting and percent-decoding. */
module Query {
  import opened Basics

  // ---------------------------------------------------------------- escaping

  predicate Unreserved(c: char) {
    'A' <= c <= 'Z' || 'a' <= c <= 'z' || '0' <= c <= '9' || c in {'-', '_', '.', '~'}
  }

  function Hex(n: nat): char
    requires n < 16
  {
    "0123456789ABCDEF"[n]
  }

  function Escape(c: char): string
    requires c < 256 as char
  {
    if Unreserved(c) then [c] else if c == ' ' then "+" else ['%', Hex(c as int / 16), Hex(c as int % 16)]
  }

  function Escaped(s: ByteString): string {
    if s == "" then "" else Escape(s[0]) + Escaped(s[1..])
  }

  lemma EscapedTurn(s: ByteString, i: nat, before: string)
    requires i < |s|
    ensures before + Escaped(s[i..]) == before + Escape(s[i]) + Escaped(s[i + 1..])
  {
    assert s[i..][1..] == s[i + 1..];
    Assoc(before, Escape(s[i]), Escaped(s[i + 1..]));
  }

  method QueryEscape(s: ByteString) returns (out: string)
    ensures out == Escaped(s)
  {
    hide Escaped, Hex;
    out := "";
    AllLeft(s);
    for i := 0 to |s|
      invariant out + Escaped(s[i..]) == Escaped(s)
    {
      var c := s[i];
      EscapedTurn(s, i, out);
      if Unreserved(c) {
        out := out + [c];
      } else if c == ' ' {
        out := out + "+";
      } else {
        var hi, lo := Hex(c as int / 16), Hex(c as int % 16);
        assert out + ['%'] + [hi] + [lo] == out + ['%', hi, lo];
        out := out + ['%'];
        out := out + [hi];
        out := out + [lo];
      }
    }
    AllLeft(s[|s|..]);
    assert out + "" == out;
  }

  lemma AllLeft(s: ByteString)
    ensures s[0..] == s && "" + Escaped(s) == Escaped(s)
    ensures s == "" ==> Escaped(s) == ""
  {
  }

  /** A percent-escape the decoder recognises at the front of `s`. */
  predicate StartsEscape(s: string) {
    |s| >= 3 && s[0] == '%' && HexValue(s[1]) >= 0 && HexValue(s[2]) >= 0
  }

  function PercentDecode(s: string): string {
    if s == "" then ""
    else if s[0] == '+' then " " + PercentDecode(s[1..])
    else if StartsEscape(s) then [(HexValue(s[1]) * 16 + HexValue(s[2])) as char] + PercentDecode(s[3..])
    else [s[0]] + PercentDecode(s[1..])
  }

  lemma HexInverse(n: nat)
    requires n < 16
    ensures HexValue(Hex(n)) == n
  {
  }

  lemma DecodeOne(c: char, rest: string)
    requires c < 256 as char
    ensures PercentDecode(Escape(c) + rest) == [c] + PercentDecode(rest)
  {
    var s := Escape(c) + rest;
    if Unreserved(c) || c == ' ' {
      assert s[1..] == rest;
    } else {
      HexInverse(c as int / 16);
      HexInverse(c as int % 16);
      assert s[3..] == rest;
    }
  }

  /** Percent-decoding undoes QueryEscape on every byte string. */
  lemma {:induction false} EscapeRoundTrip(s: ByteString)
    ensures PercentDecode(Escaped(s)) == s
  {
    if s != "" {
      EscapeRoundTrip(s[1..]);
      DecodeOne(s[0], Escaped(s[1..]));
    }
  }

  /** A blank becomes a plus, and a reserved byte two upper-case digits. */
  lemma EscapeExample()
    ensures Escaped(" &") == "+%26" && Escaped("=/") == "%3D%2F" && Escaped("+\U{FF}") == "%2B%FF"
    ensures Escaped("-_") == "-_" && Escaped(".~") == ".~" && Escaped("%:") == "%25%3A"
  {
    hide Escaped;
    TwoEscaped(' ', '&');
    TwoEscaped('=', '/');
    TwoEscaped('+', '\U{FF}');
    TwoEscaped('-', '_');
    TwoEscaped('.', '~');
    TwoEscaped('%', ':');
  }

  lemma TwoEscaped(c: char, d: char)
    requires c < 256 as char && d < 256 as char
    ensures Escaped([c, d]) == Escape(c) + Escape(d)
  {
    hide Escape;
    assert [c, d][1..] == [d] && [d][1..] == "";
    assert Escaped([d]) == Escape(d) + "";
    assert Escape(d) + "" == Escape(d);
  }

  predicate Separator(c: char) { c == '&' || c == '=' }

  predicate NoSeparator(s: string) {
    forall i :: 0 <= i < |s| ==> !Separator(s[i])
  }

  lemma HexIsNoSeparator(n: nat)
    requires n < 16
    ensures !Separator(Hex(n))
  {
    HexInverse(n);
  }

  /** No separator in what QueryEscape writes. */
  lemma {:induction false} EscapedHasNoSeparator(s: ByteString)
    ensures NoSeparator(Escaped(s))
  {
    if s != "" {
      EscapedHasNoSeparator(s[1..]);
      HexIsNoSeparator(s[0] as int / 16);
      HexIsNoSeparator(s[0] as int % 16);
      assert NoSeparator(Escape(s[0]));
    }
  }

  // -------------------------------------------------------------- std::map

  datatype Entry = Entry(key: ByteString, value: ByteString)

  /** The order of std::string. */
  predicate Less(a: string, b: string) {
    b != "" && (a == "" || a[0] < b[0] || (a[0] == b[0] && Less(a[1..], b[1..])))
  }

  /** A proper prefix, or smaller at the first difference. */
  lemma {:induction false} LessMeans(a: string, b: string)
    ensures Less(a, b) <==> a < b || exists k :: 0 <= k < |a| && k < |b| && a[..k] == b[..k] && a[k] < b[k]
  {
    if a != "" && b != "" && a[0] == b[0] {
      var c, d := a[1..], b[1..];
      LessMeans(c, d);
      assert a == [a[0]] + c && b == [a[0]] + d;
      if k :| 0 <= k < |c| && k < |d| && c[..k] == d[..k] && c[k] < d[k] {
        assert a[..k + 1] == [a[0]] + c[..k] && b[..k + 1] == [a[0]] + d[..k] && a[k + 1] < b[k + 1];
      }
      if k :| 0 <= k < |a| && k < |b| && a[..k] == b[..k] && a[k] < b[k] {
        assert c[..k - 1] == a[..k][1..] && d[..k - 1] == b[..k][1..] && c[k - 1] < d[k - 1];
      }
    } else if a != "" && b != "" {
      assert a[..0] == b[..0];
    }
  }

  lemma {:induction false} LessTransitive(a: string, b: string, c: string)
    requires Less(a, b) && Less(b, c)
    ensures Less(a, c)
  {
    if a != "" && a[0] == b[0] && b[0] == c[0] {
      LessTransitive(a[1..], b[1..], c[1..]);
    }
  }

  lemma {:induction false} LessTotal(a: string, b: string)
    ensures !Less(a, a) && (Less(a, b) || a == b || Less(b, a))
  {
    if a != "" {
      LessTotal(a[1..], if b != "" then b[1..] else b);
    }
  }

  /** A std::map<std::string, std::string>: its entries in ascending order. */
  predicate Ascending(m: seq<Entry>) {
    forall i, j :: 0 <= i < j < |m| ==> Less(m[i].key, m[j].key)
  }

  function Get(m: seq<Entry>, k: ByteString): Option<ByteString> {
    if m == [] then None else if m[0].key == k then Some(m[0].value) else Get(m[1..], k)
  }

  /** `m[k] = v`. */
  function Put(m: seq<Entry>, k: ByteString, v: ByteString): seq<Entry> {
    if m == [] || Less(k, m[0].key) then [Entry(k, v)] + m
    else if m[0].key == k then [Entry(k, v)] + m[1..]
    else [m[0]] + Put(m[1..], k, v)
  }

  predicate Below(k: string, m: seq<Entry>) {
    forall i :: 0 <= i < |m| ==> Less(k, m[i].key)
  }

  lemma AscendingCons(e: Entry, m: seq<Entry>)
    ensures Ascending([e] + m) <==> Ascending(m) && Below(e.key, m)
  {
    var n := [e] + m;
    if Ascending(n) {
      forall i, j | 0 <= i < j < |m|
        ensures Less(m[i].key, m[j].key)
      {
        assert n[i + 1] == m[i] && n[j + 1] == m[j];
      }
      forall i | 0 <= i < |m|
        ensures Less(e.key, m[i].key)
      {
        assert n[0] == e && n[i + 1] == m[i];
      }
    }
  }

  /** An assignment keeps the order, sets the key and leaves every other alone. */
  lemma {:induction false} PutKeeps(m: seq<Entry>, k: ByteString, v: ByteString)
    requires Ascending(m)
    ensures Ascending(Put(m, k, v))
    ensures forall j: string :: Less(j, k) && Below(j, m) ==> Below(j, Put(m, k, v))
    decreases |m|
  {
    if m == [] {
      assert Put(m, k, v) == [Entry(k, v)];
    } else {
      assert m == [m[0]] + m[1..];
      AscendingCons(m[0], m[1..]);
      if Less(k, m[0].key) {
        BelowAll(k, m);
        AscendingCons(Entry(k, v), m);
      } else if m[0].key == k {
        AscendingCons(Entry(k, v), m[1..]);
      } else {
        LessTotal(k, m[0].key);
        PutKeeps(m[1..], k, v);
        AscendingCons(m[0], Put(m[1..], k, v));
      }
    }
  }

  lemma BelowAll(k: string, m: seq<Entry>)
    requires m != [] && Ascending(m) && Less(k, m[0].key)
    ensures Below(k, m)
  {
    forall i | 0 <= i < |m|
      ensures Less(k, m[i].key)
    {
      if i > 0 {
        LessTransitive(k, m[0].key, m[i].key);
      }
    }
  }

  lemma {:induction false} GetBelow(m: seq<Entry>, k: ByteString)
    requires Below(k, m)
    ensures Get(m, k) == None
    decreases |m|
  {
    if m != [] {
      LessTotal(k, k);
      GetBelow(m[1..], k);
    }
  }

  lemma {:induction false} PutGet(m: seq<Entry>, k: ByteString, v: ByteString, j: ByteString)
    requires Ascending(m)
    ensures Get(Put(m, k, v), j) == if j == k then Some(v) else Get(m, j)
    ensures |Put(m, k, v)| == |m| + if Get(m, k) == None then 1 else 0
    decreases |m|
  {
    if m != [] {
      assert m == [m[0]] + m[1..];
      AscendingCons(m[0], m[1..]);
      if Less(k, m[0].key) {
        BelowAll(k, m);
        GetBelow(m, k);
        assert ([Entry(k, v)] + m)[1..] == m;
      } else if m[0].key == k {
        assert ([Entry(k, v)] + m[1..])[1..] == m[1..];
      } else {
        PutGet(m[1..], k, v, j);
        assert ([m[0]] + Put(m[1..], k, v))[1..] == Put(m[1..], k, v);
      }
    } else {
      assert [Entry(k, v)][1..] == [];
    }
  }

  // ---------------------------------------------------------------- building

  function Pair(e: Entry): string {
    e.key + "=" + Escaped(e.value)
  }

  /** What is still to be written after `i` entries. */
  function Rest(m: seq<Entry>, i: nat): string
    requires i <= |m|
    decreases |m| - i
  {
    if i == |m| then "" else (if i == 0 then "" else "&") + Pair(m[i]) + Rest(m, i + 1)
  }

  lemma RestExample()
    ensures Rest([Entry("a", "=&"), Entry("b", " ")], 0) == "a=%3D%26&b=+"
  {
    hide Escape;
    TwoEscaped('=', '&');
    TwoEscaped(' ', '~');
    EscapeParts();
    var m := [Entry("a", "=&"), Entry("b", " ")];
    assert Escaped(" ") == Escape(' ') + "" == "+";
    assert Rest(m, 2) == "" && Rest(m, 1) == "&b=+";
  }

  lemma EscapeParts()
    ensures Escape('=') == "%3D" && Escape('&') == "%26" && Escape(' ') == "+"
  {
  }

  /** The loop of BuildQueryString over the entries. */
  method BuildQuery(m: seq<Entry>) returns (out: string)
    ensures out == Rest(m, 0)
  {
    hide Escaped;
    out := "";
    for i := 0 to |m|
      invariant i > 0 <==> out != ""
      invariant out + Rest(m, i) == Rest(m, 0)
    {
      var e := m[i];
      ghost var before := out;
      ghost var sep := if out == "" then "" else "&";
      if out != "" {
        out := out + "&";
      }
      out := out + e.key;
      out := out + "=";
      var v := QueryEscape(e.value);
      out := out + v;
      PairAppended(before, sep, e);
      Assoc(before, sep + Pair(e), Rest(m, i + 1));
    }
    assert out + "" == out;
  }

  lemma PairAppended(before: string, sep: string, e: Entry)
    ensures before + sep + e.key + "=" + Escaped(e.value) == before + (sep + Pair(e))
    ensures before + (sep + Pair(e)) != ""
  {
    hide Escaped;
    var v := Escaped(e.value);
    Assoc(before, sep, Pair(e));
    Assoc(before + sep, e.key + "=", v);
    Assoc(before + sep, e.key, "=");
  }

  // ----------------------------------------------------------------- parsing

  function Split(s: string, sep: char): (p: seq<string>)
    ensures p != []
  {
    if s == "" then [""]
    else
      var p := Split(s[1..], sep);
      if s[0] == sep then [""] + p else [[s[0]] + p[0]] + p[1..]
  }

  lemma {:induction false} SplitPiece(a: string, sep: char, rest: string)
    requires sep !in a
    ensures Split(a, sep) == [a] && Split(a + [sep] + rest, sep) == [a] + Split(rest, sep)
  {
    if a == "" {
      assert a + [sep] + rest == [sep] + rest;
    } else {
      SplitPiece(a[1..], sep, rest);
      assert (a + [sep] + rest)[1..] == a[1..] + [sep] + rest;
      assert a == [a[0]] + a[1..];
    }
  }

  /** `k=v`, cut at the first `=`; without one the value is empty. */
  function Cut(s: string): (string, string) {
    if s == "" then ("", "")
    else if s[0] == '=' then ("", s[1..])
    else var p := Cut(s[1..]); ([s[0]] + p.0, p.1)
  }

  lemma {:induction false} CutPair(k: string, v: string)
    requires '=' !in k
    ensures Cut(k + "=" + v) == (k, v)
  {
    if k == "" {
      assert k + "=" + v == "=" + v;
    } else {
      CutPair(k[1..], v);
      assert (k + "=" + v)[1..] == k[1..] + "=" + v;
      assert k == [k[0]] + k[1..];
    }
  }

  function ReadPair(s: string): (string, string) {
    var p := Cut(s);
    (PercentDecode(p.0), PercentDecode(p.1))
  }

  function ReadPairs(ps: seq<string>): seq<(string, string)> {
    if ps == [] then [] else [ReadPair(ps[0])] + ReadPairs(ps[1..])
  }

  function ParseQuery(s: string): seq<(string, string)> {
    ReadPairs(Split(s, '&'))
  }

  function Pairs(m: seq<Entry>): seq<(string, string)> {
    if m == [] then [] else [(m[0].key, m[0].value)] + Pairs(m[1..])
  }

  /** Keys go into the string as they are, so they must need no escaping. */
  predicate PlainKey(k: string) {
    forall i :: 0 <= i < |k| ==> Unreserved(k[i])
  }

  predicate PlainKeys(m: seq<Entry>) {
    forall i :: 0 <= i < |m| ==> PlainKey(m[i].key)
  }

  lemma {:induction false} PlainEscaped(k: ByteString)
    requires PlainKey(k)
    ensures Escaped(k) == k
  {
    if k != "" {
      PlainEscaped(k[1..]);
    }
  }

  lemma PairReads(e: Entry)
    requires PlainKey(e.key)
    ensures '&' !in Pair(e) && ReadPair(Pair(e)) == (e.key, e.value)
  {
    hide Escaped, Cut, PercentDecode;
    EscapedHasNoSeparator(e.value);
    EscapeRoundTrip(e.value);
    PlainEscaped(e.key);
    EscapeRoundTrip(e.key);
    EscapedHasNoSeparator(e.key);
    CutPair(e.key, Escaped(e.value));
  }

  /** Splitting a built query at `&` and `=` and decoding gives back the map, key by
      key in ascending order, whatever bytes the values hold. */
  lemma {:induction false} ParseRest(m: seq<Entry>, i: nat)
    requires i < |m| && PlainKeys(m)
    ensures ParseQuery(if i == 0 then Rest(m, i) else Rest(m, i)[1..]) == Pairs(m[i..])
    decreases |m| - i
  {
    hide Escaped, ReadPair, Pair, Split;
    PairReads(m[i]);
    var p := Pair(m[i]);
    PairsTurn(m, i);
    Leading(p, Rest(m, i + 1));
    if i + 1 == |m| {
      assert p + "" == p;
      SplitPiece(p, '&', "");
      OnePair(p);
    } else {
      var rest := Rest(m, i + 1);
      assert rest == ['&'] + rest[1..];
      Assoc(p, ['&'], rest[1..]);
      SplitPiece(p, '&', rest[1..]);
      ParseRest(m, i + 1);
      assert ([p] + Split(rest[1..], '&'))[1..] == Split(rest[1..], '&');
    }
  }

  lemma Leading(p: string, rest: string)
    ensures "" + p + rest == p + rest && ("&" + p + rest)[1..] == p + rest
    ensures ("&" + p + rest)[0] == '&'
  {
  }

  lemma PairsTurn(m: seq<Entry>, i: nat)
    requires i < |m|
    ensures Pairs(m[i..]) == [(m[i].key, m[i].value)] + Pairs(m[i + 1..])
  {
    assert m[i..][1..] == m[i + 1..];
  }

  lemma OnePair(p: string)
    ensures ReadPairs([p]) == [ReadPair(p)]
  {
    assert [p][1..] == [];
  }
}
