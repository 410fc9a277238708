/** The text a UserSig signs and the JSON document it travels in. */
module UserSig {
  import opened Basics

  // ------------------------------------------------------------ JSON strings

  function LowerHex(n: nat): char
    requires n < 16
  {
    if n < 10 then '0' + n as char else 'a' + (n - 10) as char
  }

  function Escape(c: char): string {
    if c == '"' then ['\\', '"']
    else if c == '\\' then ['\\', '\\']
    else if c == '\n' then ['\\', 'n']
    else if c == '\r' then ['\\', 'r']
    else if c == '\t' then ['\\', 't']
    else if c < ' ' then ['\\', 'u', '0', '0', LowerHex(c as int / 16), LowerHex(c as int % 16)]
    else [c]
  }

  function Escaped(s: ByteString): string {
    if s == "" then "" else Escape(s[0]) + Escaped(s[1..])
  }

  lemma EscapedTurn(s: ByteString, i: nat, before: string)
    requires i < |s|
    ensures before + Escaped(s[i..]) == before + Escape(s[i]) + Escaped(s[i + 1..])
  {
    assert s[i..][1..] == s[i + 1..];
    Assoc(before, Escape(s[i]), Escaped(s[i + 1..]));
  }

  lemma Ends(s: ByteString, t: string)
    ensures s[0..] == s && "" + Escaped(s) == Escaped(s)
    ensures t + Escaped(s[|s|..]) == t
  {
  }

  method JsonEscape(s: ByteString) returns (out: string)
    ensures out == Escaped(s)
  {
    hide Escaped;
    out := "";
    Ends(s, "");
    for i := 0 to |s|
      invariant out + Escaped(s[i..]) == Escaped(s)
    {
      var c := s[i];
      EscapedTurn(s, i, out);
      match c {
        case '"' => out := out + "\\\"";
        case '\\' => out := out + "\\\\";
        case '\n' => out := out + "\\n";
        case '\r' => out := out + "\\r";
        case '\t' => out := out + "\\t";
        case _ =>
          if c < ' ' {
            out := out + ['\\', 'u', '0', '0', LowerHex(c as int / 16), LowerHex(c as int % 16)];
          } else {
            out := out + [c];
          }
      }
    }
    Ends(s, out);
  }

  /** One character of a JSON string and what follows it (section 7 of RFC 8259);
      code points above 255 are not bytes of a user id and are left out. */
  function ReadChar(t: string): (r: Option<(char, string)>)
    requires t != ""
    ensures r.Some? ==> |r.value.1| < |t|
  {
    if t[0] == '"' || t[0] < ' ' then None
    else if t[0] != '\\' then Some((t[0], t[1..]))
    else if |t| < 2 then None
    else if t[1] == 'u' then
      if |t| >= 6 && t[2] == '0' && t[3] == '0' && HexValue(t[4]) >= 0 && HexValue(t[5]) >= 0 then
        Some(((HexValue(t[4]) * 16 + HexValue(t[5])) as char, t[6..]))
      else None
    else if t[1] in {'"', '\\', '/'} then Some((t[1], t[2..]))
    else if t[1] == 'b' then Some((8 as char, t[2..]))
    else if t[1] == 'f' then Some((12 as char, t[2..]))
    else if t[1] == 'n' then Some(('\n', t[2..]))
    else if t[1] == 'r' then Some(('\r', t[2..]))
    else if t[1] == 't' then Some(('\t', t[2..]))
    else None
  }

  /** The rest of a JSON string up to its closing quote, and what follows. */
  function ReadString(t: string): (r: Option<(string, string)>)
    ensures r.Some? ==> |r.value.1| < |t|
    decreases |t|
  {
    if t == "" then None
    else if t[0] == '"' then Some(("", t[1..]))
    else
      match ReadChar(t)
      case None => None
      case Some(r) =>
        match ReadString(r.1)
        case None => None
        case Some(p) => Some(([r.0] + p.0, p.1))
  }

  lemma LowerHexInverse(n: nat)
    requires n < 16
    ensures HexValue(LowerHex(n)) == n
  {
  }

  lemma ReadEscape(c: char, rest: string)
    requires c < 256 as char
    ensures Escape(c) != "" && Escape(c)[0] != '"' && ReadChar(Escape(c) + rest) == Some((c, rest))
  {
    var t := Escape(c) + rest;
    if c in {'"', '\\', '\n', '\r', '\t'} {
      assert t[2..] == rest;
    } else if c < ' ' {
      LowerHexInverse(c as int / 16);
      LowerHexInverse(c as int % 16);
      assert t[6..] == rest;
    } else {
      assert t[1..] == rest;
    }
  }

  lemma EscapeExample()
    ensures Escape('"') == "\\\"" && Escape('\\') == "\\\\" && Escape('\n') == "\\n"
    ensures Escape('\U{1F}') == "\\u001f" && Escape('a') == "a" && Escape('/') == "/"
  {
  }

  /** Whatever bytes a user id holds, quotes and control characters included, a
      reader of the document gets back that id, and its closing quote is the one
      the document put there. */
  lemma {:induction false} JsonRoundTrip(s: ByteString, rest: string)
    ensures ReadString(Escaped(s) + ['"'] + rest) == Some((s, rest))
  {
    hide Escape, ReadChar;
    if s == "" {
      assert "" + ['"'] + rest == ['"'] + rest;
    } else {
      var tail := Escaped(s[1..]) + ['"'] + rest;
      ReadEscape(s[0], tail);
      assert Escaped(s) + ['"'] + rest == Escape(s[0]) + tail;
      assert (Escape(s[0]) + tail)[0] == Escape(s[0])[0];
      JsonRoundTrip(s[1..], rest);
      assert s == [s[0]] + s[1..];
    }
  }

  // ---------------------------------------------------------- signed content

  function Digits(n: nat): (s: string)
    ensures s != ""
  {
    if n < 10 then ['0' + n as char] else Digits(n / 10) + ['0' + (n % 10) as char]
  }

  /** std::to_string. */
  function Decimal(n: int): string {
    if n < 0 then "-" + Digits(-n) else Digits(n)
  }

  function FromDigits(s: string): int {
    if s == "" then 0 else FromDigits(s[..|s| - 1]) * 10 + s[|s| - 1] as int - '0' as int
  }

  lemma {:induction false} DigitsInverse(n: nat)
    ensures FromDigits(Digits(n)) == n
    ensures forall i :: 0 <= i < |Digits(n)| ==> '0' <= Digits(n)[i] <= '9'
  {
    if n < 10 {
      assert Digits(n)[..0] == "";
    } else {
      DigitsInverse(n / 10);
      var s := Digits(n);
      assert s[..|s| - 1] == Digits(n / 10);
    }
  }

  lemma DecimalInjective(m: int, n: int)
    requires Decimal(m) == Decimal(n)
    ensures m == n
  {
    hide Digits, FromDigits;
    DigitsInverse(if m < 0 then -m else m);
    DigitsInverse(if n < 0 then -n else n);
    if m < 0 && n < 0 {
      assert Decimal(m)[1..] == Digits(-m) && Decimal(n)[1..] == Digits(-n);
    } else {
      MinusSign(m);
      MinusSign(n);
    }
  }

  lemma MinusSign(n: int)
    ensures Decimal(n) != "" && (Decimal(n)[0] == '-' <==> n < 0)
  {
    DigitsInverse(if n < 0 then -n else n);
  }

  predicate OneLine(s: string) {
    '\n' !in s
  }

  lemma DecimalOneLine(n: int)
    ensures OneLine(Decimal(n))
  {
    DigitsInverse(if n < 0 then -n else n);
  }

  const APP: string := "TLS.sdkappid:"
  const TIME: string := "TLS.time:"
  const EXPIRE: string := "TLS.expire:"

  /** What GenUserSigAt hands to the HMAC. */
  function Content(userId: string, app: int, time: int, expire: int): string {
    "TLS.identifier:" + userId + ['\n'] + (APP + Decimal(app)) + ['\n'] + (TIME + Decimal(time)) + ['\n'] +
    (EXPIRE + Decimal(expire)) + ['\n']
  }

  // ------------------------------------------------ reading the signed content

  datatype Line = Line(name: string, value: string)

  /** The text before the last line break, and the text after it. */
  function CutLast(s: string): Option<(string, string)> {
    if s == "" then None
    else if s[|s| - 1] == '\n' then Some((s[..|s| - 1], ""))
    else
      match CutLast(s[..|s| - 1])
      case None => None
      case Some(p) => Some((p.0, p.1 + [s[|s| - 1]]))
  }

  /** A name ends at the first colon. */
  function CutColon(s: string): Option<Line> {
    if s == "" then None
    else if s[0] == ':' then Some(Line("", s[1..]))
    else
      match CutColon(s[1..])
      case None => None
      case Some(l) => Some(Line([s[0]] + l.name, l.value))
  }

  /** The text cut at its last `breaks` line breaks: those before them belong to
      the value of the first line. */
  function ReadLines(s: string, breaks: nat): Option<seq<Line>>
    decreases breaks
  {
    if breaks == 0 then
      match CutColon(s)
      case None => None
      case Some(l) => Some([l])
    else
      match CutLast(s)
      case None => None
      case Some(p) =>
        match (ReadLines(p.0, breaks - 1), CutColon(p.1))
        case (Some(ls), Some(l)) => Some(ls + [l])
        case _ => None
  }

  /** Four lines, each ended by a line break. */
  function ReadContent(s: string): Option<seq<Line>> {
    if s == "" || s[|s| - 1] != '\n' then None else ReadLines(s[..|s| - 1], 3)
  }

  lemma {:induction false} CutLastOf(a: string, x: string)
    requires OneLine(x)
    ensures CutLast(a + ['\n'] + x) == Some((a, x))
    decreases |x|
  {
    var s := a + ['\n'] + x;
    if x == "" {
      assert s[..|s| - 1] == a;
    } else {
      var y := x[..|x| - 1];
      assert x == y + [x[|x| - 1]] && s[..|s| - 1] == a + ['\n'] + y;
      assert s[|s| - 1] == x[|x| - 1];
      CutLastOf(a, y);
    }
  }

  lemma {:induction false} CutColonOf(name: string, value: string)
    requires ':' !in name
    ensures CutColon(name + [':'] + value) == Some(Line(name, value))
    decreases |name|
  {
    var s := name + [':'] + value;
    if name == "" {
      assert s[1..] == value;
    } else {
      assert name == [name[0]] + name[1..] && s[1..] == name[1..] + [':'] + value;
      CutColonOf(name[1..], value);
    }
  }

  lemma {:induction false} OneMoreLine(a: string, breaks: nat, name: string, value: string)
    requires ':' !in name && OneLine(name) && OneLine(value)
    ensures var t := name + [':'] + value;
            ReadLines(a + ['\n'] + t, breaks + 1) ==
            match ReadLines(a, breaks)
            case None => None
            case Some(ls) => Some(ls + [Line(name, value)])
  {
    hide CutLast, CutColon;
    var t := name + [':'] + value;
    CutLastOf(a, t);
    CutColonOf(name, value);
  }

  /** What is signed, line by line. Whatever the user id holds, an id with line
      breaks or colons in it cannot pass for other fields. */
  lemma ContentReads(userId: string, app: int, time: int, expire: int)
    ensures ReadContent(Content(userId, app, time, expire)) ==
            Some([Line("TLS.identifier", userId), Line("TLS.sdkappid", Decimal(app)),
                  Line("TLS.time", Decimal(time)), Line("TLS.expire", Decimal(expire))])
  {
    hide Decimal, CutLast, CutColon, ReadLines, OneLine, APP, TIME, EXPIRE;
    Labels();
    var l0 := "TLS.identifier" + [':'] + userId;
    var l1 := l0 + ['\n'] + ("TLS.sdkappid" + [':'] + Decimal(app));
    var l2 := l1 + ['\n'] + ("TLS.time" + [':'] + Decimal(time));
    var l3 := l2 + ['\n'] + ("TLS.expire" + [':'] + Decimal(expire));
    assert Content(userId, app, time, expire) == l3 + ['\n'];
    WholeText(l3);
    FirstLine("TLS.identifier", userId);
    DecimalOneLine(app);
    DecimalOneLine(time);
    DecimalOneLine(expire);
    OneMoreLine(l0, 0, "TLS.sdkappid", Decimal(app));
    OneMoreLine(l1, 1, "TLS.time", Decimal(time));
    OneMoreLine(l2, 2, "TLS.expire", Decimal(expire));
    Four(Line("TLS.identifier", userId), Line("TLS.sdkappid", Decimal(app)), Line("TLS.time", Decimal(time)),
         Line("TLS.expire", Decimal(expire)));
  }

  lemma Four<T>(a: T, b: T, c: T, d: T)
    ensures [] + [a] == [a] && [a] + [b] + [c] + [d] == [a, b, c, d]
  {
  }

  lemma Labels()
    ensures "TLS.identifier:" == "TLS.identifier" + [':'] && ':' !in "TLS.identifier"
    ensures APP == "TLS.sdkappid" + [':'] && ':' !in "TLS.sdkappid" && OneLine("TLS.sdkappid")
    ensures TIME == "TLS.time" + [':'] && ':' !in "TLS.time" && OneLine("TLS.time")
    ensures EXPIRE == "TLS.expire" + [':'] && ':' !in "TLS.expire" && OneLine("TLS.expire")
  {
  }

  lemma WholeText(s: string)
    ensures ReadContent(s + ['\n']) == ReadLines(s, 3)
  {
    hide ReadLines;
    assert (s + ['\n'])[..|s|] == s;
  }

  lemma FirstLine(name: string, value: string)
    requires ':' !in name
    ensures ReadLines(name + [':'] + value, 0) == Some([Line(name, value)])
  {
    hide CutColon;
    CutColonOf(name, value);
  }

  /** No two different requests sign the same text. */
  lemma ContentInjective(u: string, a: int, t: int, e: int, v: string, b: int, s: int, f: int)
    requires Content(u, a, t, e) == Content(v, b, s, f)
    ensures u == v && a == b && t == s && e == f
  {
    hide Content, ReadContent, Decimal;
    ContentReads(u, a, t, e);
    ContentReads(v, b, s, f);
    DecimalInjective(a, b);
    DecimalInjective(t, s);
    DecimalInjective(e, f);
  }
}
