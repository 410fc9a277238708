/** The document of a UserSig before compression, and the reading of it by whoever
    verifies the signature. */
module UserSigDocument {
  import opened Basics
  import opened UserSig
  import Base64
  import Fips180
  import Hmac

  // --------------------------------------------- reading a flat JSON object

  datatype Value = Text(s: string) | Integer(n: int)

  datatype Member = Member(key: string, value: Value)

  predicate IsDigit(c: char) { '0' <= c <= '9' }

  function ReadDigits(acc: int, t: string): (r: (int, string))
    ensures |r.1| <= |t|
    decreases |t|
  {
    if t == "" || !IsDigit(t[0]) then (acc, t)
    else ReadDigits(acc * 10 + (t[0] - '0') as int, t[1..])
  }

  /** Digits without a leading zero (section 6 of RFC 8259). */
  function ReadNat(t: string): (r: Option<(int, string)>)
    ensures r.Some? ==> |r.value.1| < |t|
  {
    if t == "" || !IsDigit(t[0]) then None
    else if t[0] == '0' then Some((0, t[1..]))
    else Some(ReadDigits((t[0] - '0') as int, t[1..]))
  }

  function ReadInteger(t: string): (r: Option<(int, string)>)
    ensures r.Some? ==> |r.value.1| < |t|
  {
    if t != "" && t[0] == '-' then
      match ReadNat(t[1..])
      case None => None
      case Some(p) => Some((-p.0, p.1))
    else ReadNat(t)
  }

  function ReadValue(t: string): (r: Option<(Value, string)>)
    ensures r.Some? ==> |r.value.1| < |t|
  {
    if t != "" && t[0] == '"' then
      match ReadString(t[1..])
      case None => None
      case Some(p) => Some((Text(p.0), p.1))
    else
      match ReadInteger(t)
      case None => None
      case Some(p) => Some((Integer(p.0), p.1))
  }

  function ReadMember(t: string): (r: Option<(Member, string)>)
    ensures r.Some? ==> |r.value.1| < |t|
  {
    if t == "" || t[0] != '"' then None
    else
      match ReadString(t[1..])
      case None => None
      case Some(k) =>
        if k.1 == "" || k.1[0] != ':' then None
        else
          match ReadValue(k.1[1..])
          case None => None
          case Some(v) => Some((Member(k.0, v.0), v.1))
  }

  /** Members up to the closing brace, and what follows it. */
  function ReadMembers(t: string): Option<(seq<Member>, string)>
    decreases |t|
  {
    match ReadMember(t)
    case None => None
    case Some(m) =>
      if m.1 == "" then None
      else if m.1[0] == '}' then Some(([m.0], m.1[1..]))
      else if m.1[0] != ',' then None
      else
        match ReadMembers(m.1[1..])
        case None => None
        case Some(p) => Some(([m.0] + p.0, p.1))
  }

  /** A flat object (section 4 of RFC 8259), written without blanks. */
  function ReadObject(t: string): Option<(seq<Member>, string)> {
    if t == "" || t[0] != '{' then None else ReadMembers(t[1..])
  }

  // --------------------------------------------- writing a flat JSON object

  predicate IsBytes(s: string) {
    forall i :: 0 <= i < |s| ==> s[i] < 256 as char
  }

  predicate Writable(m: Member) {
    IsBytes(m.key) && (m.value.Text? ==> IsBytes(m.value.s))
  }

  function Shown(m: Member): string
    requires Writable(m)
  {
    ['"'] + Escaped(m.key) + ['"'] + [':'] +
    match m.value
    case Text(s) => ['"'] + Escaped(s) + ['"']
    case Integer(n) => Decimal(n)
  }

  function Joined(ms: seq<Member>): string
    requires forall i :: 0 <= i < |ms| ==> Writable(ms[i])
  {
    if ms == [] then ""
    else if |ms| == 1 then Shown(ms[0])
    else Shown(ms[0]) + ([','] + Joined(ms[1..]))
  }

  predicate Ends(rest: string) {
    rest != "" && !IsDigit(rest[0])
  }

  /** The number the digits spell after `acc`. */
  function Fold(acc: int, s: string): int
    decreases |s|
  {
    if s == "" then acc else Fold(acc * 10 + s[0] as int - '0' as int, s[1..])
  }

  lemma {:induction false} FoldMore(acc: int, s: string, c: char)
    ensures Fold(acc, s + [c]) == Fold(acc, s) * 10 + c as int - '0' as int
    decreases |s|
  {
    if s != "" {
      assert (s + [c])[1..] == s[1..] + [c];
      FoldMore(acc * 10 + s[0] as int - '0' as int, s[1..], c);
    } else {
      assert (s + [c])[1..] == "";
    }
  }

  predicate AllDigits(s: string) {
    forall i :: 0 <= i < |s| ==> IsDigit(s[i])
  }

  lemma {:induction false} DigitsFold(n: nat)
    ensures Fold(0, Digits(n)) == n && AllDigits(Digits(n))
    ensures Digits(n)[0] == '0' <==> n == 0
    ensures n == 0 ==> Digits(n) == "0"
  {
    if n >= 10 {
      DigitsFold(n / 10);
      FoldMore(0, Digits(n / 10), '0' + (n % 10) as char);
    } else {
      assert Digits(n)[1..] == "";
    }
  }

  lemma {:induction false} ReadDigitsOf(acc: int, s: string, rest: string)
    requires AllDigits(s) && Ends(rest)
    ensures ReadDigits(acc, s + rest) == (Fold(acc, s), rest)
    decreases |s|
  {
    if s == "" {
      assert s + rest == rest;
    } else {
      assert (s + rest)[1..] == s[1..] + rest && IsDigit(s[0]);
      ReadDigitsOf(acc * 10 + s[0] as int - '0' as int, s[1..], rest);
    }
  }

  lemma ReadNatOf(n: nat, rest: string)
    requires Ends(rest)
    ensures ReadNat(Digits(n) + rest) == Some((n as int, rest))
  {
    hide Digits;
    DigitsFold(n);
    var s := Digits(n);
    assert (s + rest)[0] == s[0] && IsDigit(s[0]);
    assert (s + rest)[1..] == s[1..] + rest;
    if n == 0 {
      assert s[1..] + rest == rest;
    } else {
      assert AllDigits(s[1..]);
      ReadDigitsOf(s[0] as int - '0' as int, s[1..], rest);
    }
  }

  lemma ReadIntegerOf(n: int, rest: string)
    requires Ends(rest)
    ensures ReadInteger(Decimal(n) + rest) == Some((n, rest))
    ensures Decimal(n) != "" && Decimal(n)[0] != '"'
  {
    hide Digits, ReadNat;
    var m := if n < 0 then -n else n;
    DigitsFold(m);
    ReadNatOf(m, rest);
    assert IsDigit(Digits(m)[0]);
    if n < 0 {
      assert (Decimal(n) + rest)[1..] == Digits(m) + rest;
    }
  }

  lemma ReadValueOf(v: Value, rest: string)
    requires Ends(rest) && (v.Text? ==> IsBytes(v.s))
    ensures ReadValue((match v case Text(s) => ['"'] + Escaped(s) + ['"'] case Integer(n) => Decimal(n)) + rest) ==
            Some((v, rest))
  {
    hide Escaped, Decimal, ReadString, ReadInteger;
    match v {
      case Text(s) =>
        JsonRoundTrip(s, rest);
        var t := ['"'] + Escaped(s) + ['"'] + rest;
        assert t[1..] == Escaped(s) + ['"'] + rest;
      case Integer(n) =>
        ReadIntegerOf(n, rest);
        assert (Decimal(n) + rest)[0] == Decimal(n)[0];
    }
  }

  lemma ReadMemberOf(m: Member, rest: string)
    requires Writable(m) && Ends(rest)
    ensures ReadMember(Shown(m) + rest) == Some((m, rest))
  {
    hide Escaped, Decimal, ReadString, ReadValue;
    var v := match m.value case Text(s) => ['"'] + Escaped(s) + ['"'] case Integer(n) => Decimal(n);
    var after := [':'] + (v + rest);
    ReadValueOf(m.value, rest);
    JsonRoundTrip(m.key, after);
    assert Shown(m) + rest == ['"'] + (Escaped(m.key) + ['"'] + after);
    assert after[1..] == v + rest;
  }

  lemma {:induction false} ReadMembersOf(ms: seq<Member>, rest: string)
    requires ms != [] && forall i :: 0 <= i < |ms| ==> Writable(ms[i])
    ensures ReadMembers(Joined(ms) + ['}'] + rest) == Some((ms, rest))
    decreases |ms|
  {
    hide Shown, ReadMember;
    if |ms| == 1 {
      var tail := ['}'] + rest;
      ReadMemberOf(ms[0], tail);
      assert Joined(ms) + ['}'] + rest == Shown(ms[0]) + tail && tail[1..] == rest;
      assert ms == [ms[0]];
    } else {
      var tail := [','] + (Joined(ms[1..]) + ['}'] + rest);
      ReadMemberOf(ms[0], tail);
      assert Joined(ms) + ['}'] + rest == Shown(ms[0]) + tail;
      assert tail[1..] == Joined(ms[1..]) + ['}'] + rest;
      ReadMembersOf(ms[1..], rest);
      assert ms == [ms[0]] + ms[1..];
    }
  }

  // --------------------------------------------------------- the document

  function TextPart(head: string, s: string): string {
    head + s + ['"']
  }

  /** What GenUserSigAt puts together; `id` is escaped and `sig` in Base64. */
  function Document(id: string, app: int, expire: int, time: int, sig: string): string {
    ['{'] +
    TextPart("\"TLS.ver\":\"", "2.0") + [','] +
    TextPart("\"TLS.identifier\":\"", id) + [','] +
    ("\"TLS.sdkappid\":" + Decimal(app)) + [','] +
    ("\"TLS.expire\":" + Decimal(expire)) + [','] +
    ("\"TLS.time\":" + Decimal(time)) + [','] +
    TextPart("\"TLS.sig\":\"", sig) +
    ['}'] + ['\n']
  }

  function Members(userId: ByteString, app: int, expire: int, time: int, sig: string): seq<Member> {
    [Member("TLS.ver", Text("2.0")), Member("TLS.identifier", Text(userId)), Member("TLS.sdkappid", Integer(app)),
     Member("TLS.expire", Integer(expire)), Member("TLS.time", Integer(time)), Member("TLS.sig", Text(sig))]
  }

  predicate Plain(s: string) {
    forall i :: 0 <= i < |s| ==> ' ' <= s[i] < 256 as char && s[i] != '"' && s[i] != '\\'
  }

  lemma {:induction false} PlainEscaped(s: string)
    requires Plain(s)
    ensures IsBytes(s) && Escaped(s) == s
  {
    if s != "" {
      PlainEscaped(s[1..]);
      assert s == [s[0]] + s[1..];
    }
  }

  lemma Names()
    ensures Plain("TLS.ver") && Plain("TLS.identifier") && Plain("TLS.sdkappid")
    ensures Plain("TLS.expire") && Plain("TLS.time") && Plain("TLS.sig") && Plain("2.0")
  {
  }

  lemma ShownText(key: string, s: string, head: string)
    requires Plain(key) && IsBytes(s) && head == ['"'] + key + ['"'] + [':'] + ['"']
    ensures Writable(Member(key, Text(s))) && Shown(Member(key, Text(s))) == TextPart(head, Escaped(s))
  {
    hide Escaped;
    PlainEscaped(key);
  }

  lemma ShownInteger(key: string, n: int, head: string)
    requires Plain(key) && head == ['"'] + key + ['"'] + [':']
    ensures Writable(Member(key, Integer(n))) && Shown(Member(key, Integer(n))) == head + Decimal(n)
  {
    hide Escaped, Decimal;
    PlainEscaped(key);
  }

  lemma JoinedTurn(a: Member, ms: seq<Member>)
    requires Writable(a) && ms != [] && forall i :: 0 <= i < |ms| ==> Writable(ms[i])
    ensures forall i :: 0 <= i < |ms| + 1 ==> Writable(([a] + ms)[i])
    ensures Joined([a] + ms) == Shown(a) + ([','] + Joined(ms))
  {
    hide Writable, Shown;
    assert ([a] + ms)[1..] == ms;
  }

  lemma TwoJoined(a: Member, ms: seq<Member>, before: string)
    requires Writable(a) && ms != [] && forall i :: 0 <= i < |ms| ==> Writable(ms[i])
    ensures forall i :: 0 <= i < |ms| + 1 ==> Writable(([a] + ms)[i])
    ensures before + Joined([a] + ms) == before + Shown(a) + [','] + Joined(ms)
  {
    hide Writable, Shown, Joined;
    JoinedTurn(a, ms);
    Assoc(before, Shown(a), [','] + Joined(ms));
    Assoc(before + Shown(a), [','], Joined(ms));
  }

  /** The document is the flat object of its six members. */
  lemma DocumentIs(userId: ByteString, app: int, expire: int, time: int, sig: string)
    requires Plain(sig)
    ensures var ms := Members(userId, app, expire, time, sig);
            && (forall i :: 0 <= i < |ms| ==> Writable(ms[i]))
            && Document(Escaped(userId), app, expire, time, sig) == ['{'] + Joined(ms) + ['}'] + ['\n']
  {
    hide Escaped, Decimal, Shown, Writable, Plain, TextPart;
    Names();
    PlainEscaped("2.0");
    PlainEscaped(sig);
    var ms := Members(userId, app, expire, time, sig);
    ShownText("TLS.ver", "2.0", "\"TLS.ver\":\"");
    ShownText("TLS.identifier", userId, "\"TLS.identifier\":\"");
    ShownInteger("TLS.sdkappid", app, "\"TLS.sdkappid\":");
    ShownInteger("TLS.expire", expire, "\"TLS.expire\":");
    ShownInteger("TLS.time", time, "\"TLS.time\":");
    ShownText("TLS.sig", sig, "\"TLS.sig\":\"");
    SixJoined(ms);
  }

  lemma SixJoined(ms: seq<Member>)
    requires |ms| == 6 && forall i :: 0 <= i < |ms| ==> Writable(ms[i])
    ensures ['{'] + Joined(ms) ==
            ['{'] + Shown(ms[0]) + [','] + Shown(ms[1]) + [','] + Shown(ms[2]) + [','] + Shown(ms[3]) + [','] +
            Shown(ms[4]) + [','] + Shown(ms[5])
  {
    hide Shown, Writable, Joined;
    var b1 := ['{'] + Shown(ms[0]) + [','];
    var b2 := b1 + Shown(ms[1]) + [','];
    var b3 := b2 + Shown(ms[2]) + [','];
    var b4 := b3 + Shown(ms[3]) + [','];
    assert ms == [ms[0]] + ms[1..] && ms[1..] == [ms[1]] + ms[2..] && ms[2..] == [ms[2]] + ms[3..];
    assert ms[3..] == [ms[3]] + ms[4..] && ms[4..] == [ms[4]] + ms[5..] && ms[5..] == [ms[5]];
    TwoJoined(ms[0], ms[1..], ['{']);
    TwoJoined(ms[1], ms[2..], b1);
    TwoJoined(ms[2], ms[3..], b2);
    TwoJoined(ms[3], ms[4..], b3);
    TwoJoined(ms[4], ms[5..], b4);
    OneJoined(ms[5]);
  }

  lemma OneJoined(a: Member)
    requires Writable(a)
    ensures Joined([a]) == Shown(a)
  {
  }

  /** A reader of the document gets back every field: whatever bytes the user id
      holds, no member is added, lost or changed. */
  lemma DocumentReads(userId: ByteString, app: int, expire: int, time: int, sig: string)
    requires Plain(sig)
    ensures ReadObject(Document(Escaped(userId), app, expire, time, sig)) ==
            Some((Members(userId, app, expire, time, sig), "\n"))
  {
    hide Document, Members, Joined, ReadMembers, Writable, Plain;
    DocumentIs(userId, app, expire, time, sig);
    var ms := Members(userId, app, expire, time, sig);
    ReadSix(ms);
    MembersCount(userId, app, expire, time, sig);
  }

  lemma MembersCount(userId: ByteString, app: int, expire: int, time: int, sig: string)
    ensures |Members(userId, app, expire, time, sig)| == 6
  {
  }

  lemma ReadSix(ms: seq<Member>)
    requires forall i :: 0 <= i < |ms| ==> Writable(ms[i])
    ensures ms != [] ==> ReadObject(['{'] + Joined(ms) + ['}'] + ['\n']) == Some((ms, "\n"))
  {
    hide Joined, ReadMembers, Writable;
    if ms != [] {
      ReadMembersOf(ms, "\n");
      var t := ['{'] + Joined(ms) + ['}'] + ['\n'];
      assert t[1..] == Joined(ms) + ['}'] + "\n";
    }
  }

  // -------------------------------------------------------- GenUserSigAt

  datatype Error = EmptyKey | EmptyUserId

  function ToBytes(s: string): (b: seq<Byte>)
    ensures |b| == |s| && forall i :: 0 <= i < |s| && s[i] < 256 as char ==> b[i] as int == s[i] as int
  {
    seq(|s|, i requires 0 <= i < |s| => (s[i] as int % 256) as Byte)
  }

  /** GenUserSigAt up to the compression of the document. */
  method UserSigDocument(app: int, key: ByteString, userId: ByteString, expire: int, now: int)
    returns (r: Result<string, Error>)
    ensures key == "" ==> r == Err(EmptyKey)
    ensures key != "" && userId == "" ==> r == Err(EmptyUserId)
    ensures key != "" && userId != "" ==> r.Ok? && Certifies(r.value, key, userId, app, expire, now)
  {
    hide Document, Certifies, Hmac.Mac, Base64.Encoded, Decimal;
    if key == "" {
      return Err(EmptyKey);
    }
    if userId == "" {
      return Err(EmptyUserId);
    }
    var content := Content(userId, app, now, expire);
    var mac := Hmac.HmacSha256(ToBytes(key), ToBytes(content));
    var sig := Base64.Base64Encode(mac);
    var id := JsonEscape(userId);
    r := Ok(Document(id, app, expire, now, sig));
    DocumentCertifies(key, userId, app, expire, now);
  }

  // ------------------------------------------- the reader's side of a UserSig

  /** The value of the first member of that name. */
  function Lookup(ms: seq<Member>, name: string): Option<Value> {
    if ms == [] then None else if ms[0].key == name then Some(ms[0].value) else Lookup(ms[1..], name)
  }

  function Spelled(v: Option<Value>): string {
    match v
    case None => ""
    case Some(Text(s)) => s
    case Some(Integer(n)) => Decimal(n)
  }

  /** One line for each name: the name, a colon, the value of that member. */
  function Rebuilt(ms: seq<Member>, names: seq<string>): string {
    if names == [] then ""
    else
      var last := names[|names| - 1];
      Rebuilt(ms, names[..|names| - 1]) + (last + [':'] + Spelled(Lookup(ms, last))) + ['\n']
  }

  /** A reader finds the fields of the request under their names, and as TLS.sig
      the Base64 form of the MAC of the text rebuilt from the members it has read. */
  ghost predicate Certifies(doc: string, key: ByteString, userId: ByteString, app: int, expire: int, time: int) {
    exists ms: seq<Member>, sig: string ::
      && ReadObject(doc) == Some((ms, "\n")) && |ms| == 6
      && Lookup(ms, "TLS.ver") == Some(Text("2.0"))
      && Lookup(ms, "TLS.identifier") == Some(Text(userId))
      && Lookup(ms, "TLS.sdkappid") == Some(Integer(app))
      && Lookup(ms, "TLS.expire") == Some(Integer(expire))
      && Lookup(ms, "TLS.time") == Some(Integer(time))
      && Lookup(ms, "TLS.sig") == Some(Text(sig))
      && var text := Rebuilt(ms, ["TLS.identifier", "TLS.sdkappid", "TLS.time", "TLS.expire"]);
         Base64.Decoded(sig) == Ok(Hmac.Mac(ToBytes(key), ToBytes(text)))
  }

  lemma {:induction false} EncodedIsPlain(data: seq<Byte>)
    ensures Plain(Base64.Encoded(data))
  {
    hide Base64.Encoded;
    var s := Base64.Encoded(data);
    forall i | 0 <= i < |s|
      ensures ' ' <= s[i] < 256 as char && s[i] != '"' && s[i] != '\\'
    {
      Base64.EncodedChars(data, i);
    }
  }

  lemma Found(userId: ByteString, app: int, expire: int, time: int, sig: string)
    ensures var ms := Members(userId, app, expire, time, sig);
            && |ms| == 6
            && Lookup(ms, "TLS.ver") == Some(Text("2.0"))
            && Lookup(ms, "TLS.identifier") == Some(Text(userId))
            && Lookup(ms, "TLS.sdkappid") == Some(Integer(app))
            && Lookup(ms, "TLS.expire") == Some(Integer(expire))
            && Lookup(ms, "TLS.time") == Some(Integer(time))
            && Lookup(ms, "TLS.sig") == Some(Text(sig))
  {
    var ms := Members(userId, app, expire, time, sig);
    assert |"TLS.ver"| == 7 && |"TLS.identifier"| == 14 && |"TLS.sdkappid"| == 12;
    assert |"TLS.expire"| == 10 && |"TLS.time"| == 8 && |"TLS.sig"| == 7 && "TLS.ver"[4] == 'v' && "TLS.sig"[4] == 's';
    Nth(ms, 0);
    Nth(ms, 1);
    Nth(ms, 2);
    Nth(ms, 3);
    Nth(ms, 4);
    Nth(ms, 5);
  }

  lemma {:induction false} Nth(ms: seq<Member>, i: nat)
    requires i < |ms| && forall j :: 0 <= j < i ==> ms[j].key != ms[i].key
    ensures Lookup(ms, ms[i].key) == Some(ms[i].value)
  {
    if i > 0 {
      Nth(ms[1..], i - 1);
    }
  }

  lemma RebuiltTurn(ms: seq<Member>, names: seq<string>, name: string)
    ensures Rebuilt(ms, names + [name]) == Rebuilt(ms, names) + (name + [':'] + Spelled(Lookup(ms, name))) + ['\n']
  {
    hide Lookup, Spelled;
    assert (names + [name])[..|names|] == names;
  }

  lemma RebuiltNone(ms: seq<Member>, s: string)
    ensures Rebuilt(ms, []) + s == s
  {
  }

  /** The text rebuilt from the members is the text that was signed. */
  lemma RebuiltContent(userId: ByteString, app: int, expire: int, time: int, sig: string)
    ensures Rebuilt(Members(userId, app, expire, time, sig),
                    ["TLS.identifier", "TLS.sdkappid", "TLS.time", "TLS.expire"]) ==
            Content(userId, app, time, expire)
  {
    hide Rebuilt, Members, Lookup, Decimal, APP, TIME, EXPIRE, OneLine;
    var ms := Members(userId, app, expire, time, sig);
    Found(userId, app, expire, time, sig);
    Labels();
    RebuiltNone(ms, "TLS.identifier" + [':'] + userId);
    Four("TLS.identifier", "TLS.sdkappid", "TLS.time", "TLS.expire");
    RebuiltTurn(ms, [], "TLS.identifier");
    RebuiltTurn(ms, ["TLS.identifier"], "TLS.sdkappid");
    RebuiltTurn(ms, ["TLS.identifier"] + ["TLS.sdkappid"], "TLS.time");
    RebuiltTurn(ms, ["TLS.identifier"] + ["TLS.sdkappid"] + ["TLS.time"], "TLS.expire");
  }

  lemma DocumentCertifies(key: ByteString, userId: ByteString, app: int, expire: int, time: int)
    ensures var mac := Hmac.Mac(ToBytes(key), ToBytes(Content(userId, app, time, expire)));
            Certifies(Document(Escaped(userId), app, expire, time, Base64.Encoded(mac)), key, userId, app, expire, time)
  {
    hide Document, ReadObject, Members, Lookup, Rebuilt, Hmac.Mac, Base64.Encoded, Base64.Decoded, Content, Plain;
    var mac := Hmac.Mac(ToBytes(key), ToBytes(Content(userId, app, time, expire)));
    EncodedIsPlain(mac);
    DocumentReads(userId, app, expire, time, Base64.Encoded(mac));
    Found(userId, app, expire, time, Base64.Encoded(mac));
    RebuiltContent(userId, app, expire, time, Base64.Encoded(mac));
    Base64.RoundTrip(mac);
  }
}
