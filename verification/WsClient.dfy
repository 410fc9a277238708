/** The client's socket layer: ReadExact, Read, WriteAll, SendText and SendBinary
    over a socket that may deliver and accept bytes in any portions, stall or
    fail.  What the peer, the kernel and the clock do is a script of events; the
    contracts hold for every script. */
module WsClient {
  import opened Basics
  import opened WsCodec

  /** One round of waiting on the socket: `dt` milliseconds pass before the
      deadline is checked, then the poll and the transfer end as told. */
  datatype What = Silence | Failed | Again | Ready(k: nat)

  datatype Event = Event(dt: nat, what: What)

  /** Budget for the rest of a frame once its header has been read. */
  const FRAME_BUDGET: nat := 10000

  function Min(a: nat, b: nat): nat { if a < b then a else b }

  /** How a wait for `n` bytes on the socket ends: the code ReadExact returns,
      the number of bytes that arrived, the events left, the time after. */
  datatype Fed = Fed(rc: int, got: nat, rest: seq<Event>, now: int)

  /** One round of a transfer of `n` bytes of which `avail` are there: it ends
      the wait with a code, or moves some bytes, or none. */
  datatype Turn = Ends(rc: int, at: int) | Moves(k: nat, at: int)

  function Receive(e: Event, n: nat, avail: nat, now: int, deadline: int): (t: Turn)
    ensures t.at >= now || t.at == deadline > now
    ensures t.Moves? ==> t.k <= n && t.k <= avail
    ensures t.Ends? ==> t.rc in {0, -1} && (t.rc == 0 ==> t.at >= deadline)
  {
    var t := now + e.dt;
    if t >= deadline then Ends(0, t)
    else
      match e.what
      case Silence => Ends(0, deadline)
      case Failed => Ends(-1, t)
      case Again => Moves(0, t)
      case Ready(k) =>
        var take := Min(Min(k, n), avail);
        if take == 0 && n > 0 then Ends(-1, t) else Moves(take, t)  // no bytes: end of stream
  }

  function Feed(script: seq<Event>, n: nat, avail: nat, now: int, deadline: int): (f: Fed)
    ensures f.got <= n && f.got <= avail && f.now >= now
    ensures f.rc in {1, 0, -1} && (f.rc == 1 <==> f.got == n)
    ensures f.rc == 0 ==> f.now >= deadline
  {
    if n == 0 then Fed(1, 0, script, now)
    else if script == [] then Fed(-1, 0, [], now)
    else
      match Receive(script[0], n, avail, now, deadline)
      case Ends(rc, t) => Fed(rc, 0, script[1..], t)
      case Moves(k, t) =>
        var f := Feed(script[1..], n - k, avail - k, t, deadline);
        f.(got := f.got + k)
  }

  /** How WriteAll ends on `n` bytes: whether it succeeded and how many bytes the
      socket took. */
  datatype Pushed = Pushed(ok: bool, sent: nat, rest: seq<Event>, now: int)

  function Transmit(e: Event, n: nat, now: int, deadline: int): (t: Turn)
    ensures t.at >= now || t.at == deadline > now
    ensures t.Moves? ==> t.k <= n
  {
    var t := now + e.dt;
    if t >= deadline then Ends(0, t)
    else
      match e.what
      case Silence => Ends(0, deadline)
      case Failed => Ends(0, t)
      case Again => Moves(0, t)
      case Ready(k) => Moves(Min(k, n), t)
  }

  function Push(script: seq<Event>, n: nat, now: int, deadline: int): (p: Pushed)
    ensures p.sent <= n && p.now >= now
    ensures p.ok <==> p.sent == n
  {
    if n == 0 then Pushed(true, 0, script, now)
    else if script == [] then Pushed(false, 0, [], now)
    else
      match Transmit(script[0], n, now, deadline)
      case Ends(_, t) => Pushed(false, 0, script[1..], t)
      case Moves(k, t) =>
        var p := Push(script[1..], n - k, t, deadline);
        p.(sent := p.sent + k)
  }

  // ------------------------------------------------------- inbound messages

  predicate Control(f: Frame) {
    f.opcode == PING || f.opcode == PONG
  }

  /** `s` starts with exactly these whole frames. */
  predicate Starts(s: seq<Byte>, fs: seq<Frame>)
    decreases |fs|
  {
    fs == [] ||
    (Parse(s).Parsed? && Parse(s).frame == fs[0] && Starts(s[Parse(s).used..], fs[1..]))
  }

  /** The bytes those frames take. */
  function Length(s: seq<Byte>, fs: seq<Frame>): (n: nat)
    requires Starts(s, fs)
    ensures n <= |s|
    decreases |fs|
  {
    if fs == [] then 0 else Parse(s).used + Length(s[Parse(s).used..], fs[1..])
  }

  lemma {:induction false} StartsAppend(s: seq<Byte>, fs: seq<Frame>, f: Frame)
    requires Starts(s, fs) && Parse(s[Length(s, fs)..]).Parsed? && Parse(s[Length(s, fs)..]).frame == f
    ensures Starts(s, fs + [f])
    ensures Length(s, fs + [f]) == Length(s, fs) + Parse(s[Length(s, fs)..]).used
    decreases |fs|
  {
    if fs == [] {
      assert s[0..] == s;
    } else {
      var u := Parse(s).used;
      assert s[u..][Length(s[u..], fs[1..])..] == s[Length(s, fs)..];
      StartsAppend(s[u..], fs[1..], f);
      assert (fs + [f])[1..] == fs[1..] + [f];
    }
  }

  predicate AllControl(fs: seq<Frame>) {
    forall i :: 0 <= i < |fs| ==> Control(fs[i])
  }

  // -------------------------------------------------------- outbound history

  type Key = k: seq<Byte> | |k| == 4 witness [0, 0, 0, 0]

  datatype Message = Message(opcode: Byte, payload: seq<Byte>)

  /** One frame handed to WriteAll and how much of it went out. */
  datatype Write = Write(m: Message, key: Key, sent: nat)

  function Bytes(m: Message, key: Key): seq<Byte> {
    Encode(m.opcode, m.payload, Some(key))
  }

  /** How many bytes a masked frame takes. */
  function FrameSize(n: nat): nat {
    6 + ExtraBytes(n) + n
  }

  lemma BytesSize(m: Message, key: Key)
    ensures |Bytes(m, key)| == FrameSize(|m.payload|)
  {
    EncodeSize(m.opcode, m.payload, Some(key));
  }

  predicate WholeWrite(w: Write) { w.sent == |Bytes(w.m, w.key)| }

  predicate Fits(log: seq<Write>) {
    forall i :: 0 <= i < |log| ==> log[i].sent <= |Bytes(log[i].m, log[i].key)|
  }

  /** The bytes on the wire: a prefix of each frame, one frame after another. */
  function Flatten(log: seq<Write>): seq<Byte>
    requires Fits(log)
  {
    if log == [] then []
    else var w := log[|log| - 1]; Flatten(log[..|log| - 1]) + Bytes(w.m, w.key)[..w.sent]
  }

  /** The messages in the order they were handed over. */
  function Messages(log: seq<Write>): seq<Message> {
    if log == [] then [] else Messages(log[..|log| - 1]) + [log[|log| - 1].m]
  }

  lemma OneMore(log: seq<Write>, w: Write)
    requires Fits(log) && w.sent <= |Bytes(w.m, w.key)|
    ensures Fits(log + [w]) && Flatten(log + [w]) == Flatten(log) + Bytes(w.m, w.key)[..w.sent]
    ensures Messages(log + [w]) == Messages(log) + [w.m]
  {
    assert (log + [w])[..|log|] == log;
  }

  /** What a frame asks for in reply: a ping its pong, any other frame nothing. */
  function Reply(f: Frame): seq<Message> {
    if f.opcode == PING then [Message(PONG, f.payload)] else []
  }

  /** The pongs the frames ask for, in order. */
  function Replies(fs: seq<Frame>): seq<Message> {
    if fs == [] then [] else Reply(fs[0]) + Replies(fs[1..])
  }

  // --------------------------------------------------- what a Read amounts to

  /** Everything a Read depends on but the bytes of the mask keys. */
  datatype World = World(inbox: seq<Byte>, inScript: seq<Event>, outScript: seq<Event>, now: int)

  /** The world once `k` more bytes have been read. */
  function After(w: World, k: nat, rest: seq<Event>, now: int): World
    requires k <= |w.inbox|
  {
    World(w.inbox[k..], rest, w.outScript, now)
  }

  /** One frame: the header by the poll's deadline, the rest by a budget of its
      own, so a frame that has started is never reported as a timeout. */
  datatype Got = Got(rc: int, used: nat, rest: seq<Event>, now: int)

  function ReadFrame(s: seq<Byte>, script: seq<Event>, now: int, deadline: int): (r: Got)
    ensures r.used <= |s| && r.rc in {1, 0, -1}
    ensures r.rc == 1 <==> Parse(s).Parsed? && r.used == Parse(s).used
    ensures r.rc == 0 ==> r.used < 2 && r.now >= deadline
  {
    var h := Feed(script, 2, |s|, now, deadline);
    if h.rc != 1 then Got(h.rc, h.got, h.rest, h.now)
    else
      AfterHeader(s);
      var t := ReadTail(s[1], s[2..], h.rest, h.now, h.now + FRAME_BUDGET);
      t.(used := 2 + t.used)
  }

  /** What follows the header `_, b`: the payload length and the payload. */
  function TailLength(b: Byte, s: seq<Byte>): nat
    requires |s| >= ExtLength(b)
  {
    if ExtLength(b) == 0 then Low(b) as nat else FromBigEndian(s[..ExtLength(b)])
  }

  function TailPayload(b: Byte, s: seq<Byte>): seq<Byte>
    requires |s| >= ExtLength(b) && |s| >= ExtLength(b) + KeyLength(b) + TailLength(b, s)
  {
    BodyPayload(KeyLength(b), TailLength(b, s), s[ExtLength(b)..])
  }

  function BodyPayload(keyLen: nat, len: nat, s: seq<Byte>): seq<Byte>
    requires keyLen in {0, 4} && |s| >= keyLen + len
  {
    var raw := s[keyLen..keyLen + len];
    if keyLen == 0 then raw else Masked(raw, s[..keyLen])
  }

  /** How long the first frame is, told from what follows its header. */
  lemma AfterHeader(s: seq<Byte>)
    requires |s| >= 2
    ensures var b, t, e := s[1], s[2..], ExtLength(s[1]);
            && (Parse(s).Parsed? <==>
                  && |t| >= e && TailLength(b, t) <= MAX_PAYLOAD
                  && |t| >= e + KeyLength(b) + TailLength(b, t))
            && (Parse(s).Parsed? ==> Parse(s).used == 2 + e + KeyLength(b) + TailLength(b, t))
  {
    var b, t, e := s[1], s[2..], ExtLength(s[1]);
    if |t| >= e {
      assert t[..e] == s[2..2 + e];
    }
  }

  /** And what its payload is. */
  lemma AfterHeaderPayload(s: seq<Byte>)
    requires Parse(s).Parsed?
    ensures |s| - 2 >= ExtLength(s[1])
    ensures |s| - 2 >= ExtLength(s[1]) + KeyLength(s[1]) + TailLength(s[1], s[2..])
    ensures Parse(s).frame == Frame(Top(s[0]), s[0] % 16, TailPayload(s[1], s[2..]))
  {
    hide Masked, FromBigEndian;
    var t, e, k := s[2..], ExtLength(s[1]), KeyLength(s[1]);
    assert t[..e] == s[2..2 + e];
    BodySlices(s, 2 + e, k, PayloadLength(s));
    assert t[e..] == s[2 + e..];
  }

  lemma BodySlices(s: seq<Byte>, at: nat, k: nat, n: nat)
    requires at + k + n <= |s|
    ensures s[at..][..k] == s[at..at + k]
    ensures s[at..][k..k + n] == s[at + k..at + k + n]
  {
  }

  function ReadTail(b: Byte, s: seq<Byte>, script: seq<Event>, now: int, budget: int): (t: Got)
    ensures t.used <= |s| && t.rc in {1, -1}
    ensures t.rc == 1 <==>
            && |s| >= ExtLength(b) && TailLength(b, s) <= MAX_PAYLOAD
            && t.used == ExtLength(b) + KeyLength(b) + TailLength(b, s)
  {
    var x := Feed(script, ExtLength(b), |s|, now, budget);
    if x.rc != 1 || TailLength(b, s) > MAX_PAYLOAD then Got(-1, x.got, x.rest, x.now)
    else
      var r := ReadBody(x.rest, KeyLength(b), TailLength(b, s), |s| - x.got, x.now, budget);
      r.(used := x.got + r.used)
  }

  /** Mask key and payload. */
  function ReadBody(script: seq<Event>, keyLen: nat, len: nat, avail: nat, now: int, budget: int): (b: Got)
    ensures b.used <= avail && b.rc in {1, -1} && b.used <= keyLen + len
    ensures b.rc == 1 <==> b.used == keyLen + len
  {
    var k := Feed(script, keyLen, avail, now, budget);
    if k.rc != 1 then Got(-1, k.got, k.rest, k.now)
    else
      var b := Feed(k.rest, len, avail - keyLen, k.now, budget);
      Got(if b.rc == 1 then 1 else -1, keyLen + b.got, b.rest, b.now)
  }

  /** `seen` are the control frames skipped, `pongs` the replies written,
      `lost` the header bytes consumed by a poll that timed out. */
  datatype Outcome =
    Outcome(rc: int, frame: Frame, seen: seq<Frame>, pongs: seq<Message>, lost: nat, w: World)

  const NO_FRAME := Frame(true, 0, [])

  /** One frame read off the socket; a ping also gets its pong. */
  function Taken(w: World, deadline: int): (r: Outcome)
    ensures |r.w.inbox| <= |w.inbox|
    ensures r.rc == 1 ==> |r.w.inbox| < |w.inbox|
    ensures r.seen == [] && r.pongs == []
  {
    var g := ReadFrame(w.inbox, w.inScript, w.now, deadline);
    var w1 := After(w, g.used, g.rest, g.now);
    if g.rc != 1 then Outcome(g.rc, NO_FRAME, [], [], if g.rc == 0 then g.used else 0, w1)
    else
      var f := Parse(w.inbox).frame;
      if f.opcode != PING then Outcome(1, f, [], [], 0, w1)
      else
        var p := Push(w1.outScript, FrameSize(|f.payload|), w1.now, deadline);
        Outcome(1, f, [], [], 0, w1.(outScript := p.rest, now := p.now))
  }

  function ReadResult(w: World, deadline: int): (r: Outcome)
    decreases |w.inbox|
  {
    var t := Taken(w, deadline);
    if t.rc == 1 && Control(t.frame) then Resumed([t.frame], Reply(t.frame), ReadResult(t.w, deadline)) else t
  }

  /** Control frames skipped and pongs written earlier, in front of an outcome. */
  function Resumed(seen: seq<Frame>, pongs: seq<Message>, r: Outcome): Outcome {
    r.(seen := seen + r.seen, pongs := pongs + r.pongs)
  }

  lemma ResumedTwice(seen: seq<Frame>, pongs: seq<Message>, f: Frame, r: Outcome)
    ensures Resumed(seen, pongs, Resumed([f], Reply(f), r)) == Resumed(seen + [f], pongs + Reply(f), r)
  {
    assert seen + ([f] + r.seen) == seen + [f] + r.seen;
    assert pongs + (Reply(f) + r.pongs) == pongs + Reply(f) + r.pongs;
  }

  /** Each ping skipped is answered once, in order, and nothing else is written: a
      frame with opcode 9 by a message with opcode 10 and the same payload. */
  lemma {:induction false} PingsAnswered(w: World, deadline: int)
    ensures ReadResult(w, deadline).pongs == Replies(ReadResult(w, deadline).seen)
    ensures forall f :: Reply(f) == if f.opcode == 9 then [Message(10, f.payload)] else []
    decreases |w.inbox|
  {
    var t := Taken(w, deadline);
    if t.rc == 1 && Control(t.frame) {
      PingsAnswered(t.w, deadline);
      assert ([t.frame] + ReadResult(t.w, deadline).seen)[1..] == ReadResult(t.w, deadline).seen;
    }
  }

  lemma StartsCons(s: seq<Byte>, fs: seq<Frame>)
    requires Parse(s).Parsed? && Starts(s[Parse(s).used..], fs)
    ensures var gs := [Parse(s).frame] + fs;
            Starts(s, gs) && Length(s, gs) == Parse(s).used + Length(s[Parse(s).used..], fs)
  {
    assert ([Parse(s).frame] + fs)[1..] == fs;
  }

  lemma SuffixOfSuffix(s: seq<Byte>, m: nat, n: nat)
    requires m + n <= |s|
    ensures s[m..][n..] == s[m + n..]
  {
  }

  /** Read only ever moves over whole frames.  Success: the control frames it
      skipped and then the message it returns.  Timeout: the control frames and
      at most one more byte, and the deadline has passed. */
  predicate Sound(s: seq<Byte>, r: Outcome, deadline: int) {
    && (forall i :: 0 <= i < |r.seen| ==> r.seen[i].opcode == 9 || r.seen[i].opcode == 10)
    && Starts(s, r.seen)
    && (r.rc == 1 ==>
          && r.frame.opcode != 9 && r.frame.opcode != 10 && Starts(s, r.seen + [r.frame])
          && r.w.inbox == s[Length(s, r.seen + [r.frame])..])
    && (r.rc == 0 ==>
          && r.lost <= 1 && Length(s, r.seen) + r.lost <= |s| && r.w.now >= deadline
          && r.w.inbox == s[Length(s, r.seen) + r.lost..])
  }

  lemma SoundCons(s: seq<Byte>, r: Outcome, deadline: int)
    requires Parse(s).Parsed? && Control(Parse(s).frame) && Sound(s[Parse(s).used..], r, deadline)
    ensures Sound(s, Resumed([Parse(s).frame], Reply(Parse(s).frame), r), deadline)
  {
    hide Parse, Reply;
    var f, t := Parse(s).frame, s[Parse(s).used..];
    StartsCons(s, r.seen);
    if r.rc == 1 {
      StartsCons(s, r.seen + [r.frame]);
      assert [f] + r.seen + [r.frame] == [f] + (r.seen + [r.frame]);
      SuffixOfSuffix(s, Parse(s).used, Length(t, r.seen + [r.frame]));
    } else if r.rc == 0 {
      SuffixOfSuffix(s, Parse(s).used, Length(t, r.seen) + r.lost);
    }
  }

  lemma {:induction false} ReadSound(w: World, deadline: int)
    ensures Sound(w.inbox, ReadResult(w, deadline), deadline)
    decreases |w.inbox|
  {
    var t := Taken(w, deadline);
    if t.rc == 1 {
      if Control(t.frame) {
        ReadSound(t.w, deadline);
        SoundCons(w.inbox, ReadResult(t.w, deadline), deadline);
      } else {
        StartsCons(w.inbox, []);
        assert [] + [t.frame] == [t.frame] + [];
      }
    }
  }

  lemma {:induction false} SameFrames(s: seq<Byte>, fs: seq<Frame>, gs: seq<Frame>)
    requires Starts(s, fs) && Starts(s, gs) && |fs| <= |gs|
    ensures fs == gs[..|fs|]
    decreases |fs|
  {
    if fs != [] {
      SameFrames(s[Parse(s).used..], fs[1..], gs[1..]);
      assert fs == [fs[0]] + fs[1..] && gs[..|fs|] == [gs[0]] + gs[1..][..|fs| - 1];
    }
  }

  /** Reading does not depend on how the bytes are cut into portions: whatever
      the events, two successful Reads of the same bytes return the same message
      and leave the same bytes behind. */
  lemma SegmentationIndependent(v: World, w: World, d: int, e: int)
    requires v.inbox == w.inbox && ReadResult(v, d).rc == 1 && ReadResult(w, e).rc == 1
    ensures ReadResult(v, d).frame == ReadResult(w, e).frame
    ensures ReadResult(v, d).w.inbox == ReadResult(w, e).w.inbox
  {
    var p, q := ReadResult(v, d), ReadResult(w, e);
    ReadSound(v, d);
    ReadSound(w, e);
    if |p.seen| <= |q.seen| {
      FirstMessage(v.inbox, p.seen, p.frame, q.seen, q.frame);
    } else {
      FirstMessage(v.inbox, q.seen, q.frame, p.seen, p.frame);
    }
  }

  lemma FirstMessage(s: seq<Byte>, fs: seq<Frame>, f: Frame, gs: seq<Frame>, g: Frame)
    requires AllControl(fs) && AllControl(gs) && !Control(f) && !Control(g) && |fs| <= |gs|
    requires Starts(s, fs + [f]) && Starts(s, gs + [g])
    ensures fs == gs && f == g
  {
    SameFrames(s, fs + [f], gs + [g]);
    assert (fs + [f])[|fs|] == (gs + [g])[|fs|];
    assert (gs + [g])[..|fs + [f]|][..|fs|] == (fs + [f])[..|fs|];
  }

  lemma Appended(before: seq<Byte>, buf: seq<Byte>, off: nat, rc: nat)
    requires off + rc <= |buf|
    ensures before + buf[..off] + buf[off..off + rc] == before + buf[..off + rc]
  {
  }

  lemma Portion(all: seq<Byte>, off: nat, got: nat)
    requires off + got <= |all|
    ensures all[..off] + all[off..off + got] == all[..off + got]
    ensures all[off..][..got] == all[off..off + got] && all[off..][got..] == all[off + got..]
  {
  }

  predicate PushedAfter(p: Pushed, off: nat, q: Pushed) {
    p == Pushed(q.ok, q.sent + off, q.rest, q.now)
  }

  predicate FedAfter(f: Fed, off: nat, g: Fed) {
    f == Fed(g.rc, g.got + off, g.rest, g.now)
  }

  /** One round of WriteAll. */
  lemma PushTurn(script: seq<Event>, n: nat, now: int, deadline: int)
    ensures n == 0 ==> Push(script, n, now, deadline) == Pushed(true, 0, script, now)
    ensures n > 0 && script == [] ==> Push(script, n, now, deadline) == Pushed(false, 0, [], now)
    ensures n > 0 && script != [] ==>
              match Transmit(script[0], n, now, deadline)
              case Ends(_, t) => Push(script, n, now, deadline) == Pushed(false, 0, script[1..], t)
              case Moves(k, t) =>
                PushedAfter(Push(script, n, now, deadline), k, Push(script[1..], n - k, t, deadline))
  {
  }

  /** One round of ReadExact. */
  lemma FeedTurn(script: seq<Event>, n: nat, avail: nat, now: int, deadline: int)
    ensures n == 0 ==> Feed(script, n, avail, now, deadline) == Fed(1, 0, script, now)
    ensures n > 0 && script == [] ==> Feed(script, n, avail, now, deadline) == Fed(-1, 0, [], now)
    ensures n > 0 && script != [] ==>
              match Receive(script[0], n, avail, now, deadline)
              case Ends(rc, t) => Feed(script, n, avail, now, deadline) == Fed(rc, 0, script[1..], t)
              case Moves(k, t) =>
                FedAfter(Feed(script, n, avail, now, deadline), k,
                         Feed(script[1..], n - k, avail - k, t, deadline))
  {
  }

  /** The socket layer of WsClient.  `net` is what the class does not control:
      the socket's two directions and the clock. */
  class Client {
    var net: World
    var wire: seq<Byte>        // everything the peer can receive from us
    var writeTimeout: int
    ghost var log: seq<Write>

    ghost predicate Valid()
      reads this
    {
      Fits(log) && wire == Flatten(log)
    }

    constructor (w: World)
      ensures Valid() && log == [] && net == w && writeTimeout == 30000
    {
      net, wire, log, writeTimeout := w, [], [], 30000;
    }

    method Send(n: nat, deadline: int) returns (t: Turn)
      requires net.outScript != []
      modifies this`net
      ensures t == Transmit(old(net).outScript[0], n, old(net).now, deadline)
      ensures net == old(net).(outScript := old(net).outScript[1..], now := t.at)
    {
      var what := net.outScript[0].what;
      net := net.(outScript := net.outScript[1..], now := net.now + net.outScript[0].dt);
      if deadline - net.now <= 0 || what == Failed {
        t := Ends(0, net.now);
      } else if what == Silence {
        net := net.(now := deadline);
        t := Ends(0, net.now);
      } else if what == Again {
        t := Moves(0, net.now);
      } else {
        t := Moves(Min(what.k, n), net.now);
      }
    }

    /** WriteAll: a prefix of the buffer reaches the wire, all of it exactly when
        the call succeeds. */
    method WriteAll(buf: seq<Byte>, timeout: int) returns (ok: bool, ghost sent: nat)
      modifies this`wire, this`net
      ensures var p := Push(old(net).outScript, |buf|, old(net).now, old(net).now + timeout);
              && ok == p.ok && sent == p.sent && wire == old(wire) + buf[..p.sent]
              && net == old(net).(outScript := p.rest, now := p.now)
    {
      hide Push, Transmit;
      var deadline := net.now + timeout;
      var off: nat := 0;
      ok := true;
      ghost var p, before := Push(net.outScript, |buf|, net.now, deadline), wire;
      while ok && off < |buf|
        invariant off <= |buf| && wire == before + buf[..off] && net.inbox == old(net).inbox
        invariant net.inScript == old(net).inScript
        invariant ok ==> PushedAfter(p, off, Push(net.outScript, |buf| - off, net.now, deadline))
        invariant !ok ==> p == Pushed(false, off, net.outScript, net.now)
        decreases ok, |net.outScript|
      {
        PushTurn(net.outScript, |buf| - off, net.now, deadline);
        if net.outScript == [] {
          ok := false;
        } else {
          var t := Send(|buf| - off, deadline);
          if t.Ends? {
            ok := false;
          } else {
            Appended(before, buf, off, t.k);
            wire := wire + buf[off..off + t.k];
            off := off + t.k;
          }
        }
      }
      PushTurn(net.outScript, 0, net.now, deadline);
      sent := off;
    }

    /** Encodes a message and writes the frame, under the write lock. */
    method WriteFrame(m: Message, key: Key, timeout: int) returns (ok: bool)
      requires Valid()
      modifies this`wire, this`net, this`log
      ensures Valid()
      ensures var p := Push(old(net).outScript, FrameSize(|m.payload|), old(net).now, old(net).now + timeout);
              && ok == p.ok && log == old(log) + [Write(m, key, p.sent)]
              && net == old(net).(outScript := p.rest, now := p.now)
      ensures Messages(log) == Messages(old(log)) + [m]
    {
      var frame := EncodeWsFrame(m.opcode, m.payload, Some(key));
      ghost var sent;
      ok, sent := WriteAll(frame, timeout);
      BytesSize(m, key);
      OneMore(log, Write(m, key, sent));
      log := log + [Write(m, key, sent)];
    }

    /** SendText: one text frame, whole on the wire exactly when the call succeeds. */
    method SendText(text: seq<Byte>, key: Key) returns (ok: bool)
      requires Valid()
      modifies this`wire, this`net, this`log
      ensures Valid() && Messages(log) == Messages(old(log)) + [Message(1, text)]
      ensures ok == Push(old(net).outScript, FrameSize(|text|), old(net).now, old(net).now + writeTimeout).ok
      ensures |log| == |old(log)| + 1 && log[..|old(log)|] == old(log) && (ok <==> WholeWrite(log[|old(log)|]))
    {
      ok := WriteFrame(Message(TEXT, text), key, writeTimeout);
      BytesSize(Message(TEXT, text), key);
    }

    /** SendBinary: the same with a binary frame. */
    method SendBinary(data: seq<Byte>, key: Key) returns (ok: bool)
      requires Valid()
      modifies this`wire, this`net, this`log
      ensures Valid() && Messages(log) == Messages(old(log)) + [Message(2, data)]
      ensures ok == Push(old(net).outScript, FrameSize(|data|), old(net).now, old(net).now + writeTimeout).ok
      ensures |log| == |old(log)| + 1 && log[..|old(log)|] == old(log) && (ok <==> WholeWrite(log[|old(log)|]))
    {
      ok := WriteFrame(Message(BINARY, data), key, writeTimeout);
      BytesSize(Message(BINARY, data), key);
    }

    method Recv(n: nat, deadline: int) returns (t: Turn)
      requires net.inScript != []
      modifies this`net
      ensures t == Receive(old(net).inScript[0], n, |old(net).inbox|, old(net).now, deadline)
      ensures net == old(net).(inScript := old(net).inScript[1..], now := t.at)
    {
      var what := net.inScript[0].what;
      net := net.(inScript := net.inScript[1..], now := net.now + net.inScript[0].dt);
      if deadline - net.now <= 0 {
        t := Ends(0, net.now);
      } else if what == Silence {
        net := net.(now := deadline);
        t := Ends(0, net.now);
      } else if what == Failed {
        t := Ends(-1, net.now);
      } else if what == Again {
        t := Moves(0, net.now);
      } else {
        var take := Min(Min(what.k, n), |net.inbox|);
        t := if take == 0 && n > 0 then Ends(-1, net.now) else Moves(take, net.now);
      }
    }

    /** ReadExact: as many of the next `n` bytes as arrive, in whatever portions;
        1 for all of them, 0 for a timeout, -1 for an error. */
    method ReadExact(n: nat, deadline: int) returns (rc: int, buf: seq<Byte>)
      modifies this`net
      ensures var f := Feed(old(net).inScript, n, |old(net).inbox|, old(net).now, deadline);
              && rc == f.rc && buf == old(net).inbox[..f.got]
              && net == After(old(net), f.got, f.rest, f.now)
    {
      hide Feed, Receive;
      var off: nat := 0;
      buf, rc := [], 1;
      ghost var all, f := net.inbox, Feed(net.inScript, n, |net.inbox|, net.now, deadline);
      while rc == 1 && off < n
        invariant off <= n && off <= |all| && buf == all[..off] && net.inbox == all[off..]
        invariant net.outScript == old(net).outScript
        invariant rc == 1 ==> FedAfter(f, off, Feed(net.inScript, n - off, |all| - off, net.now, deadline))
        invariant rc != 1 ==> f == Fed(rc, off, net.inScript, net.now)
        decreases rc == 1, |net.inScript|
      {
        FeedTurn(net.inScript, n - off, |all| - off, net.now, deadline);
        if net.inScript == [] {
          rc := -1;
        } else {
          var t := Recv(n - off, deadline);
          if t.Ends? {
            rc := t.rc;
          } else {
            Portion(all, off, t.k);
            buf := buf + net.inbox[..t.k];
            net := net.(inbox := net.inbox[t.k..]);
            off := off + t.k;
          }
        }
      }
      FeedTurn(net.inScript, 0, |all| - off, net.now, deadline);
    }

    /** Network byte order to a number. */
    method DecodeLength(ext: seq<Byte>) returns (len: nat)
      ensures len == FromBigEndian(ext)
    {
      len := 0;
      var i := 0;
      while i < |ext|
        invariant i <= |ext| && len == FromBigEndian(ext[..i])
      {
        assert ext[..i + 1][..i] == ext[..i];
        len := len * 256 + ext[i] as nat;
        i := i + 1;
      }
      assert ext[..i] == ext;
    }

    method Unmask(raw: seq<Byte>, key: seq<Byte>) returns (payload: seq<Byte>)
      requires |key| == 4
      ensures payload == Masked(raw, key)
    {
      payload := raw;
      var i := 0;
      while i < |raw|
        invariant i <= |raw| == |payload| && payload[i..] == raw[i..]
        invariant payload[..i] == Masked(raw, key)[..i]
      {
        ghost var was := payload;
        payload := payload[i := Xor(payload[i], key[i % 4])];
        assert payload[..i] == was[..i] && was[i] == raw[i];
        i := i + 1;
      }
    }

    /** Mask key and payload. */
    method ReadPayload(keyLen: nat, len: nat, budget: int) returns (rc: int, payload: seq<Byte>)
      requires keyLen == 0 || keyLen == 4
      modifies this`net
      ensures var b := ReadBody(old(net).inScript, keyLen, len, |old(net).inbox|, old(net).now, budget);
              && rc == b.rc && net == After(old(net), b.used, b.rest, b.now)
              && (rc == 1 ==> payload == BodyPayload(keyLen, len, old(net).inbox))
    {
      hide Masked, Feed;
      ghost var s := net.inbox;
      var key;
      payload := [];
      rc, key := ReadExact(keyLen, budget);
      if rc != 1 {
        rc := -1;
        return;
      }
      rc, payload := ReadExact(len, budget);
      SuffixOfSuffix(s, keyLen, |payload|);
      if rc != 1 {
        rc := -1;
        return;
      }
      assert payload == s[keyLen..keyLen + len];
      if keyLen != 0 {
        payload := Unmask(payload, key);
      }
    }

    method ReadLength(b: Byte, budget: int) returns (rc: int, len: nat)
      modifies this`net
      ensures var x := Feed(old(net).inScript, ExtLength(b), |old(net).inbox|, old(net).now, budget);
              && rc == x.rc && net == After(old(net), x.got, x.rest, x.now)
              && (rc == 1 ==> len == TailLength(b, old(net).inbox))
    {
      len := Low(b) as nat;
      var ext;
      rc, ext := ReadExact(ExtLength(b), budget);
      if rc == 1 && ExtLength(b) != 0 {
        len := DecodeLength(ext);
      }
    }

    /** The rest of a frame whose header has been read. */
    method ReadAfterHeader(b: Byte, budget: int) returns (rc: int, payload: seq<Byte>)
      modifies this`net
      ensures var t := ReadTail(b, old(net).inbox, old(net).inScript, old(net).now, budget);
              && rc == t.rc && net == After(old(net), t.used, t.rest, t.now)
              && (rc == 1 ==> payload == TailPayload(b, old(net).inbox))
    {
      ghost var s := net.inbox;
      var len;
      payload := [];
      rc, len := ReadLength(b, budget);
      ghost var at, t := |s| - |net.inbox|, net.inbox;
      if rc != 1 || len > MAX_PAYLOAD {
        rc := -1;
        return;
      }
      rc, payload := ReadPayload(KeyLength(b), len, budget);
      SuffixOfSuffix(s, at, |t| - |net.inbox|);
    }

    /** The part of Read that takes one frame off the socket. */
    method ReadOne(deadline: int) returns (rc: int, out: Frame)
      modifies this`net
      ensures var g := ReadFrame(old(net).inbox, old(net).inScript, old(net).now, deadline);
              && rc == g.rc && net == After(old(net), g.used, g.rest, g.now)
              && (rc == 1 ==> out == Parse(old(net).inbox).frame)
    {
      ghost var s := net.inbox;
      var head, payload;
      out := NO_FRAME;
      rc, head := ReadExact(2, deadline);
      if rc != 1 {
        return;
      }
      assert head[0] == s[0] && head[1] == s[1];
      ghost var t := net.inbox;
      rc, payload := ReadAfterHeader(head[1], net.now + FRAME_BUDGET);
      SuffixOfSuffix(s, 2, |t| - |net.inbox|);
      AfterHeader(s);
      if rc == 1 {
        AfterHeaderPayload(s);
        out := Frame(Top(head[0]), head[0] % 16, payload);
      }
    }

    /** One turn of Read: a frame, and the pong if it is a ping. */
    method TakeOne(deadline: int, key: Key) returns (rc: int, out: Frame)
      requires Valid()
      modifies this`net, this`wire, this`log
      ensures Valid()
      ensures var t := Taken(old(net), deadline);
              rc == t.rc && net == t.w && (rc == 1 ==> out == t.frame)
      ensures Messages(log) == Messages(old(log)) + if rc == 1 then Reply(out) else []
    {
      hide ReadFrame, Parse, Push, Flatten, Fits;
      rc, out := ReadOne(deadline);
      if rc == 1 && out.opcode == PING {
        var _ := WriteFrame(Message(PONG, out.payload), key, deadline - net.now);
      }
    }

    /** Read: the next frame that is neither ping nor pong.  Each ping met on the
        way is answered by one pong, whether or not that pong can be written. */
    method Read(timeout: int, keys: nat -> Key) returns (rc: int, out: Frame)
      requires Valid()
      modifies this`net, this`wire, this`log
      ensures Valid()
      ensures var r := ReadResult(old(net), old(net).now + timeout);
              && rc == r.rc && (rc == 1 ==> out == r.frame && out.opcode != 9 && out.opcode != 10) && net == r.w
              && Messages(log) == Messages(old(log)) + r.pongs
    {
      hide Taken, Flatten, Fits;
      var deadline := net.now + timeout;
      ghost var r, seen, pongs := ReadResult(net, deadline), [], [];
      ghost var left := r;
      var n := 0;
      while true
        invariant Valid()
        invariant left == ReadResult(net, deadline) && r == Resumed(seen, pongs, left)
        invariant Messages(log) == Messages(old(log)) + pongs
        decreases |net.inbox|
      {
        rc, out := TakeOne(deadline, keys(n));
        if rc != 1 || !Control(out) {
          return;
        }
        left := ReadResult(net, deadline);
        ResumedTwice(seen, pongs, out, left);
        seen, pongs := seen + [out], pongs + Reply(out);
        n := n + 1;
      }
    }
  }
}
