/** Successive Reads over a stream of frames.  Between two calls anything may
    happen to the events, the outbound direction and the clock; only the bytes
    on their way stay. */
module WsStream {
  import opened Basics
  import opened WsCodec
  import opened WsClient

  // -------------------------------------------------------- what a peer sends

  datatype Sent = Sent(opcode: Byte, payload: seq<Byte>, key: Option<seq<Byte>>)

  predicate Legal(ms: seq<Sent>) {
    forall i :: 0 <= i < |ms| ==> ms[i].opcode < 16 && GoodKey(ms[i].key) && |ms[i].payload| <= MAX_PAYLOAD
  }

  function Stream(ms: seq<Sent>): seq<Byte>
    requires Legal(ms)
  {
    if ms == [] then [] else Encode(ms[0].opcode, ms[0].payload, ms[0].key) + Stream(ms[1..])
  }

  function Frames(ms: seq<Sent>): (fs: seq<Frame>)
    ensures |fs| == |ms|
  {
    seq(|ms|, i requires 0 <= i < |ms| => Frame(true, ms[i].opcode, ms[i].payload))
  }

  lemma Leading(e: seq<Byte>, s: seq<Byte>, tail: seq<Byte>)
    ensures e + s + tail == e + (s + tail) && (e + s + tail)[|e|..] == s + tail
  {
  }

  lemma {:induction false} FirstFrame(ms: seq<Sent>, tail: seq<Byte>)
    requires Legal(ms) && ms != []
    ensures var s, e := Stream(ms) + tail, Encode(ms[0].opcode, ms[0].payload, ms[0].key);
            && Parse(s) == Parsed(Frames(ms)[0], |e|) && 2 <= |e| <= |s|
            && s[|e|..] == Stream(ms[1..]) + tail
            && |Stream(ms)| == |e| + |Stream(ms[1..])|
  {
    hide Parse, Encode, Pow256;
    var e := Encode(ms[0].opcode, ms[0].payload, ms[0].key);
    Pow256Values();
    RoundTrip(ms[0].opcode, ms[0].payload, ms[0].key, Stream(ms[1..]) + tail);
    Leading(e, Stream(ms[1..]), tail);
  }

  /** The bytes of encoded frames start with exactly those frames. */
  lemma {:induction false} StreamStarts(ms: seq<Sent>, tail: seq<Byte>)
    requires Legal(ms)
    ensures Starts(Stream(ms) + tail, Frames(ms)) && Length(Stream(ms) + tail, Frames(ms)) == |Stream(ms)|
    decreases |ms|
  {
    hide Parse, Encode;
    if ms != [] {
      FirstFrame(ms, tail);
      StreamStarts(ms[1..], tail);
      assert Frames(ms)[1..] == Frames(ms[1..]);
    }
  }

  lemma FramesPrefix(ms: seq<Sent>, n: nat)
    requires 0 < n <= |ms|
    ensures Frames(ms[..n]) == [Frame(true, ms[0].opcode, ms[0].payload)] + Frames(ms[1..][..n - 1])
    ensures ms[1..][n - 1..] == ms[n..]
  {
    assert ms[..n][1..] == ms[1..][..n - 1];
  }

  /** Skipping the first frames of a stream leaves the stream of the others. */
  lemma {:induction false} Skipped(ms: seq<Sent>, fs: seq<Frame>)
    requires Legal(ms) && Starts(Stream(ms), fs)
    ensures |fs| <= |ms| && fs == Frames(ms[..|fs|])
    ensures Stream(ms)[Length(Stream(ms), fs)..] == Stream(ms[|fs|..])
    decreases |ms|
  {
    hide Parse, Encode;
    if fs == [] {
      assert ms[0..] == ms && ms[..0] == [];
    } else if ms == [] {
      NothingToParse();
    } else {
      hide Stream;
      FirstStep(ms);
      Skipped(ms[1..], fs[1..]);
      FramesPrefix(ms, |fs|);
      SuffixOfSuffix(Stream(ms), Parse(Stream(ms)).used, Length(Stream(ms[1..]), fs[1..]));
      assert fs == [fs[0]] + fs[1..];
    }
  }

  lemma {:induction false} FirstStep(ms: seq<Sent>)
    requires Legal(ms) && ms != []
    ensures Parse(Stream(ms)).Parsed? && Parse(Stream(ms)).frame == Frame(true, ms[0].opcode, ms[0].payload)
    ensures Stream(ms)[Parse(Stream(ms)).used..] == Stream(ms[1..])
  {
    hide Parse, Encode;
    FirstFrame(ms, []);
    assert Stream(ms) + [] == Stream(ms) && Stream(ms[1..]) + [] == Stream(ms[1..]);
  }

  lemma NothingToParse()
    ensures !Parse([]).Parsed?
  {
  }

  // ---------------------------------------------------------- calls to Read

  datatype Call = Call(inScript: seq<Event>, outScript: seq<Event>, now: int, deadline: int)

  function ReadCall(s: seq<Byte>, c: Call): Outcome {
    ReadResult(World(s, c.inScript, c.outScript, c.now), c.deadline)
  }

  /** The reader's loop: it reads until a Read fails. */
  function Reads(s: seq<Byte>, calls: seq<Call>): seq<Outcome>
    decreases |calls|
  {
    if calls == [] then []
    else
      var r := ReadCall(s, calls[0]);
      [r] + if r.rc < 0 then [] else Reads(r.w.inbox, calls[1..])
  }

  /** No error, and no header byte lost to a timeout. */
  predicate Clean(rs: seq<Outcome>) {
    forall i :: 0 <= i < |rs| ==> rs[i].rc >= 0 && rs[i].lost == 0
  }

  function Delivered(rs: seq<Outcome>): seq<Frame> {
    if rs == [] then [] else (if rs[0].rc == 1 then [rs[0].frame] else []) + Delivered(rs[1..])
  }

  function Written(rs: seq<Outcome>): seq<Message> {
    if rs == [] then [] else rs[0].pongs + Written(rs[1..])
  }

  /** The frames one Read moves over. */
  function Passed(r: Outcome): seq<Frame> {
    r.seen + if r.rc == 1 then [r.frame] else []
  }

  function AllPassed(rs: seq<Outcome>): seq<Frame> {
    if rs == [] then [] else Passed(rs[0]) + AllPassed(rs[1..])
  }

  /** The bytes left after the Reads. */
  function Left(s: seq<Byte>, rs: seq<Outcome>): seq<Byte> {
    if rs == [] then s else rs[|rs| - 1].w.inbox
  }

  function DataFrames(fs: seq<Frame>): seq<Frame> {
    if fs == [] then [] else (if Control(fs[0]) then [] else [fs[0]]) + DataFrames(fs[1..])
  }

  lemma {:induction false} DataFramesAppend(fs: seq<Frame>, gs: seq<Frame>)
    ensures DataFrames(fs + gs) == DataFrames(fs) + DataFrames(gs)
  {
    hide Control;
    if fs == [] {
      assert fs + gs == gs;
    } else {
      DataFramesAppend(fs[1..], gs);
      assert (fs + gs)[1..] == fs[1..] + gs;
      var first := if Control(fs[0]) then [] else [fs[0]];
      assert first + DataFrames(fs[1..]) + DataFrames(gs) == first + (DataFrames(fs[1..]) + DataFrames(gs));
    }
  }

  lemma {:induction false} RepliesAppend(fs: seq<Frame>, gs: seq<Frame>)
    ensures Replies(fs + gs) == Replies(fs) + Replies(gs)
  {
    hide Reply;
    if fs == [] {
      assert fs + gs == gs;
    } else {
      RepliesAppend(fs[1..], gs);
      assert (fs + gs)[1..] == fs[1..] + gs;
      var first := Reply(fs[0]);
      assert first + Replies(fs[1..]) + Replies(gs) == first + (Replies(fs[1..]) + Replies(gs));
    }
  }

  lemma {:induction false} OnlyControl(fs: seq<Frame>)
    requires AllControl(fs)
    ensures DataFrames(fs) == []
  {
    if fs != [] {
      OnlyControl(fs[1..]);
    }
  }

  /** What one clean Read does to a stream of frames. */
  lemma {:induction false} ReadMoves(ms: seq<Sent>, c: Call)
    requires Legal(ms) && ReadCall(Stream(ms), c).rc >= 0 && ReadCall(Stream(ms), c).lost == 0
    ensures var r := ReadCall(Stream(ms), c); var k := |Passed(r)|;
            && k <= |ms| && Passed(r) == Frames(ms[..k]) && r.w.inbox == Stream(ms[k..])
            && DataFrames(Passed(r)) == (if r.rc == 1 then [r.frame] else [])
            && r.pongs == Replies(Passed(r))
  {
    hide Parse, Encode, ReadResult;
    var w := World(Stream(ms), c.inScript, c.outScript, c.now);
    var r := ReadCall(Stream(ms), c);
    ReadSound(w, c.deadline);
    ReadCodes(w, c.deadline);
    PingsAnswered(w, c.deadline);
    OnlyControl(r.seen);
    var tail := if r.rc == 1 then [r.frame] else [];
    DataFramesAppend(r.seen, tail);
    RepliesAppend(r.seen, tail);
    assert r.seen + [] == r.seen;
    NoReply(tail);
    Skipped(ms, Passed(r));
  }

  lemma NoReply(fs: seq<Frame>)
    requires |fs| <= 1 && forall i :: 0 <= i < |fs| ==> !Control(fs[i])
    ensures Replies(fs) == []
  {
  }

  lemma {:induction false} ReadCodes(w: World, deadline: int)
    ensures ReadResult(w, deadline).rc in {1, 0, -1}
    decreases |w.inbox|
  {
    hide ReadFrame, Parse, Push;
    var t := Taken(w, deadline);
    if t.rc == 1 && Control(t.frame) {
      ReadCodes(t.w, deadline);
    }
  }

  /** As long as no Read fails or loses a header byte, the Reads have moved over
      the first k frames. */
  lemma {:induction false} CleanInOrder(ms: seq<Sent>, calls: seq<Call>)
    requires Legal(ms) && Clean(Reads(Stream(ms), calls))
    ensures var rs := Reads(Stream(ms), calls); var k := |AllPassed(rs)|;
            && k <= |ms| && Left(Stream(ms), rs) == Stream(ms[k..])
            && Delivered(rs) == DataFrames(Frames(ms[..k]))
            && Written(rs) == Replies(Frames(ms[..k]))
    decreases |calls|
  {
    hide Parse, Encode, ReadCall, Passed, Frames, Stream, DataFrames, Replies;
    var rs := Reads(Stream(ms), calls);
    if calls == [] {
      assert ms[0..] == ms;
      NoFrames(ms[..0]);
    } else {
      var r := ReadCall(Stream(ms), calls[0]);
      assert r == rs[0];
      ReadMoves(ms, calls[0]);
      var k := |Passed(r)|;
      var more := Reads(Stream(ms[k..]), calls[1..]);
      assert rs == [r] + more && rs[1..] == more;
      CleanInOrder(ms[k..], calls[1..]);
      var m := |AllPassed(more)|;
      Joined(ms, k, m);
      LeftAfter(Stream(ms), r, more);
      DataFramesAppend(Frames(ms[..k]), Frames(ms[k..][..m]));
      RepliesAppend(Frames(ms[..k]), Frames(ms[k..][..m]));
    }
  }

  lemma NoFrames(ms: seq<Sent>)
    requires ms == []
    ensures DataFrames(Frames(ms)) == [] && Replies(Frames(ms)) == []
  {
  }

  lemma LeftAfter(s: seq<Byte>, r: Outcome, more: seq<Outcome>)
    ensures Left(s, [r] + more) == Left(r.w.inbox, more)
    ensures AllPassed([r] + more) == Passed(r) + AllPassed(more)
    ensures Delivered([r] + more) == (if r.rc == 1 then [r.frame] else []) + Delivered(more)
    ensures Written([r] + more) == r.pongs + Written(more)
  {
    assert ([r] + more)[1..] == more;
  }

  lemma Joined(ms: seq<Sent>, k: nat, m: nat)
    requires k + m <= |ms|
    ensures ms[k..][m..] == ms[k + m..]
    ensures Frames(ms[..k + m]) == Frames(ms[..k]) + Frames(ms[k..][..m])
  {
    assert ms[..k + m] == ms[..k] + ms[k..][..m];
    FramesAppend(ms[..k], ms[k..][..m]);
  }

  lemma FramesAppend(a: seq<Sent>, b: seq<Sent>)
    ensures Frames(a + b) == Frames(a) + Frames(b)
  {
  }

  // ------------------------------------------------ what the socket must do

  /** What follows a header arrives within the budget of its frame. */
  predicate BodyArrives(b: Byte, s: seq<Byte>, script: seq<Event>, now: int) {
    var budget := now + FRAME_BUDGET;
    var x := Feed(script, ExtLength(b), |s|, now, budget);
    x.rc == 1 &&
    var k := Feed(x.rest, KeyLength(b), |s| - x.got, x.now, budget);
    k.rc == 1 && Feed(k.rest, TailLength(b, s), |s| - x.got - k.got, k.now, budget).rc == 1
  }

  /** The events of a Read deliver each header whole, or nothing of it by the
      deadline of the poll, and each started frame inside its budget. */
  predicate Punctual(w: World, deadline: int)
    decreases |w.inbox|
  {
    var h := Feed(w.inScript, 2, |w.inbox|, w.now, deadline);
    if h.rc != 1 then h.rc == 0 && h.got == 0
    else
      && BodyArrives(w.inbox[1], w.inbox[2..], h.rest, h.now)
      && var t := Taken(w, deadline);
         t.rc == 1 && Control(t.frame) ==> Punctual(t.w, deadline)
  }

  predicate PunctualCalls(s: seq<Byte>, calls: seq<Call>)
    decreases |calls|
  {
    calls == [] ||
    var w := World(s, calls[0].inScript, calls[0].outScript, calls[0].now);
    Punctual(w, calls[0].deadline) && PunctualCalls(ReadCall(s, calls[0]).w.inbox, calls[1..])
  }

  /** For one frame: its bytes arrive exactly when they can be read. */
  lemma FrameArrives(s: seq<Byte>, script: seq<Event>, now: int, deadline: int)
    requires |s| >= 2 ==> Parse(s).Parsed?
    ensures var h, g := Feed(script, 2, |s|, now, deadline), ReadFrame(s, script, now, deadline);
            && (h.rc == 1 ==> (g.rc == 1 <==> BodyArrives(s[1], s[2..], h.rest, h.now)) && g.rc != 0)
            && (h.rc != 1 ==> g.rc == h.rc && g.used == h.got)
  {
    hide Parse, Feed;
    if |s| >= 2 {
      AfterHeader(s);
    }
  }

  /** On a stream of frames the events are punctual exactly when the Read neither
      fails nor loses a header byte. */
  lemma {:induction false} PunctualIsClean(ms: seq<Sent>, w: World, deadline: int)
    requires Legal(ms) && w.inbox == Stream(ms)
    ensures Punctual(w, deadline) <==> ReadResult(w, deadline).rc >= 0 && ReadResult(w, deadline).lost == 0
    decreases |ms|
  {
    hide Parse, Encode, ReadFrame, BodyArrives, Push;
    if ms != [] {
      FirstFrame(ms, []);
      FirstStep(ms);
      assert Stream(ms) + [] == Stream(ms);
    }
    FrameArrives(w.inbox, w.inScript, w.now, deadline);
    var t := Taken(w, deadline);
    if t.rc == 1 && Control(t.frame) {
      if ms == [] {
        NothingToParse();
      } else {
        PunctualIsClean(ms[1..], t.w, deadline);
      }
    }
  }

  lemma {:induction false} PunctualCallsClean(ms: seq<Sent>, calls: seq<Call>)
    requires Legal(ms)
    ensures PunctualCalls(Stream(ms), calls) <==> Clean(Reads(Stream(ms), calls))
    decreases |calls|
  {
    hide Parse, Encode, ReadResult, Punctual, Stream;
    if calls != [] {
      var c := calls[0];
      var r := ReadCall(Stream(ms), c);
      PunctualIsClean(ms, World(Stream(ms), c.inScript, c.outScript, c.now), c.deadline);
      var more := if r.rc < 0 then [] else Reads(r.w.inbox, calls[1..]);
      assert Reads(Stream(ms), calls) == [r] + more;
      CleanCons(r, more);
      if r.rc >= 0 && r.lost == 0 {
        ReadMoves(ms, c);
        PunctualCallsClean(ms[|Passed(r)|..], calls[1..]);
      }
    }
  }

  lemma CleanCons(r: Outcome, more: seq<Outcome>)
    ensures Clean([r] + more) <==> r.rc >= 0 && r.lost == 0 && Clean(more)
  {
    var rs := [r] + more;
    assert rs[0] == r && forall i :: 0 <= i < |more| ==> rs[i + 1] == more[i];
  }

  /** Whatever portions the bytes come in, whatever happens between the calls: as
      long as each header arrives whole and each started frame inside its budget,
      no Read fails, the messages the Reads return are the data frames among the
      first k frames in order, the pongs written answer the pings among them in
      order, and the next Read starts on the boundary after the k-th frame. */
  lemma {:induction false} MessagesInOrder(ms: seq<Sent>, calls: seq<Call>)
    requires Legal(ms)
    ensures var rs := Reads(Stream(ms), calls); var k := |AllPassed(rs)|;
            PunctualCalls(Stream(ms), calls) ==>
              && Clean(rs) && k <= |ms| && Left(Stream(ms), rs) == Stream(ms[k..])
              && Delivered(rs) == DataFrames(Frames(ms[..k]))
              && Written(rs) == Replies(Frames(ms[..k]))
  {
    hide Reads, PunctualCalls, Stream;
    PunctualCallsClean(ms, calls);
    if PunctualCalls(Stream(ms), calls) {
      CleanInOrder(ms, calls);
    }
  }

  /** Once every byte has been read, exactly the data frames have been returned. */
  lemma {:induction false} NothingMissing(ms: seq<Sent>, calls: seq<Call>)
    requires Legal(ms)
    ensures var rs := Reads(Stream(ms), calls);
            PunctualCalls(Stream(ms), calls) && Left(Stream(ms), rs) == [] ==>
              Delivered(rs) == DataFrames(Frames(ms)) && Written(rs) == Replies(Frames(ms))
  {
    hide Reads, PunctualCalls;
    var rs := Reads(Stream(ms), calls);
    if PunctualCalls(Stream(ms), calls) && Left(Stream(ms), rs) == [] {
      MessagesInOrder(ms, calls);
      var k := |AllPassed(rs)|;
      if k < |ms| {
        FirstFrame(ms[k..], []);
      } else {
        assert ms[..k] == ms;
      }
    }
  }

  // ------------------------------------------------------- prompt delivery

  predicate AllReady(script: seq<Event>) {
    forall i :: 0 <= i < |script| ==> script[i].what.Ready? && script[i].what.k > 0
  }

  function Duration(script: seq<Event>): nat {
    if script == [] then 0 else script[0].dt + Duration(script[1..])
  }

  /** At least `n` more portions will arrive, all of them before `end`. */
  predicate Prompt(script: seq<Event>, n: nat, now: int, end: int) {
    AllReady(script) && n <= |script| && now + Duration(script) <= end
  }

  lemma {:induction false} FeedPrompt(script: seq<Event>, n: nat, more: nat, avail: nat, now: int, end: int,
                                      deadline: int)
    requires Prompt(script, n + more, now, end) && end < deadline && n <= avail
    ensures var f := Feed(script, n, avail, now, deadline); f.rc == 1 && Prompt(f.rest, more, f.now, end)
    decreases |script|
  {
    hide Receive;
    FeedTurn(script, n, avail, now, deadline);
    if n > 0 {
      ReceiveReady(script[0], n, avail, now, deadline);
      var k := Receive(script[0], n, avail, now, deadline).k;
      FeedPrompt(script[1..], n - k, more, avail - k, now + script[0].dt, end, deadline);
    }
  }

  lemma ReceiveReady(e: Event, n: nat, avail: nat, now: int, deadline: int)
    requires e.what.Ready? && e.what.k > 0 && now + e.dt < deadline && 0 < n <= avail
    ensures var t := Receive(e, n, avail, now, deadline); t.Moves? && 0 < t.k && t.at == now + e.dt
  {
  }

  lemma FramePrompt(s: seq<Byte>, script: seq<Event>, more: nat, now: int, end: int, deadline: int)
    requires Parse(s).Parsed? && Prompt(script, Parse(s).used + more, now, end)
    requires end < deadline && end - now < FRAME_BUDGET
    ensures var g := ReadFrame(s, script, now, deadline);
            g.rc == 1 && g.used == Parse(s).used && g.now >= now && Prompt(g.rest, more, g.now, end)
  {
    hide Parse, Feed, AllReady, Duration;
    AfterHeader(s);
    var b, t := s[1], s[2..];
    var e, k, n := ExtLength(b), KeyLength(b), TailLength(b, t);
    FeedPrompt(script, 2, e + k + n + more, |s|, now, end, deadline);
    var h := Feed(script, 2, |s|, now, deadline);
    var budget := h.now + FRAME_BUDGET;
    FeedPrompt(h.rest, e, k + n + more, |t|, h.now, end, budget);
    var x := Feed(h.rest, e, |t|, h.now, budget);
    FeedPrompt(x.rest, k, n + more, |t| - e, x.now, end, budget);
    var y := Feed(x.rest, k, |t| - e, x.now, budget);
    FeedPrompt(y.rest, n, more, |t| - e - k, y.now, end, budget);
  }

  /** The socket never leaves a write waiting until its deadline. */
  predicate NoSilence(script: seq<Event>) {
    forall i :: 0 <= i < |script| ==> !script[i].what.Silence?
  }

  lemma {:induction false} PushPrompt(script: seq<Event>, n: nat, now: int, deadline: int)
    requires NoSilence(script)
    ensures var p := Push(script, n, now, deadline);
            NoSilence(p.rest) && p.now + Duration(p.rest) <= now + Duration(script)
    decreases |script|
  {
    PushTurn(script, n, now, deadline);
    if n > 0 && script != [] {
      var t := Transmit(script[0], n, now, deadline);
      if t.Moves? {
        PushPrompt(script[1..], n - t.k, t.at, deadline);
      }
    }
  }

  /** A Read whose bytes arrive in any portions returns the first data frame sent,
      if they and the pongs it writes on the way leave it before its deadline and
      within the budget of one frame. */
  lemma {:induction false} PromptRead(ms: seq<Sent>, c: Call, end: int)
    requires Legal(ms) && DataFrames(Frames(ms)) != [] && NoSilence(c.outScript)
    requires Prompt(c.inScript, |Stream(ms)|, c.now, end - Duration(c.outScript))
    requires end < c.deadline && end - c.now < 10000
    ensures ReadCall(Stream(ms), c).rc == 1
    ensures ReadCall(Stream(ms), c).frame == DataFrames(Frames(ms))[0]
    decreases |ms|
  {
    hide Parse, Encode, ReadFrame, Duration, AllReady, NoSilence, Push;
    FirstFrame(ms, []);
    FirstStep(ms);
    assert Stream(ms) + [] == Stream(ms);
    var s, w := Stream(ms), World(Stream(ms), c.inScript, c.outScript, c.now);
    var f, more := Frames(ms)[0], |Stream(ms[1..])|;
    FramePrompt(s, c.inScript, more, c.now, end - Duration(c.outScript), c.deadline);
    TakenWhole(w, c.deadline);
    var t := Taken(w, c.deadline);
    assert Frames(ms)[1..] == Frames(ms[1..]);
    if Control(f) {
      PromptRead(ms[1..], Call(t.w.inScript, t.w.outScript, t.w.now, c.deadline), end);
    }
  }

  /** Taking a frame that arrives whole. */
  lemma TakenWhole(w: World, deadline: int)
    requires NoSilence(w.outScript) && ReadFrame(w.inbox, w.inScript, w.now, deadline).rc == 1
    ensures var g, t := ReadFrame(w.inbox, w.inScript, w.now, deadline), Taken(w, deadline);
            && t.rc == 1 && t.frame == Parse(w.inbox).frame
            && t.w.inbox == w.inbox[Parse(w.inbox).used..] && t.w.inScript == g.rest && t.w.now >= g.now
            && NoSilence(t.w.outScript) && t.w.now + Duration(t.w.outScript) <= g.now + Duration(w.outScript)
  {
    hide ReadFrame, Parse, Push, NoSilence, Duration;
    var g := ReadFrame(w.inbox, w.inScript, w.now, deadline);
    PushPrompt(w.outScript, FrameSize(|Parse(w.inbox).frame.payload|), g.now, deadline);
  }

  /** A frame is sent whole if the socket takes it, in any portions, before the
      deadline. */
  lemma {:induction false} PromptWrite(script: seq<Event>, n: nat, now: int, deadline: int)
    requires Prompt(script, n, now, deadline - 1)
    ensures Push(script, n, now, deadline).ok
    decreases |script|
  {
    PushTurn(script, n, now, deadline);
    if n > 0 {
      var t := Transmit(script[0], n, now, deadline);
      PromptWrite(script[1..], n - t.k, t.at, deadline);
    }
  }

  /** A frame that stops after its header is given up ten seconds later, with an
      error, however short the poll was. */
  lemma StalledFrame(s: seq<Byte>, now: int, deadline: int)
    requires |s| >= 2 && now < deadline && s[1] != 0
    ensures var g := ReadFrame(s, [Event(0, Ready(2)), Event(0, Silence)], now, deadline);
            g.rc == -1 && g.used == 2 && g.now == now + 10000
  {
    var script := [Event(0, Ready(2)), Event(0, Silence)];
    FeedTurn(script, 2, |s|, now, deadline);
    FeedTurn(script[1..], 0, |s| - 2, now, deadline);
    assert script[1..][0] == Event(0, Silence) && script[1..][1..] == [];
  }

  // --------------------------------------------------------- the lost byte

  lemma {:induction false} StreamShrinks(ms: seq<Sent>, j: nat, k: nat)
    requires Legal(ms) && j < k <= |ms|
    ensures |Stream(ms[k..])| + 2 <= |Stream(ms[j..])|
    decreases k - j
  {
    hide Parse, Encode;
    FirstFrame(ms[j..], []);
    assert ms[j..][1..] == ms[j + 1..];
    if j + 1 < k {
      StreamShrinks(ms, j + 1, k);
    }
  }

  /** How many bytes of the header it stops at the events of a Read deliver: they
      are dropped when the Read times out. */
  function HeaderBytes(w: World, deadline: int): nat
    decreases |w.inbox|
  {
    var t := Taken(w, deadline);
    if t.rc == 1 && Control(t.frame) then HeaderBytes(t.w, deadline)
    else Feed(w.inScript, 2, |w.inbox|, w.now, deadline).got
  }

  lemma {:induction false} LostBytes(w: World, deadline: int)
    requires ReadResult(w, deadline).rc == 0
    ensures ReadResult(w, deadline).lost == HeaderBytes(w, deadline)
    decreases |w.inbox|
  {
    hide Parse, Push, Feed;
    var t := Taken(w, deadline);
    if t.rc == 1 && Control(t.frame) {
      LostBytes(t.w, deadline);
    }
  }

  /** After a timeout the next Read starts on a frame boundary if and only if the
      socket delivered no byte of the header that the deadline cut off: with a data
      frame next, if and only if nothing arrived at all. */
  lemma {:induction false} TimeoutBoundary(ms: seq<Sent>, c: Call)
    requires Legal(ms) && ReadCall(Stream(ms), c).rc == 0
    ensures var w := World(Stream(ms), c.inScript, c.outScript, c.now);
            var aligned := exists k :: 0 <= k <= |ms| && ReadCall(Stream(ms), c).w.inbox == Stream(ms[k..]);
            && (aligned <==> HeaderBytes(w, c.deadline) == 0)
            && (ms == [] || !Control(Frames(ms)[0]) ==>
                  (aligned <==> Feed(c.inScript, 2, |Stream(ms)|, c.now, c.deadline).got == 0))
  {
    hide Parse, Encode, ReadResult, Feed, ReadFrame, Push;
    var w := World(Stream(ms), c.inScript, c.outScript, c.now);
    LostBytes(w, c.deadline);
    LostBoundary(ms, c);
    if ms != [] {
      FirstStep(ms);
    } else {
      NothingToParse();
    }
  }

  lemma {:induction false} LostBoundary(ms: seq<Sent>, c: Call)
    requires Legal(ms) && ReadCall(Stream(ms), c).rc == 0
    ensures var r := ReadCall(Stream(ms), c);
            r.lost == 0 <==> exists k :: 0 <= k <= |ms| && r.w.inbox == Stream(ms[k..])
  {
    hide Parse, Encode, ReadResult;
    var r := ReadCall(Stream(ms), c);
    ReadSound(World(Stream(ms), c.inScript, c.outScript, c.now), c.deadline);
    Skipped(ms, r.seen);
    var j := |r.seen|;
    if r.lost == 0 {
      assert r.w.inbox == Stream(ms[j..]);
    } else {
      forall k | 0 <= k <= |ms|
        ensures |Stream(ms[k..])| != |r.w.inbox|
      {
        if j < k {
          StreamShrinks(ms, j, k);
        } else if k < j {
          StreamShrinks(ms, k, j);
        }
      }
    }
  }

  /** And a byte lost that way can make the next Read return a message nobody
      sent: one header byte by the deadline of the first call, the rest later. */
  lemma LostByteForges()
    ensures var ms := [Sent(BINARY, [0], None)];
            var first := ReadCall(Stream(ms), Call([Event(0, Ready(1)), Event(500, Silence)], [], 0, 500));
            var second := ReadCall(first.w.inbox, Call([Event(0, Ready(2))], [], 501, 1001));
            && Legal(ms) && first.rc == 0 && first.lost == 1
            && second.rc == 1 && second.frame == Frame(false, TEXT, [])
            && second.frame !in Frames(ms)
  {
    var ms := [Sent(BINARY, [0], None)];
    var s: seq<Byte> := [0x82, 0x01, 0x00];
    assert Encode(BINARY, [0], None) == s;
    assert Stream(ms) == s;
    var e := [Event(0, Ready(1)), Event(500, Silence)];
    assert Receive(e[0], 2, 3, 0, 500) == Moves(1, 0);
    assert Receive(e[1], 1, 2, 0, 500) == Ends(0, 500);
    assert e[1..] == [e[1]];
    assert Feed(e[1..], 1, 2, 0, 500).rc == 0 && Feed(e[1..], 1, 2, 0, 500).got == 0;
    assert Feed(e, 2, 3, 0, 500).got == 1 && Feed(e, 2, 3, 0, 500).rc == 0;
    var t := s[1..];
    assert t == [0x01, 0x00];
    var d := [Event(0, Ready(2))];
    assert Receive(d[0], 2, 2, 501, 1001) == Moves(2, 501);
    assert Feed(d, 2, 2, 501, 1001).rc == 1;
    assert Parse(t) == Parsed(Frame(false, TEXT, []), 2);
  }
}
