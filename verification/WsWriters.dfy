/** Any number of threads that send on one connection: application threads in
    SendText and SendBinary, the reader thread with its pongs.  Each encodes its
    frame, takes the socket's write lock, hands the frame to the socket in
    portions, and lets go of the lock, having succeeded or failed. */
module WsWriters {
  import opened Basics
  import opened WsCodec
  import opened WsClient
  import opened WsStream

  datatype Pc = Outside | Waiting(m: Sent) | Writing(m: Sent, off: nat)

  /** One WriteAll that has returned. */
  datatype Done = Done(who: nat, m: Sent, sent: nat)

  /** `begun[i]` are the messages thread i has set out to send, in its order. */
  datatype State = State(lock: Option<nat>, threads: seq<Pc>, wire: seq<Byte>,
                         log: seq<Done>, begun: seq<seq<Sent>>)

  datatype Act = Begin(m: Sent) | Lock | Portion(k: nat) | Return

  function Raw(m: Sent): seq<Byte>
    requires GoodKey(m.key)
  {
    Encode(m.opcode, m.payload, m.key)
  }

  predicate Enabled(s: State, i: nat, a: Act) {
    && i < |s.threads| && |s.begun| == |s.threads|
    && match (s.threads[i], a)
       case (Outside, Begin(m)) => GoodKey(m.key)
       case (Waiting(m), Lock) => s.lock == None
       case (Writing(m, off), Portion(k)) => GoodKey(m.key) && off + k <= |Raw(m)|
       case (Writing(m, off), Return) => true
       case _ => false
  }

  function Step(s: State, i: nat, a: Act): State
    requires Enabled(s, i, a)
  {
    match (s.threads[i], a)
    case (Outside, Begin(m)) => s.(threads := s.threads[i := Waiting(m)], begun := s.begun[i := s.begun[i] + [m]])
    case (Waiting(m), Lock) => s.(threads := s.threads[i := Writing(m, 0)], lock := Some(i))
    case (Writing(m, off), Portion(k)) =>
      s.(threads := s.threads[i := Writing(m, off + k)], wire := s.wire + Raw(m)[off..off + k])
    case (Writing(m, off), Return) =>
      s.(threads := s.threads[i := Outside], lock := None, log := s.log + [Done(i, m, off)])
    case _ => s
  }

  predicate Init(s: State) {
    && s.lock == None && s.wire == [] && s.log == [] && |s.begun| == |s.threads|
    && forall i :: 0 <= i < |s.threads| ==> s.threads[i] == Outside && s.begun[i] == []
  }

  datatype Turn = Turn(who: nat, act: Act)

  ghost predicate StepAt(ss: seq<State>, ts: seq<Turn>, n: nat)
    requires n + 1 < |ss| && |ts| + 1 == |ss|
  {
    Enabled(ss[n], ts[n].who, ts[n].act) && ss[n + 1] == Step(ss[n], ts[n].who, ts[n].act)
  }

  ghost predicate Run(ss: seq<State>, ts: seq<Turn>) {
    && |ss| == |ts| + 1 && Init(ss[0])
    && forall n :: 0 <= n < |ts| ==> StepAt(ss, ts, n)
  }

  // ------------------------------------------------------------- invariants

  predicate DoneFits(d: Done) {
    GoodKey(d.m.key) && d.sent <= |Raw(d.m)|
  }

  predicate LogFits(log: seq<Done>) {
    forall i :: 0 <= i < |log| ==> DoneFits(log[i])
  }

  /** A prefix of each frame, one frame after another, in the order of the lock. */
  function Flat(log: seq<Done>): seq<Byte>
    requires LogFits(log)
  {
    if log == [] then []
    else var d := log[|log| - 1]; Flat(log[..|log| - 1]) + Raw(d.m)[..d.sent]
  }

  predicate ThreadOk(s: State, i: nat)
    requires i < |s.threads|
  {
    match s.threads[i]
    case Outside => s.lock != Some(i)
    case Waiting(m) => s.lock != Some(i) && GoodKey(m.key)
    case Writing(m, off) => s.lock == Some(i) && GoodKey(m.key) && off <= |Raw(m)|
  }

  predicate Threads(s: State) {
    && (s.lock.Some? ==> s.lock.value < |s.threads| && s.threads[s.lock.value].Writing?)
    && forall i :: 0 <= i < |s.threads| ==> ThreadOk(s, i)
  }

  /** What the holder of the lock has handed to the socket so far. */
  function Partial(s: State): seq<Byte>
    requires Threads(s)
  {
    if s.lock == None then []
    else
      assert ThreadOk(s, s.lock.value);
      var t := s.threads[s.lock.value]; Raw(t.m)[..t.off]
  }

  /** The messages of one thread whose WriteAll has returned. */
  function Own(log: seq<Done>, i: nat): seq<Sent> {
    if log == [] then []
    else
      var d := log[|log| - 1];
      Own(log[..|log| - 1], i) + if d.who == i then [d.m] else []
  }

  function Pending(t: Pc): seq<Sent> {
    match t case Outside => [] case Waiting(m) => [m] case Writing(m, _) => [m]
  }

  predicate OrderAt(s: State, i: nat)
    requires i < |s.threads| == |s.begun|
  {
    s.begun[i] == Own(s.log, i) + Pending(s.threads[i])
  }

  ghost predicate Inv(s: State) {
    && |s.begun| == |s.threads| && Threads(s) && LogFits(s.log)
    && s.wire == Flat(s.log) + Partial(s)
    && forall i :: 0 <= i < |s.threads| ==> OrderAt(s, i)
  }

  lemma FlatMore(log: seq<Done>, d: Done)
    requires LogFits(log) && DoneFits(d)
    ensures LogFits(log + [d]) && Flat(log + [d]) == Flat(log) + Raw(d.m)[..d.sent]
  {
    assert (log + [d])[..|log|] == log;
  }

  lemma OwnMore(log: seq<Done>, d: Done, i: nat)
    ensures Own(log + [d], i) == Own(log, i) + if d.who == i then [d.m] else []
  {
    assert (log + [d])[..|log|] == log;
  }

  lemma {:induction false} StepThreads(s: State, i: nat, a: Act)
    requires Inv(s) && Enabled(s, i, a)
    ensures Threads(Step(s, i, a))
  {
    hide Raw;
    var t := Step(s, i, a);
    assert ThreadOk(s, i);
    if s.lock.Some? {
      assert ThreadOk(s, s.lock.value);
    }
    forall j | 0 <= j < |t.threads|
      ensures ThreadOk(t, j)
    {
      assert ThreadOk(s, j);
    }
  }

  lemma {:induction false} StepWire(s: State, i: nat, a: Act)
    requires Inv(s) && Enabled(s, i, a) && Threads(Step(s, i, a))
    ensures var t := Step(s, i, a); LogFits(t.log) && t.wire == Flat(t.log) + Partial(t)
  {
    hide Raw, Flat, LogFits, OrderAt;
    assert ThreadOk(s, i);
    if a.Return? {
      var m, off := s.threads[i].m, s.threads[i].off;
      FlatMore(s.log, Done(i, m, off));
      assert Partial(Step(s, i, a)) == [];
    } else if a.Portion? {
      Grown(Flat(s.log), Raw(s.threads[i].m), s.threads[i].off, a.k);
    } else {
      assert Partial(Step(s, i, a)) == Partial(s);
    }
  }

  lemma Grown(before: seq<Byte>, raw: seq<Byte>, off: nat, k: nat)
    requires off + k <= |raw|
    ensures before + raw[..off] + raw[off..off + k] == before + raw[..off + k]
  {
  }

  lemma {:induction false} StepOrder(s: State, i: nat, a: Act)
    requires Inv(s) && Enabled(s, i, a)
    ensures var t := Step(s, i, a);
            |t.begun| == |t.threads| && forall j :: 0 <= j < |t.threads| ==> OrderAt(t, j)
  {
    hide Raw, Flat, LogFits, Threads;
    var t := Step(s, i, a);
    forall j | 0 <= j < |t.threads|
      ensures OrderAt(t, j)
    {
      assert OrderAt(s, j);
      if a.Return? {
        OwnMore(s.log, Done(i, s.threads[i].m, s.threads[i].off), j);
      }
    }
  }

  /** In every run of any number of senders: the bytes on the wire are a prefix of
      each frame, frame after frame in the order the lock was taken, followed by
      what its holder has written; and each thread's messages are among them once
      each, in that thread's order. */
  lemma {:induction false} Conserved(ss: seq<State>, ts: seq<Turn>, n: nat)
    requires Run(ss, ts) && n < |ss|
    ensures Inv(ss[n])
    decreases n
  {
    hide Step, Threads, OrderAt, Enabled, LogFits;
    if n == 0 {
      AtStart(ss[0]);
    } else {
      Conserved(ss, ts, n - 1);
      assert StepAt(ss, ts, n - 1);
      StepThreads(ss[n - 1], ts[n - 1].who, ts[n - 1].act);
      StepWire(ss[n - 1], ts[n - 1].who, ts[n - 1].act);
      StepOrder(ss[n - 1], ts[n - 1].who, ts[n - 1].act);
    }
  }

  lemma {:induction false} AtStart(s: State)
    requires Init(s)
    ensures Inv(s)
  {
  }

  // ------------------------------------------------- whole frames only

  predicate Whole(d: Done) {
    GoodKey(d.m.key) && d.sent == |Raw(d.m)|
  }

  function Order(log: seq<Done>): seq<Sent> {
    if log == [] then [] else Order(log[..|log| - 1]) + [log[|log| - 1].m]
  }

  lemma {:induction false} StreamMore(ms: seq<Sent>, m: Sent)
    requires Legal(ms + [m])
    ensures Legal(ms) && GoodKey(m.key) && Stream(ms + [m]) == Stream(ms) + Raw(m)
  {
    hide Encode;
    assert (ms + [m])[|ms|] == m;
    assert forall i :: 0 <= i < |ms| ==> ms[i] == (ms + [m])[i];
    if ms == [] {
      assert ms + [m] == [m] && [m][1..] == [];
      assert Stream([m]) == Raw(m) + Stream([m][1..]) == Raw(m);
    } else {
      assert (ms + [m])[1..] == ms[1..] + [m] && (ms + [m])[0] == ms[0];
      StreamMore(ms[1..], m);
      Longer(Raw(ms[0]), Stream(ms[1..]), Raw(m));
    }
  }

  lemma Longer(a: seq<Byte>, b: seq<Byte>, c: seq<Byte>)
    ensures a + (b + c) == a + b + c
  {
  }

  /** The messages of the sends that succeeded. */
  function Kept(log: seq<Done>): seq<Sent> {
    if log == [] then []
    else
      var d := log[|log| - 1];
      Kept(log[..|log| - 1]) + if Whole(d) then [d.m] else []
  }

  /** A send that succeeded, or failed before its first byte: a pong for which no
      time is left, say. */
  predicate Untorn(d: Done) {
    Whole(d) || d.sent == 0
  }

  predicate AllUntorn(log: seq<Done>) {
    forall i :: 0 <= i < |log| ==> Untorn(log[i])
  }

  predicate AllWhole(log: seq<Done>) {
    forall i :: 0 <= i < |log| ==> Whole(log[i])
  }

  lemma {:induction false} KeptTurn(log: seq<Done>)
    requires LogFits(log) && log != [] && Legal(Kept(log))
    ensures var front, d := log[..|log| - 1], log[|log| - 1];
            && LogFits(front) && DoneFits(d) && Legal(Kept(front))
            && Stream(Kept(log)) == Stream(Kept(front)) + (if Whole(d) then Raw(d.m) else [])
            && Flat(log) == Flat(front) + Raw(d.m)[..d.sent]
            && (AllUntorn(log) <==> AllUntorn(front) && Untorn(d))
  {
    hide Encode, Raw, Stream, AllUntorn;
    var front, d := log[..|log| - 1], log[|log| - 1];
    if Whole(d) {
      StreamMore(Kept(front), d.m);
    } else {
      assert Kept(log) == Kept(front);
    }
    assert log == front + [d];
    UntornMore(front, d);
  }

  lemma UntornMore(log: seq<Done>, d: Done)
    ensures AllUntorn(log + [d]) <==> AllUntorn(log) && Untorn(d)
  {
    hide Untorn;
    var more := log + [d];
    assert more[|log|] == d && forall i :: 0 <= i < |log| ==> more[i] == log[i];
  }

  /** What goes out is the frames of the sends that succeeded, and more as soon as
      one frame is torn. */
  lemma {:induction false} FlatKept(log: seq<Done>)
    requires LogFits(log) && Legal(Kept(log))
    ensures |Stream(Kept(log))| <= |Flat(log)|
    ensures AllUntorn(log) ==> Flat(log) == Stream(Kept(log))
    ensures !AllUntorn(log) ==> |Stream(Kept(log))| < |Flat(log)|
  {
    hide Encode, Raw, Stream, Kept, Flat, AllUntorn, Legal;
    if log == [] {
      NoSends();
    } else {
      var front, d := log[..|log| - 1], log[|log| - 1];
      KeptTurn(log);
      FlatKept(front);
    }
  }

  lemma NoSends()
    ensures Flat([]) == Stream(Kept([])) == [] && AllUntorn([])
  {
  }

  /** In every run: the wire is the frames of the sends that succeeded, whole and in
      the order of the lock, followed by what its holder has written, if and only if
      every send that has returned either succeeded or failed before its first
      byte. */
  lemma {:induction false} NeverInterleaved(ss: seq<State>, ts: seq<Turn>, n: nat)
    requires Run(ss, ts) && n < |ss| && Legal(Kept(ss[n].log))
    ensures Threads(ss[n])
    ensures ss[n].wire == Stream(Kept(ss[n].log)) + Partial(ss[n]) <==> AllUntorn(ss[n].log)
  {
    hide Encode, Raw, Stream, Partial, Threads, LogFits, Flat, AllUntorn, Kept, Legal;
    Conserved(ss, ts, n);
    FlatKept(ss[n].log);
  }

  /** And then what has arrived decodes to exactly those messages, in that order,
      whatever the holder is still writing. */
  lemma {:induction false} DecodesInOrder(ss: seq<State>, ts: seq<Turn>, n: nat)
    requires Run(ss, ts) && n < |ss| && Legal(Kept(ss[n].log)) && AllUntorn(ss[n].log)
    ensures var s, fs := ss[n], Frames(Kept(ss[n].log));
            Starts(s.wire, fs) && Length(s.wire, fs) == |Stream(Kept(s.log))|
  {
    hide Starts, Length, Raw, Stream, Frames, Partial, Threads, LogFits, AllUntorn, Kept, Legal;
    NeverInterleaved(ss, ts, n);
    StreamStarts(Kept(ss[n].log), Partial(ss[n]));
  }

  /** In particular when every send has succeeded, which the callers can tell: then
      nothing handed over is missing. */
  lemma {:induction false} NothingDropped(ss: seq<State>, ts: seq<Turn>, n: nat)
    requires Run(ss, ts) && n < |ss| && AllWhole(ss[n].log) && Legal(Order(ss[n].log))
    ensures Threads(ss[n]) && ss[n].wire == Stream(Order(ss[n].log)) + Partial(ss[n])
  {
    hide Encode, Raw, Stream, Partial, Threads, Flat, Legal;
    AllKept(ss[n].log);
    NeverInterleaved(ss, ts, n);
  }

  lemma {:induction false} AllKept(log: seq<Done>)
    requires AllWhole(log)
    ensures Kept(log) == Order(log) && AllUntorn(log)
  {
    if log != [] {
      AllKept(log[..|log| - 1]);
    }
  }

  const KEY: Option<seq<Byte>> := Some([0, 0, 0, 0])
  const TORN := Done(0, Sent(BINARY, [1, 2], KEY), 7)
  const NEXT := Done(1, Sent(BINARY, [3], KEY), 7)

  const LATE := Done(0, Sent(PONG, [], KEY), 0)

  lemma LateSize()
    ensures |Raw(LATE.m)| == 6
  {
    EncodeSize(PONG, [], KEY);
  }

  /** A send may fail and leave the wire in order: a pong that no time was left for,
      in three steps. */
  lemma LatePong()
    ensures LogFits([LATE]) && !AllWhole([LATE]) && AllUntorn([LATE])
    ensures exists ss: seq<State>, ts: seq<Turn> :: Run(ss, ts) && ss[|ss| - 1].log == [LATE] && ss[|ss| - 1].wire == []
  {
    hide Raw;
    LateSize();
    assert !Whole([LATE][0]);
    var s0 := State(None, [Outside], [], [], [[]]);
    var s1 := Step(s0, 0, Begin(LATE.m));
    var s2 := Step(s1, 0, Lock);
    var s3 := Step(s2, 0, Return);
    var ss, ts := [s0, s1, s2, s3], [Turn(0, Begin(LATE.m)), Turn(0, Lock), Turn(0, Return)];
    assert Run(ss, ts) && ss[|ss| - 1].log == [LATE];
  }

  /** A send that fails in the middle spoils it: the session goes on, and the next
      frame's header is taken for the rest of the torn one's payload.  Two threads get there in
      eight steps. */
  lemma TornFrame()
    ensures LogFits([TORN, NEXT]) && Parse(Flat([TORN, NEXT])).Parsed?
    ensures Parse(Flat([TORN, NEXT])).frame == Frame(true, BINARY, [1, 0x82])
    ensures Parse(Flat([TORN, NEXT])).frame !in Frames(Order([TORN, NEXT]))
    ensures exists ss: seq<State>, ts: seq<Turn> ::
              Run(ss, ts) && ss[|ss| - 1].log == [TORN, NEXT] && ss[|ss| - 1].wire == Flat([TORN, NEXT])
  {
    hide Parse, Flat, LogFits, Order, Frames, Run, Partial, Threads;
    TornBytes();
    TornParse();
    OrderOfTwo(TORN, NEXT);
    FramesOfTwo(TORN.m, NEXT.m);
    assert Frame(true, BINARY, [1, 0x82]).payload[1] == 0x82;
    var ss, ts := TornRun();
    Conserved(ss, ts, |ss| - 1);
    NothingHeld(ss[|ss| - 1]);
  }

  lemma NothingHeld(s: State)
    requires Threads(s) && s.lock == None && LogFits(s.log)
    ensures Flat(s.log) + Partial(s) == Flat(s.log)
  {
  }

  /** Thread 0 sends seven of eight bytes and fails; thread 1 then succeeds. */
  lemma TornRun() returns (ss: seq<State>, ts: seq<Turn>)
    ensures Run(ss, ts) && |ss| > 0 && ss[|ss| - 1].log == [TORN, NEXT] && ss[|ss| - 1].lock == None
  {
    hide Raw;
    TornSizes();
    var s0 := State(None, [Outside, Outside], [], [], [[], []]);
    var s1 := Step(s0, 0, Begin(TORN.m));
    var s2 := Step(s1, 0, Lock);
    var s3 := Step(s2, 0, Portion(7));
    var s4 := Step(s3, 0, Return);
    var s5 := Step(s4, 1, Begin(NEXT.m));
    var s6 := Step(s5, 1, Lock);
    var s7 := Step(s6, 1, Portion(7));
    var s8 := Step(s7, 1, Return);
    ss := [s0, s1, s2, s3, s4, s5, s6, s7, s8];
    ts := [Turn(0, Begin(TORN.m)), Turn(0, Lock), Turn(0, Portion(7)), Turn(0, Return),
           Turn(1, Begin(NEXT.m)), Turn(1, Lock), Turn(1, Portion(7)), Turn(1, Return)];
    assert s4.log == [TORN] && s8.log == [TORN] + [NEXT] == [TORN, NEXT];
  }

  lemma TornSizes()
    ensures |Raw(TORN.m)| == 8 && |Raw(NEXT.m)| == 7
  {
    EncodeSize(BINARY, [1, 2], KEY);
    EncodeSize(BINARY, [3], KEY);
  }

  lemma TornParse()
    ensures Parse([0x82, 0x82, 0, 0, 0, 0, 1, 0x82, 0x81, 0, 0, 0, 0, 3]) ==
            Parsed(Frame(true, BINARY, [1, 0x82]), 8)
  {
    hide Parse, Xor, Masked;
    TornMask();
    var e := Encode(BINARY, [1, 0x82], KEY);
    assert e == [0x82, 0x82, 0, 0, 0, 0, 1, 0x82];
    Pow256Values();
    RoundTrip(BINARY, [1, 0x82], KEY, [0x81, 0, 0, 0, 0, 3]);
    assert e + [0x81, 0, 0, 0, 0, 3] == [0x82, 0x82, 0, 0, 0, 0, 1, 0x82, 0x81, 0, 0, 0, 0, 3];
  }

  lemma TornMask()
    ensures Masked([1, 0x82], [0, 0, 0, 0]) == [1, 0x82]
  {
    hide Xor;
    ZeroKey(1);
    ZeroKey(0x82);
  }

  lemma OrderOfTwo(a: Done, b: Done)
    ensures Order([a, b]) == [a.m, b.m]
  {
    assert [a, b][..1] == [a];
    assert [a][..0] == [];
    assert Order([a]) == [a.m];
  }

  lemma FramesOfTwo(a: Sent, b: Sent)
    ensures Frames([a, b]) == [Frame(true, a.opcode, a.payload), Frame(true, b.opcode, b.payload)]
  {
    assert [a, b][1..] == [b] && [b][1..] == [];
  }

  lemma TornBytes()
    ensures LogFits([TORN, NEXT])
    ensures Flat([TORN, NEXT]) == [0x82, 0x82, 0, 0, 0, 0, 1, 0x82, 0x81, 0, 0, 0, 0, 3]
  {
    hide Xor;
    ZeroKey(1);
    ZeroKey(2);
    ZeroKey(3);
    assert Masked([1, 2], [0, 0, 0, 0]) == [1, 2] && Masked([3], [0, 0, 0, 0]) == [3];
    assert Raw(TORN.m) == [0x82, 0x82, 0, 0, 0, 0, 1, 2];
    assert Raw(NEXT.m) == [0x82, 0x81, 0, 0, 0, 0, 3];
    assert [TORN, NEXT][..1] == [TORN] && [TORN][..0] == [];
    assert Flat([TORN]) == [0x82, 0x82, 0, 0, 0, 0, 1];
  }

  lemma ZeroKey(b: Byte)
    ensures Xor(b, 0) == b
  {
    XorZero(b as nat, 8);
    assert Pow2(8) == 4 * Pow2(6) && Pow2(6) == 4 * Pow2(4) && Pow2(4) == 16;
  }

  lemma {:induction false} XorZero(a: nat, n: nat)
    requires a < Pow2(n)
    ensures XorBits(a, 0, n) == a
  {
    if n > 0 {
      XorZero(a / 2, n - 1);
    }
  }
}
