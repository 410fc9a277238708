/** Start: what a whole call puts on the wire and where it leaves the session. */
module SessionStartCall {
  import opened Basics
  import opened Session
  import opened SessionInvariant
  import opened SessionSteps
  import opened SessionReader
  import opened SessionReach
  import opened SessionTheorems
  import opened SessionRuns
  import opened SessionCalls

  /** The generation of the protocol is fixed. */
  lemma StepVersion(s: State, a: Action, s': State)
    requires Inv(s) && NextBy(s, a, s')
    ensures s'.g.version == s.g.version
  {
    hide SharedInv, HistoryInv, Ids, OpStep, ReaderStep, LocksOfOthers, ConnsKept, ConnsGrow, TraceGrows, Birth;
    hide ReaderPartSame;
    if a.Run? {
      var th := s.threads[a.t];
      assert LocalInv(s.g, a.t, th);
      if th.op != NoCall {
        OwnOp(s.g, a.t, th, a.k, |s.threads|);
      } else if th.role.Reader? && !a.k.Call? {
        OwnReader(s.g, a.t, th.role.at, th.role.rc, a.k);
      }
    }
  }

  lemma {:induction false} VersionFixed(ss: seq<State>, acts: seq<Action>, n: nat)
    requires Runs(ss, acts) && n < |ss|
    ensures ss[n].g.version == ss[0].g.version
  {
    hide Inv, NextBy;
    if n > 0 {
      VersionFixed(ss, acts, n - 1);
      RunInv(ss, acts, n - 1);
      StepVersion(ss[n - 1], acts[n - 1], ss[n]);
    }
  }

  /** Pongs aside, `ev` on connection `c` and nothing on any other. */
  ghost predicate Kept(ss: seq<State>, acts: seq<Action>, t: Tid, i: nat, m: nat, c: ConnId, ev: seq<Event>)
    requires |ss| == |acts| + 1 && i <= m < |ss|
  {
    forall d :: Essential(AddedBy(ss, acts, t, d, i, m)) == if d == c then ev else []
  }

  lemma EssentialMore(log: seq<Event>, e: seq<Event>)
    requires |e| <= 1
    ensures Essential(log + e) == Essential(log) + Essential(e)
  {
    if e == [] {
      assert log + e == log;
    } else {
      assert (log + e)[..|log|] == log && e[..0] == [];
    }
  }

  lemma KeptMore(ss: seq<State>, acts: seq<Action>, t: Tid, i: nat, m: nat, c: ConnId, ev: seq<Event>, e: seq<Event>)
    requires Runs(ss, acts) && i <= m < |acts| && InCall(ss[m], t) && Kept(ss, acts, t, i, m, c, ev)
    requires acts[m].Run? && acts[m].t == t ==>
               forall d :: |Emits(ss[m].threads[t], acts[m].k, d)| <= 1 &&
                           Essential(Emits(ss[m].threads[t], acts[m].k, d)) == if d == c then e else []
    requires !(acts[m].Run? && acts[m].t == t) ==> e == []
    ensures Kept(ss, acts, t, i, m + 1, c, ev + e)
  {
    hide StepBy, Init, AddedBy, Emits, Essential;
    var n := m + 1;
    forall d: ConnId
      ensures Essential(AddedBy(ss, acts, t, d, i, n)) == if d == c then ev + e else []
    {
      AddedMore(ss, acts, t, d, i, m);
      assert ev + [] == ev && AddedBy(ss, acts, t, d, i, m) + [] == AddedBy(ss, acts, t, d, i, m);
      if acts[m].Run? && acts[m].t == t {
        EssentialMore(AddedBy(ss, acts, t, d, i, m), Emits(ss[m].threads[t], acts[m].k, d));
      }
    }
  }

  // ------------------------------------------------------ a Start in progress

  /** On the way out without a session. */
  predicate Failing(st: StartPc) {
    st.StCloseLock? || st.StClose? || st.StFail?
  }

  predicate Acking(st: StartPc) {
    st.StAck? || st.StPongLock? || st.StPong?
  }

  predicate Accepting(st: StartPc) {
    st.StRun? || st.StTimeout? || st.StSpawn?
  }

  /** What a Start has put on its connection by the time it is at `st`. */
  function SentAt(v: Version, st: StartPc): seq<Event> {
    if Accepting(st) then if v == V3 then [Sent(StartFrame, true), AckRead] else []
    else if st.StConnLock? || st.StPublish? || Acking(st) then if v == V3 then [Sent(StartFrame, true)] else []
    else []
  }

  /** The connection could not be dialled, or the start frame not sent, or no ack
      came in time, or the reading failed, or the ack was a refusal. */
  ghost predicate GaveUp(ss: seq<State>, acts: seq<Action>, t: Tid, i: nat, m: nat) {
    || Did(ss, acts, t, i, m, InStart(StConnect), Chose(DialFail))
    || (exists c :: Did(ss, acts, t, i, m, InStart(StSend(c)), NotWhole))
    || (exists c, due :: Did(ss, acts, t, i, m, InStart(StAck(c, due)), Refused(due)))
  }

  ghost predicate Acked(ss: seq<State>, acts: seq<Action>, t: Tid, i: nat, m: nat, c: ConnId) {
    exists due :: Did(ss, acts, t, i, m, InStart(StAck(c, due)), Accepted)
  }

  ghost predicate Facts(ss: seq<State>, acts: seq<Action>, t: Tid, i: nat, m: nat, v: Version, st: StartPc, c: ConnId) {
    && (!st.StCas? ==> Did(ss, acts, t, i, m, InStart(StCas), Found(Idle)))
    && (Failing(st) ==> GaveUp(ss, acts, t, i, m))
    && (!st.StCas? && !st.StConnect? && !Failing(st) ==> Did(ss, acts, t, i, m, InStart(StConnect), NewConn(c)))
    && (st.StWireLock? || st.StSend? || st.StConnLock? || st.StPublish? || Acking(st) ==> st.c == c)
    && (st.StWireLock? || st.StSend? || Acking(st) ==> v == V3)
    && (Acking(st) || Accepting(st) ==> Did(ss, acts, t, i, m, InStart(StPublish(c)), LeftConn(Some(c))))
    && (Accepting(st) && v == V3 ==> Acked(ss, acts, t, i, m, c))
    && (st.StTimeout? || st.StSpawn? ==> Did(ss, acts, t, i, m, InStart(StRun), Left(Running)))
  }

  lemma GaveUpMore(ss: seq<State>, acts: seq<Action>, t: Tid, i: nat, m: nat)
    requires m < |acts|
    ensures GaveUp(ss, acts, t, i, m) ==> GaveUp(ss, acts, t, i, m + 1)
  {
    hide Did;
    DidMore(ss, acts, t, i, m, InStart(StConnect), Chose(DialFail));
    if c :| Did(ss, acts, t, i, m, InStart(StSend(c)), NotWhole) {
      DidMore(ss, acts, t, i, m, InStart(StSend(c)), NotWhole);
    }
    if c, due :| Did(ss, acts, t, i, m, InStart(StAck(c, due)), Refused(due)) {
      DidMore(ss, acts, t, i, m, InStart(StAck(c, due)), Refused(due));
    }
  }

  lemma AckedMore(ss: seq<State>, acts: seq<Action>, t: Tid, i: nat, m: nat, c: ConnId)
    requires m < |acts|
    ensures Acked(ss, acts, t, i, m, c) ==> Acked(ss, acts, t, i, m + 1, c)
  {
    hide Did;
    if due :| Did(ss, acts, t, i, m, InStart(StAck(c, due)), Accepted) {
      DidMore(ss, acts, t, i, m, InStart(StAck(c, due)), Accepted);
    }
  }

  lemma FactsMore(ss: seq<State>, acts: seq<Action>, t: Tid, i: nat, m: nat, v: Version, st: StartPc, c: ConnId)
    requires m < |acts| && Facts(ss, acts, t, i, m, v, st, c)
    ensures Facts(ss, acts, t, i, m + 1, v, st, c)
  {
    hide Did, GaveUp, Acked;
    GaveUpMore(ss, acts, t, i, m);
    AckedMore(ss, acts, t, i, m, c);
    DidMore(ss, acts, t, i, m, InStart(StCas), Found(Idle));
    DidMore(ss, acts, t, i, m, InStart(StConnect), NewConn(c));
    DidMore(ss, acts, t, i, m, InStart(StPublish(c)), LeftConn(Some(c)));
    DidMore(ss, acts, t, i, m, InStart(StRun), Left(Running));
  }

  /** Where a step of Start leads. */
  predicate Route(g: Shared, st: StartPc, k: Choice, g': Shared, op: Op) {
    match st
    case StCas => op == NoCall || (g.state == Idle && op == InStart(StConnect))
    case StConnect =>
      || (k == DialFail && op == InStart(StFail))
      || (Is(g, k, g', NewConn(|g.conns|)) &&
          op == InStart(if g.version == V2 then StConnLock(|g.conns|) else StWireLock(|g.conns|)))
    case StWireLock(c) => op == InStart(StSend(c))
    case StSend(c) =>
      (k == SendWhole && op == InStart(StConnLock(c))) || (Is(g, k, g', NotWhole) && op == InStart(StFail))
    case StConnLock(c) => op == InStart(StPublish(c))
    case StPublish(c) =>
      g'.conn == Some(c) && op.InStart? && if g.version == V2 then op.st.StRun? else op.st.StAck? && op.st.c == c
    case StAck(c, due) =>
      && op.InStart?
      && (|| (op.st.StRun? && Is(g, k, g', Accepted))
          || (Failing(op.st) && Is(g, k, g', Refused(due)))
          || (Acking(op.st) && op.st.c == c && !(k.AckFrame? && k.a.AckObject?)))
    case StPongLock(c, due) => op == InStart(StPong(c, due))
    case StPong(c, due) => op == InStart(StAck(c, due))
    case StCloseLock => op == InStart(StClose)
    case StClose => op == InStart(StFail)
    case StFail => op == NoCall && g'.state == Idle
    case StRun => op == InStart(StTimeout) && g'.state == Running
    case StTimeout => op == InStart(StSpawn)
    case StSpawn => op == NoCall
  }

  lemma StartRoute(g: Shared, t: Tid, st: StartPc, k: Choice, newborn: Tid)
    requires StartStep(g, t, st, k, newborn).Next? && !st.StAck?
    ensures var r := StartStep(g, t, st, k, newborn); Route(g, st, k, r.g, r.op)
  {
    hide Send, CloseConn;
  }

  lemma AckRoute(g: Shared, t: Tid, c: ConnId, due: nat, k: Choice, newborn: Tid)
    requires StartStep(g, t, StAck(c, due), k, newborn).Next?
    ensures var r := StartStep(g, t, StAck(c, due), k, newborn); Route(g, StAck(c, due), k, r.g, r.op)
  {
    hide Logged;
  }

  /** The connection a Start is about: the one it has dialled. */
  function Mine(g: Shared, st: StartPc, c: ConnId): ConnId {
    if st.StConnect? then |g.conns| else c
  }

  lemma FactsTurn(ss: seq<State>, acts: seq<Action>, t: Tid, i: nat, m: nat, v: Version, st: StartPc, c: ConnId,
                  k: Choice)
    requires |ss| == |acts| + 1 && i < m < |acts| && At(ss, acts, t, m, InStart(st)) && ss[m].g.version == v
    requires Facts(ss, acts, t, i, m + 1, v, st, c) && acts[m].k == k && t < |ss[m + 1].threads|
    requires Route(ss[m].g, st, k, ss[m + 1].g, ss[m + 1].threads[t].op)
    ensures var op := ss[m + 1].threads[t].op;
            op != NoCall ==> op.InStart? && Facts(ss, acts, t, i, m + 1, v, op.st, Mine(ss[m].g, st, c))
  {
    hide Did, At, GaveUp, Acked, Is;
    Recorded(ss, acts, t, i, m, InStart(st));
    match st {
      case StConnect =>
        DidMore(ss, acts, t, i, m, InStart(st), NewConn(|ss[m].g.conns|));
        Why(ss, acts, t, i, m + 1, 0, 0);
      case StSend(d) =>
        DidMore(ss, acts, t, i, m, InStart(st), NotWhole);
        Why(ss, acts, t, i, m + 1, d, 0);
      case StAck(d, due) =>
        DidMore(ss, acts, t, i, m, InStart(st), Refused(due));
        DidMore(ss, acts, t, i, m, InStart(st), Accepted);
        Why(ss, acts, t, i, m + 1, d, due);
      case _ =>
    }
  }

  lemma Why(ss: seq<State>, acts: seq<Action>, t: Tid, i: nat, n: nat, c: ConnId, due: nat)
    ensures Did(ss, acts, t, i, n, InStart(StConnect), Chose(DialFail)) ==> GaveUp(ss, acts, t, i, n)
    ensures Did(ss, acts, t, i, n, InStart(StSend(c)), NotWhole) ==> GaveUp(ss, acts, t, i, n)
    ensures Did(ss, acts, t, i, n, InStart(StAck(c, due)), Refused(due)) ==> GaveUp(ss, acts, t, i, n)
    ensures Did(ss, acts, t, i, n, InStart(StAck(c, due)), Accepted) ==> Acked(ss, acts, t, i, n, c)
  {
    hide Did;
  }

  // ------------------------------------------------------------ on the wire

  /** What is sent or read at a step that does not fail, pongs aside. */
  function SentBy(st: StartPc, k: Choice, next: StartPc): seq<Event> {
    if st.StSend? then Put(StartFrame, k) else if st.StAck? && next.StRun? then [AckRead] else []
  }

  lemma WireTurn(g: Shared, th: Thread, st: StartPc, k: Choice, g': Shared, op: Op, d: ConnId, c: ConnId, v: Version)
    requires th.op == InStart(st) && g.version == v && (Acking(st) || st.StSend? ==> v == V3 && st.c == c)
    requires Route(g, st, k, g', op) && op.InStart? && !Failing(op.st)
    ensures |Emits(th, k, d)| <= 1
    ensures Essential(Emits(th, k, d)) == if d == c then SentBy(st, k, op.st) else []
    ensures SentAt(v, op.st) == SentAt(v, st) + SentBy(st, k, op.st)
  {
    hide Is, Refusal, Essential;
    NoEvents();
    match st {
      case StSend(_) => Alone(Sent(StartFrame, true));
      case StAck(_, due) => AckEmits(th, c, due, k, d, g, g', op);
      case StPong(_, _) =>
        Alone(Sent(Pong, true));
        Alone(Sent(Pong, false));
      case _ =>
    }
  }

  lemma AckEmits(th: Thread, c: ConnId, due: nat, k: Choice, d: ConnId, g: Shared, g': Shared, op: Op)
    requires th.op == InStart(StAck(c, due)) && Route(g, StAck(c, due), k, g', op) && !Failing(op.st)
    ensures Emits(th, k, d) == if d == c && op.st.StRun? then [AckRead] else []
    ensures Essential([AckRead]) == [AckRead]
  {
    Alone(AckRead);
  }

  lemma NoEvents()
    ensures Essential([]) == []
  {
  }

  lemma Alone(e: Event)
    ensures Essential([e]) == if e.Sent? && e.kind == Pong then [] else [e]
  {
    assert [e][..0] == [];
  }

  // -------------------------------------------------------------- whole call

  ghost predicate StartStory(ss: seq<State>, acts: seq<Action>, t: Tid, i: nat, m: nat, st: StartPc, c: ConnId)
    requires |ss| == |acts| + 1 && i <= m < |ss|
  {
    var v := ss[0].g.version;
    && Facts(ss, acts, t, i, m, v, st, c)
    && (!Failing(st) ==> Kept(ss, acts, t, i, m, c, SentAt(v, st)))
    && (st.StCas? ==> Quiet(ss, acts, t, i, m))
  }

  lemma StoryStays(ss: seq<State>, acts: seq<Action>, t: Tid, i: nat, m: nat, st: StartPc, c: ConnId)
    requires Runs(ss, acts) && i < m < |acts| && InCall(ss[m], t) && !(acts[m].Run? && acts[m].t == t)
    requires StartStory(ss, acts, t, i, m, st, c)
    ensures StartStory(ss, acts, t, i, m + 1, st, c)
  {
    hide StepBy, Init, Facts, Kept, SentAt, Quiet;
    QuietMore(ss, acts, t, i, m);
    var v := ss[0].g.version;
    FactsMore(ss, acts, t, i, m, v, st, c);
    if !Failing(st) {
      var ev := SentAt(v, st);
      KeptMore(ss, acts, t, i, m, c, ev, []);
      assert ev + [] == ev;
    }
  }

  lemma StoryMoves(ss: seq<State>, acts: seq<Action>, t: Tid, i: nat, m: nat, st: StartPc, c: ConnId)
    requires Runs(ss, acts) && i < m < |acts| && InCall(ss[m], t) && acts[m].Run? && acts[m].t == t
    requires ss[m].threads[t].op == InStart(st) && StartStory(ss, acts, t, i, m, st, c)
    ensures t < |ss[m + 1].threads|
    ensures var op := ss[m + 1].threads[t].op;
            op != NoCall ==> op.InStart? && StartStory(ss, acts, t, i, m + 1, op.st, Mine(ss[m].g, st, c))
  {
    hide StepBy, Init, StartStep, Route, Kept, SentAt, SentBy, Did, GaveUp, Acked, Essential, Emits, At;
    var v, k := ss[0].g.version, acts[m].k;
    CallStepAt(ss, acts, t, m, 0);
    VersionFixed(ss, acts, m);
    var g, g', op := ss[m].g, ss[m + 1].g, ss[m + 1].threads[t].op;
    if st.StAck? {
      AckRoute(g, t, st.c, st.due, k, |ss[m].threads|);
    } else {
      StartRoute(g, t, st, k, |ss[m].threads|);
    }
    FactsMore(ss, acts, t, i, m, v, st, c);
    FactsTurn(ss, acts, t, i, m, v, st, c, k);
    NoWayBack(g, st, k, g', op);
    if op != NoCall && !Failing(op.st) {
      NotFailing(g, st, k, g', op);
      forall d: ConnId
        ensures |Emits(ss[m].threads[t], k, d)| <= 1
        ensures Essential(Emits(ss[m].threads[t], k, d)) == if d == c then SentBy(st, k, op.st) else []
        ensures SentAt(v, op.st) == SentAt(v, st) + SentBy(st, k, op.st)
      {
        WireTurn(g, ss[m].threads[t], st, k, g', op, d, c, v);
      }
      KeptMore(ss, acts, t, i, m, c, SentAt(v, st), SentBy(st, k, op.st));
      if st.StConnect? {
        NothingYet(ss, acts, t, i, m + 1, v, c, |g.conns|, op.st, k);
      }
    }
  }

  lemma NotFailing(g: Shared, st: StartPc, k: Choice, g': Shared, op: Op)
    requires Route(g, st, k, g', op) && op.InStart? && !Failing(op.st)
    ensures !Failing(st)
    ensures st.StConnect? ==>
              op.st == if g.version == V2 then StConnLock(|g.conns|) else StWireLock(|g.conns|)
  {
  }

  lemma NoWayBack(g: Shared, st: StartPc, k: Choice, g': Shared, op: Op)
    requires Route(g, st, k, g', op)
    ensures op != InStart(StCas)
  {
  }

  lemma NothingYet(ss: seq<State>, acts: seq<Action>, t: Tid, i: nat, n: nat, v: Version, c: ConnId, d: ConnId,
                   st: StartPc, k: Choice)
    requires |ss| == |acts| + 1 && i <= n < |ss| && st == (if v == V2 then StConnLock(d) else StWireLock(d))
    requires Kept(ss, acts, t, i, n, c, SentAt(v, StConnect) + SentBy(StConnect, k, st))
    ensures Kept(ss, acts, t, i, n, d, SentAt(v, st))
  {
  }

  lemma {:induction false} StartSoFar(ss: seq<State>, acts: seq<Action>, t: Tid, i: nat, j: nat, m: nat)
    returns (c: ConnId)
    requires Runs(ss, acts) && Called(ss, acts, t, CallStart, i, j) && i < m < j
    ensures var op := ss[m].threads[t].op; op.InStart? && StartStory(ss, acts, t, i, m, op.st, c)
  {
    hide StepBy, Init, StartStory, Quiet;
    if m == i + 1 {
      Entered(ss, acts, t, CallStart, i);
      Starts(ss, acts, t, i);
      c := 0;
    } else {
      c := StartSoFar(ss, acts, t, i, j, m - 1);
      var g, st := ss[m - 1].g, ss[m - 1].threads[t].op.st;
      if acts[m - 1].Run? && acts[m - 1].t == t {
        StoryMoves(ss, acts, t, i, m - 1, st, c);
        c := Mine(g, st, c);
      } else {
        CallStepAt(ss, acts, t, m - 1, 0);
        StoryStays(ss, acts, t, i, m - 1, st, c);
      }
    }
  }

  lemma Starts(ss: seq<State>, acts: seq<Action>, t: Tid, i: nat)
    requires |ss| == |acts| + 1 && i < |acts| && Quiet(ss, acts, t, i, i + 1)
    ensures StartStory(ss, acts, t, i, i + 1, StCas, 0)
  {
  }

  /** The handshake as far as a session needs it: dialled, published, in v3 the
      start frame sent whole and then an acceptable ack read; and on no other
      connection anything.  Pongs aside. */
  ghost predicate Opened(ss: seq<State>, acts: seq<Action>, t: Tid, i: nat, m: nat, c: ConnId)
    requires |ss| == |acts| + 1 && i <= m < |ss|
  {
    && Did(ss, acts, t, i, m, InStart(StConnect), NewConn(c))
    && Did(ss, acts, t, i, m, InStart(StPublish(c)), LeftConn(Some(c)))
    && (ss[0].g.version == V3 ==> Acked(ss, acts, t, i, m, c))
    && Kept(ss, acts, t, i, m, c, if ss[0].g.version == V3 then [Sent(StartFrame, true), AckRead] else [])
  }

  /** In every run, a call of Start by any thread ends in one of three ways.  The
      session was not Idle: nothing is sent.  Or it has given up, for one of the
      reasons there are, and stored Idle.  Or the handshake is complete on a new
      connection, Running has been stored, and there is a new thread, the reader. */
  lemma StartCall(ss: seq<State>, acts: seq<Action>, t: Tid, i: nat, j: nat)
    requires Runs(ss, acts) && Called(ss, acts, t, CallStart, i, j)
    ensures acts[j - 1].Run? && acts[j - 1].t == t
    ensures match ss[j - 1].threads[t].op
            case InStart(StCas) => ss[j - 1].g.state != Idle && Quiet(ss, acts, t, i, j)
            case InStart(StFail) =>
              && Did(ss, acts, t, i, j, InStart(StCas), Found(Idle))
              && GaveUp(ss, acts, t, i, j) && ss[j].g.state == Idle
            case InStart(StSpawn) =>
              && Did(ss, acts, t, i, j, InStart(StCas), Found(Idle))
              && (exists c :: Opened(ss, acts, t, i, j, c))
              && Did(ss, acts, t, i, j, InStart(StRun), Left(Running))
              && var n := |ss[j - 1].threads|;
                 |ss[j].threads| == n + 1 && ss[j].threads[n] == Thread(Reader(RTidLock, 0), NoCall) &&
                 ss[j].g.h.reader == Some(n)
            case _ => false
  {
    hide StepBy, Init, NextBy, Inv, OpStep, Quiet, StartStory, Kept, Opened, Did, GaveUp, Acked, SentAt, Essential;
    NoEvents();
    var m := j - 1;
    var c := StartSoFar(ss, acts, t, i, j, m);
    CallStepAt(ss, acts, t, m, 0);
    RunInv(ss, acts, m);
    Own(ss[m], t, acts[m].k, ss[j]);
    var st := ss[m].threads[t].op.st;
    StartReturns(ss[m].g, t, st, acts[m].k, |ss[m].threads|);
    QuietMore(ss, acts, t, i, m);
    FactsLast(ss, acts, t, i, m, st, c);
    if st.StSpawn? {
      KeptMore(ss, acts, t, i, m, c, SentAt(ss[0].g.version, st), []);
      OpenedLast(ss, acts, t, i, m, c);
    }
  }

  lemma FactsLast(ss: seq<State>, acts: seq<Action>, t: Tid, i: nat, m: nat, st: StartPc, c: ConnId)
    requires |ss| == |acts| + 1 && i <= m < |acts| && StartStory(ss, acts, t, i, m, st, c)
    ensures Facts(ss, acts, t, i, m + 1, ss[0].g.version, st, c)
    ensures !Failing(st) ==> Kept(ss, acts, t, i, m, c, SentAt(ss[0].g.version, st))
    ensures st.StCas? ==> Quiet(ss, acts, t, i, m)
  {
    hide Facts;
    FactsMore(ss, acts, t, i, m, ss[0].g.version, st, c);
  }

  lemma OpenedLast(ss: seq<State>, acts: seq<Action>, t: Tid, i: nat, m: nat, c: ConnId)
    requires |ss| == |acts| + 1 && i <= m < |acts| && Facts(ss, acts, t, i, m + 1, ss[0].g.version, StSpawn, c)
    requires Kept(ss, acts, t, i, m + 1, c, SentAt(ss[0].g.version, StSpawn) + [])
    ensures Opened(ss, acts, t, i, m + 1, c)
  {
    hide Did, Acked;
    assert SentAt(ss[0].g.version, StSpawn) + [] == SentAt(ss[0].g.version, StSpawn);
  }

  lemma StartReturns(g: Shared, t: Tid, st: StartPc, k: Choice, newborn: Tid)
    requires OpStep(g, t, InStart(st), k, newborn).Next? && OpStep(g, t, InStart(st), k, newborn).op == NoCall
    ensures var r := OpStep(g, t, InStart(st), k, newborn);
            match st
            case StCas => g.state != Idle
            case StFail => r.g.state == Idle
            case StSpawn =>
              r.born == Some(Thread(Reader(RTidLock, 0), NoCall)) && r.g.h.reader == Some(newborn)
            case _ => false
  {
    hide Send, CloseConn;
  }
}
