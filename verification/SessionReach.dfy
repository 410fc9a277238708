/** The invariant holds in every state a session can reach. */
module SessionReach {
  import opened Basics
  import opened Session
  import opened SessionInvariant
  import opened SessionSteps
  import opened SessionReader

  // ---------------------------------------------------------------- history

  /** A connection's log is only ever appended to, one event at a time; a
      socket that was shut down stays so. */
  predicate LogGrows(k: Conn, k': Conn) {
    && (|| (k'.log == k.log && k'.phase == k.phase)
        || (|k'.log| == |k.log| + 1 && k'.log[..|k.log|] == k.log &&
            k'.phase == LinkNext(k.phase, k'.log[|k.log|])))
    && (!k.open ==> !k'.open)
    && k'.left <= k.left
  }

  predicate ConnsGrow(v: Version, ks: seq<Conn>, ks': seq<Conn>) {
    && |ks| <= |ks'|
    && (forall c :: 0 <= c < |ks| ==> LogGrows(ks[c], ks'[c]))
    && (forall c :: |ks| <= c < |ks'| ==>
          ks'[c].log == [] && ks'[c].phase == (if v == V2 then Ready else Fresh))
  }

  predicate LogsGrow(g: Shared, g': Shared) {
    g'.version == g.version && ConnsGrow(g.version, g.conns, g'.conns)
  }

  predicate TraceGrows(g: Shared, g': Shared) {
    || (g'.h.trace == g.h.trace && g'.h.told == g.h.told)
    || (|g'.h.trace| == |g.h.trace| + 1 && g'.h.trace[..|g.h.trace|] == g.h.trace &&
        g'.h.told == TraceNext(g.h.told, g'.h.trace[|g.h.trace|]))
  }

  lemma HistoryKept(g: Shared, g': Shared)
    requires HistoryInv(g) && LogsGrow(g, g') && TraceGrows(g, g')
    ensures HistoryInv(g')
  {
  }

  lemma SameGrows(g: Shared)
    ensures ConnsGrow(g.version, g.conns, g.conns)
  {
  }

  lemma CloseGrows(g: Shared)
    ensures ConnsGrow(g.version, g.conns, CloseConn(g).conns)
  {
    hide LinkNext;
  }

  lemma LoggedGrows(g: Shared, c: ConnId, e: Event)
    ensures ConnsGrow(g.version, g.conns, Logged(g, c, e).conns)
  {
    hide LinkNext;
    if c < |g.conns| {
      var k, k' := g.conns[c], Logged(g, c, e).conns[c];
      assert k'.log[..|k.log|] == k.log && k'.log[|k.log|] == e;
    }
  }

  lemma SendGrows(g: Shared, c: ConnId, kind: Kind, k: Choice)
    ensures ConnsGrow(g.version, g.conns, Send(g, c, kind, k).conns)
  {
    hide ConnsGrow, Logged;
    SameGrows(g);
    LoggedGrows(g, c, Sent(kind, true));
    LoggedGrows(g, c, Sent(kind, false));
  }

  /** A send that fails leaves the socket shut down. */
  lemma ShutGrows(g: Shared, h: Shared, c: ConnId)
    requires ConnsGrow(g.version, g.conns, h.conns)
    ensures c < |h.conns| && c < |g.conns| ==>
              ConnsGrow(g.version, g.conns, h.conns[c := h.conns[c].(open := false)])
  {
    hide LinkNext;
  }

  lemma ReadGrows(g: Shared, c: ConnId)
    requires ReadChoice(g, c)
    ensures ConnsGrow(g.version, g.conns, Used(g, c).conns)
  {
    hide LinkNext;
  }

  lemma DialGrows(v: Version, ks: seq<Conn>, left: nat)
    ensures ConnsGrow(v, ks, ks + [Conn(true, [], if v == V2 then Ready else Fresh, left)])
  {
  }

  lemma SendKeepsCount(g: Shared, c: ConnId, kind: Kind, k: Choice)
    ensures |Send(g, c, kind, k).conns| == |g.conns| && Send(g, c, kind, k).version == g.version
  {
  }

  /** Up to the publication of the connection. */
  predicate Dialling(st: StartPc) {
    st.StConnect? || st.StSend? || st.StPublish?
  }

  lemma StartDialLogs(g: Shared, t: Tid, st: StartPc, k: Choice, newborn: Tid)
    requires Dialling(st) && StartStep(g, t, st, k, newborn).Next?
    ensures LogsGrow(g, StartStep(g, t, st, k, newborn).g)
  {
    hide ConnsGrow, SendChoice, Send, CloseConn;
    SameGrows(g);
    match st {
      case StConnect =>
        if k.DialOk? {
          DialGrows(g.version, g.conns, k.left);
        }
      case StSend(c) =>
        SendGrows(g, c, StartFrame, k);
        SendKeepsCount(g, c, StartFrame, k);
        ShutGrows(g, Send(g, c, StartFrame, k), c);
      case StPublish(c) =>
        CloseGrows(g);
        CloseKeepsVersion(g);
      case _ =>
    }
  }

  lemma CloseKeepsVersion(g: Shared)
    ensures CloseConn(g).version == g.version
  {
  }

  lemma StartAckLogs(g: Shared, t: Tid, st: StartPc, k: Choice, newborn: Tid)
    requires !Dialling(st) && StartStep(g, t, st, k, newborn).Next?
    ensures LogsGrow(g, StartStep(g, t, st, k, newborn).g)
  {
    hide ConnsGrow, SendChoice, Send, CloseConn;
    SameGrows(g);
    match st {
      case StAck(c, due) => LoggedGrows(g, c, AckRead);
      case StPong(c, due) =>
        SendGrows(g, c, Pong, k);
        SendKeepsCount(g, c, Pong, k);
      case StClose =>
        CloseGrows(g);
        CloseKeepsVersion(g);
      case _ =>
    }
  }

  lemma WriteLogs(g: Shared, t: Tid, wr: WritePc, k: Choice)
    requires WriteStep(g, t, wr, k).Next?
    ensures LogsGrow(g, WriteStep(g, t, wr, k).g)
  {
    hide ConnsGrow, SendChoice, Send;
    SameGrows(g);
    match wr {
      case WrSend(c) =>
        SendGrows(g, c, Audio, k);
        SendKeepsCount(g, c, Audio, k);
      case _ =>
    }
  }

  lemma StopLogs(g: Shared, t: Tid, sp: StopPc, k: Choice, newborn: Tid)
    requires StopStep(g, t, sp, k, newborn).Next?
    ensures LogsGrow(g, StopStep(g, t, sp, k, newborn).g)
  {
    hide ConnsGrow, SendChoice, Send, CloseConn;
    SameGrows(g);
    match sp {
      case SpSend(c) =>
        SendGrows(g, c, EndFrame, k);
        SendKeepsCount(g, c, EndFrame, k);
      case SpClose =>
        CloseGrows(g);
        CloseKeepsVersion(g);
      case _ =>
    }
  }

  lemma WaitLogs(g: Shared, t: Tid, last: bool, wt: WaitPc)
    requires WaitStep(g, t, last, wt).Next?
    ensures LogsGrow(g, WaitStep(g, t, last, wt).g)
  {
    hide ConnsGrow, CloseConn;
    SameGrows(g);
    match wt {
      case WtClose(due) =>
        CloseGrows(g);
        CloseKeepsVersion(g);
      case _ =>
    }
  }

  lemma ReaderLogs(g: Shared, t: Tid, at: ReaderPc, rc: ConnId, k: Choice)
    requires ReaderStep(g, t, at, rc, k).To?
    ensures var g' := ReaderStep(g, t, at, rc, k).g; LogsGrow(g, g') && TraceGrows(g, g')
  {
    hide ConnsGrow, SendChoice, Send, CloseConn, Used, ReadChoice, TraceNext, OnFrame, AfterCallback;
    SameGrows(g);
    match at {
      case RInvoke(cb) =>
        assert (g.h.trace + [cb])[..|g.h.trace|] == g.h.trace;
      case RRead =>
        if ReadChoice(g, rc) {
          ReadGrows(g, rc);
          UsedKeeps(g, rc);
        }
      case RPong =>
        SendGrows(g, rc, Pong, k);
        SendKeepsCount(g, rc, Pong, k);
        SendKeepsHistory(g, rc, Pong, k);
      case RFinClose(next) =>
        CloseGrows(g);
        CloseKeepsVersion(g);
        CloseKeepsHistory(g);
      case _ =>
    }
  }

  lemma UsedKeeps(g: Shared, c: ConnId)
    requires ReadChoice(g, c)
    ensures Used(g, c).version == g.version && Used(g, c).h == g.h
  {
  }

  lemma SendKeepsHistory(g: Shared, c: ConnId, kind: Kind, k: Choice)
    ensures Send(g, c, kind, k).h == g.h
  {
  }

  lemma CloseKeepsHistory(g: Shared)
    ensures CloseConn(g).h == g.h
  {
  }

  // ----------------------------------------------------------- born threads

  /** Only Start spawns the reader and only Stop spawns a watchdog. */
  predicate Birth(g: Shared, op: Op, newborn: Tid, r: CallStep)
    requires r.Next?
  {
    match r.born
    case None => r.g.h.reader == g.h.reader && r.g.h.watchdog == g.h.watchdog
    case Some(th) =>
      if op == InStart(StSpawn) then
        th == Thread(Reader(RTidLock, 0), NoCall) && r.g.h.reader == Some(newborn) && r.g.h.watchdog == g.h.watchdog
      else
        op == InStop(SpSpawn) && th == Thread(Watchdog, InWait(false, WtLock)) &&
        r.g.h.watchdog == Some(newborn) && r.g.h.reader == g.h.reader
  }

  lemma StartBirth(g: Shared, t: Tid, st: StartPc, k: Choice, newborn: Tid)
    requires StartStep(g, t, st, k, newborn).Next?
    ensures Birth(g, InStart(st), newborn, StartStep(g, t, st, k, newborn))
  {
    match st {
      case StConnect => case StWireLock(c) => case StSend(c) => case StConnLock(c) => case StPublish(c) =>
      case StAck(c, due) => case StPongLock(c, due) => case StPong(c, due) => case StCloseLock => case StClose =>
      case _ =>
    }
  }

  lemma WriteBirth(g: Shared, t: Tid, wr: WritePc, k: Choice)
    requires WriteStep(g, t, wr, k).Next?
    ensures Birth(g, InWrite(wr), 0, WriteStep(g, t, wr, k))
  {
  }

  lemma StopBirth(g: Shared, t: Tid, sp: StopPc, k: Choice, newborn: Tid)
    requires StopStep(g, t, sp, k, newborn).Next?
    ensures Birth(g, InStop(sp), newborn, StopStep(g, t, sp, k, newborn))
  {
    match sp {
      case SpSend(c) => case SpClose => case SpConn => case SpRecheck(c) => case SpTid =>
      case _ =>
    }
  }

  lemma WaitBirth(g: Shared, t: Tid, last: bool, wt: WaitPc)
    requires WaitStep(g, t, last, wt).Next?
    ensures var r := WaitStep(g, t, last, wt);
            && Birth(g, InWait(last, wt), 0, r)
            && (!last ==> r.op.NoCall? || (r.op.InWait? && !r.op.last))
  {
    match wt {
      case WtClose(due) => case WtCheck(due) => case WtTimeout(due) => case WtGrace(due) =>
      case WtFinal => case WtOver =>
      case _ =>
    }
  }

  /** What every step of an API call does to the histories and to the threads. */
  lemma OpTraces(g: Shared, t: Tid, op: Op, k: Choice, newborn: Tid)
    requires OpStep(g, t, op, k, newborn).Next?
    ensures var r := OpStep(g, t, op, k, newborn);
            && LogsGrow(g, r.g)
            && (op.InWait? && !op.last ==> r.op.NoCall? || (r.op.InWait? && !r.op.last))
            && Birth(g, op, newborn, r)
  {
    match op {
      case InStart(st) =>
        if Dialling(st) {
          StartDialLogs(g, t, st, k, newborn);
        } else {
          StartAckLogs(g, t, st, k, newborn);
        }
        StartBirth(g, t, st, k, newborn);
      case InWrite(wr) => WriteLogs(g, t, wr, k); WriteBirth(g, t, wr, k);
      case InStop(sp) => StopLogs(g, t, sp, k, newborn); StopBirth(g, t, sp, k, newborn);
      case InWait(last, wt) => WaitLogs(g, t, last, wt); WaitBirth(g, t, last, wt);
    }
  }

  // ------------------------------------------------------- the whole system

  /** Nothing the reader alone writes has changed under it. */
  lemma ReaderInvKept(g: Shared, g': Shared, t: Tid, at: ReaderPc, rc: ConnId)
    requires ReaderInv(g, t, at, rc) && Fair(g, t, g') && SharedInv(g') && g'.h.reader == g.h.reader
    ensures ReaderInv(g', t, at, rc)
  {
  }

  lemma NewbornHolds(m: map<Lock, Tid>, m': map<Lock, Tid>, t: Tid, newborn: Tid)
    requires t != newborn && LocksOfOthers(m, m', t) && forall l :: l in m ==> m[l] != newborn
    ensures HoldsExactly(m', newborn, {})
  {
  }

  lemma OwnOp(g: Shared, t: Tid, th: Thread, k: Choice, newborn: Tid)
    requires SharedInv(g) && LocalInv(g, t, th) && th.op != NoCall && t != newborn
    requires OpStep(g, t, th.op, k, newborn).Next?
    ensures var r := OpStep(g, t, th.op, k, newborn);
            && SharedInv(r.g) && LocalInv(r.g, t, th.(op := r.op)) && Guarantee(g, r.g, t)
            && ReaderPartSame(g, r.g) && LogsGrow(g, r.g) && Birth(g, th.op, newborn, r)
  {
    hide StartStep, WriteStep, StopStep, WaitStep, ReaderStep, SharedInv, OpInv, ConnsGrow;
    var r := OpStep(g, t, th.op, k, newborn);
    assert Holds(th) == OpHolds(th.op);
    OpStepOk(g, t, th.role.Reader?, th.op, k, newborn);
    OpTraces(g, t, th.op, k, newborn);
    assert Holds(th.(op := r.op)) == OpHolds(r.op);
    assert RoleInv(r.g, t, th.(op := r.op)) by {
      if th.role.Reader? {
        ReaderInvKept(g, r.g, t, th.role.at, th.role.rc);
      }
    }
  }

  lemma OwnReader(g: Shared, t: Tid, at: ReaderPc, rc: ConnId, k: Choice)
    requires SharedInv(g) && LocalInv(g, t, Thread(Reader(at, rc), NoCall))
    requires ReaderStep(g, t, at, rc, k).To?
    ensures var r := ReaderStep(g, t, at, rc, k);
            && SharedInv(r.g) && LocalInv(r.g, t, Thread(Reader(r.at, r.rc), NoCall)) && Guarantee(g, r.g, t)
            && r.g.h.reader == g.h.reader && r.g.h.watchdog == g.h.watchdog
  {
    hide StartStep, WriteStep, StopStep, WaitStep, ReaderStep, SharedInv, ReaderInv;
    var r := ReaderStep(g, t, at, rc, k);
    assert Holds(Thread(Reader(at, rc), NoCall)) == ReaderHolds(at, rc);
    ReaderStepOk(g, t, at, rc, k);
    assert Holds(Thread(Reader(r.at, r.rc), NoCall)) == ReaderHolds(r.at, r.rc);
  }

  /** A step keeps the invariant of every other thread. */
  lemma OtherKept(g: Shared, g': Shared, t: Tid, u: Tid, th: Thread)
    requires u != t && Guarantee(g, g', t) && SharedInv(g') && LocalInv(g, u, th)
    requires g'.h.reader != Some(u) || g.h.reader == Some(u)
    requires g'.h.watchdog != Some(u) || g.h.watchdog == Some(u)
    ensures LocalInv(g', u, th)
  {
    HoldsKept(g.locks, g'.locks, t, u, Holds(th));
    RoleKept(g, g', t, u, th);
    if th.op.InWrite? {
      assert Holds(th) == OpHolds(th.op);
    }
    OpKept(g, g', t, u, th.role.Reader?, th.op);
  }

  /** A thread starts its life with its invariant. */
  lemma NewbornOk(g: Shared, g': Shared, t: Tid, op: Op, r: CallStep, newborn: Tid)
    requires r.Next? && r.g == g' && r.born.Some? && Birth(g, op, newborn, r)
    requires SharedInv(g) && SharedInv(g') && Guarantee(g, g', t) && t != newborn
    requires OpInv(g, t, g.h.reader == Some(t), op)
    requires g.h.reader != Some(newborn) && g.h.watchdog != Some(newborn) && newborn !in g'.asleep
    requires HoldsExactly(g'.locks, newborn, {})
    requires op == InStart(StSpawn) ==> ReaderPartSame(g, g')
    ensures LocalInv(g', newborn, r.born.value)
  {
    assert Holds(r.born.value) == {};
  }

  lemma IdsKept(s: State, t: Tid, th: Thread, g': Shared, born: Option<Thread>)
    requires Ids(s.g, s.threads) && Guarantee(s.g, g', t) && t < |s.threads|
    requires th.role.Reader? <==> s.threads[t].role.Reader?
    requires match born
             case None => g'.h.reader == s.g.h.reader && g'.h.watchdog == s.g.h.watchdog
             case Some(b) =>
               && (g'.h.reader == s.g.h.reader || (g'.h.reader == Some(|s.threads|) && b.role.Reader?))
               && (g'.h.watchdog == s.g.h.watchdog || g'.h.watchdog == Some(|s.threads|))
    ensures Ids(g', Born(s.threads[t := th], born))
  {
  }

  lemma BornOk(s: State, t: Tid, k: Choice)
    requires Inv(s) && t < |s.threads| && s.threads[t].op != NoCall
    requires OpStep(s.g, t, s.threads[t].op, k, |s.threads|).Next?
    ensures var r := OpStep(s.g, t, s.threads[t].op, k, |s.threads|);
            r.born.Some? ==> LocalInv(r.g, |s.threads|, r.born.value)
  {
    hide StartStep, WriteStep, StopStep, WaitStep, ReaderStep, SharedInv, ConnsGrow, HistoryInv;
    var th, n := s.threads[t], |s.threads|;
    var r := OpStep(s.g, t, th.op, k, n);
    assert LocalInv(s.g, t, th);
    OwnOp(s.g, t, th, k, n);
    if r.born.Some? {
      NewbornHolds(s.g.locks, r.g.locks, t, n);
      NewbornOk(s.g, r.g, t, th.op, r, n);
    }
  }

  lemma OpNext(s: State, t: Tid, k: Choice)
    requires Inv(s) && t < |s.threads| && s.threads[t].op != NoCall
    requires OpStep(s.g, t, s.threads[t].op, k, |s.threads|).Next?
    ensures var r := OpStep(s.g, t, s.threads[t].op, k, |s.threads|);
            Inv(State(r.g, Born(s.threads[t := s.threads[t].(op := r.op)], r.born)))
  {
    hide StartStep, WriteStep, StopStep, WaitStep, ReaderStep, SharedInv, OpInv, RoleInv, ConnsGrow, Peaceful;
    hide HistoryInv, HoldsExactly;
    var th, n := s.threads[t], |s.threads|;
    var r := OpStep(s.g, t, th.op, k, n);
    assert LocalInv(s.g, t, th);
    OwnOp(s.g, t, th, k, n);
    HistoryKept(s.g, r.g);
    IdsKept(s, t, th.(op := r.op), r.g, r.born);
    OthersKept(s, r.g, t);
    BornOk(s, t, k);
  }

  lemma ReaderNext(s: State, t: Tid, k: Choice)
    requires Inv(s) && t < |s.threads| && s.threads[t].op == NoCall && s.threads[t].role.Reader?
    requires ReaderStep(s.g, t, s.threads[t].role.at, s.threads[t].role.rc, k).To?
    ensures var r := ReaderStep(s.g, t, s.threads[t].role.at, s.threads[t].role.rc, k);
            Inv(State(r.g, s.threads[t := Thread(Reader(r.at, r.rc), NoCall)]))
  {
    hide StartStep, WriteStep, StopStep, WaitStep, ReaderStep, SharedInv, OpInv, RoleInv, ConnsGrow, Peaceful;
    hide HistoryInv, HoldsExactly;
    var th := s.threads[t];
    var r := ReaderStep(s.g, t, th.role.at, th.role.rc, k);
    assert LocalInv(s.g, t, th);
    OwnReader(s.g, t, th.role.at, th.role.rc, k);
    ReaderLogs(s.g, t, th.role.at, th.role.rc, k);
    HistoryKept(s.g, r.g);
    IdsKept(s, t, Thread(Reader(r.at, r.rc), NoCall), r.g, None);
    OthersKept(s, r.g, t);
  }

  lemma OthersKept(s: State, g': Shared, t: Tid)
    requires Inv(s) && Guarantee(s.g, g', t) && SharedInv(g')
    requires g'.h.reader == s.g.h.reader || g'.h.reader == Some(|s.threads|)
    requires g'.h.watchdog == s.g.h.watchdog || g'.h.watchdog == Some(|s.threads|)
    ensures forall u :: 0 <= u < |s.threads| && u != t ==> LocalInv(g', u, s.threads[u])
  {
    hide SharedInv, LocalInv, Guarantee, HistoryInv, ConnsGrow;
    forall u | 0 <= u < |s.threads| && u != t
      ensures LocalInv(g', u, s.threads[u])
    {
      OtherKept(s.g, g', t, u, s.threads[u]);
    }
  }

  lemma TickKept(g: Shared, g': Shared, u: Tid, th: Thread)
    requires LocalInv(g, u, th) && g' == g.(now := g.now + 1)
    ensures LocalInv(g', u, th)
  {
  }

  lemma TickNext(s: State)
    requires Inv(s)
    ensures Inv(s.(g := s.g.(now := s.g.now + 1)))
  {
    var g' := s.g.(now := s.g.now + 1);
    forall u | 0 <= u < |s.threads|
      ensures LocalInv(g', u, s.threads[u])
    {
      TickKept(s.g, g', u, s.threads[u]);
    }
  }

  lemma ThreadNext(s: State)
    requires Inv(s)
    ensures Inv(s.(threads := s.threads + [Thread(App, NoCall)]))
  {
    hide SharedInv, HistoryInv;
    assert Holds(Thread(App, NoCall)) == {};
    assert forall u :: 0 <= u < |s.threads| ==> LocalInv(s.g, u, s.threads[u]);
  }

  lemma CallNext(s: State, t: Tid, api: Api)
    requires Inv(s) && t < |s.threads| && s.threads[t].op == NoCall && MayCall(s.threads[t].role)
    ensures Inv(State(s.g, s.threads[t := s.threads[t].(op := Entry(api))]))
  {
    hide SharedInv, HistoryInv;
    var th := s.threads[t];
    assert LocalInv(s.g, t, th);
    assert Holds(th.(op := Entry(api))) == Holds(th);
    assert forall u :: 0 <= u < |s.threads| ==> LocalInv(s.g, u, s.threads[u]);
  }

  /** Every step of every thread, every tick and every new thread. */
  lemma InvNext(s: State, a: Action, s': State)
    requires Inv(s) && NextBy(s, a, s')
    ensures Inv(s')
  {
    hide Inv, StartStep, WriteStep, StopStep, WaitStep, ReaderStep, OpStep;
    match a {
      case Run(t, k) =>
        if s.threads[t].op != NoCall {
          OpNext(s, t, k);
        } else if k.Call? {
          CallNext(s, t, k.api);
        } else {
          ReaderNext(s, t, k);
        }
      case Tick => TickNext(s);
      case NewThread => ThreadNext(s);
    }
  }

  lemma InvInit(s: State)
    requires Init(s)
    ensures Inv(s)
  {
    assert Holds(Thread(App, NoCall)) == {};
  }

  /** Every state of every behaviour. */
  lemma {:induction false} Reachable(ss: seq<State>, i: nat)
    requires Behaviour(ss) && i < |ss|
    ensures Inv(ss[i])
  {
    hide NextBy, Inv, Init;
    if i == 0 {
      InvInit(ss[0]);
    } else {
      Reachable(ss, i - 1);
      assert StepAt(ss, i - 1);
      var a :| NextBy(ss[i - 1], a, ss[i]);
      InvNext(ss[i - 1], a, ss[i]);
    }
  }
}
