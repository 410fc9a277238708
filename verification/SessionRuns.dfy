/** Runs of a session with the actions that make them, and what each action puts
    on the connections. */
module SessionRuns {
  import opened Basics
  import opened Session
  import opened SessionInvariant
  import opened SessionReach

  ghost predicate StepBy(ss: seq<State>, acts: seq<Action>, i: nat)
    requires i < |acts| && |ss| == |acts| + 1
  {
    NextBy(ss[i], acts[i], ss[i + 1])
  }

  /** The states of a behaviour and the actions between them. */
  ghost predicate Runs(ss: seq<State>, acts: seq<Action>) {
    && |ss| == |acts| + 1
    && Init(ss[0])
    && forall i :: 0 <= i < |acts| ==> StepBy(ss, acts, i)
  }

  lemma RunBehaves(ss: seq<State>, acts: seq<Action>)
    requires Runs(ss, acts)
    ensures Behaviour(ss)
  {
    forall i | 0 <= i < |ss| - 1
      ensures StepAt(ss, i)
    {
      assert StepBy(ss, acts, i);
    }
  }

  lemma {:induction false} BehaviourRuns(ss: seq<State>)
    requires Behaviour(ss)
    ensures exists acts :: Runs(ss, acts)
  {
    if |ss| == 1 {
      assert Runs(ss, []);
    } else {
      var init := ss[..|ss| - 1];
      forall i | 0 <= i < |init| - 1
        ensures StepAt(init, i)
      {
        assert StepAt(ss, i);
      }
      BehaviourRuns(init);
      var acts :| Runs(init, acts);
      assert StepAt(ss, |ss| - 2);
      var a :| NextBy(ss[|ss| - 2], a, ss[|ss| - 1]);
      forall i | 0 <= i < |acts| + 1
        ensures StepBy(ss, acts + [a], i)
      {
        if i < |acts| {
          assert StepBy(init, acts, i);
        }
      }
      assert Runs(ss, acts + [a]);
    }
  }

  lemma RunInv(ss: seq<State>, acts: seq<Action>, i: nat)
    requires Runs(ss, acts) && i < |ss|
    ensures Inv(ss[i])
    ensures i < |acts| ==> NextBy(ss[i], acts[i], ss[i + 1])
  {
    hide Inv, NextBy;
    RunBehaves(ss, acts);
    Reachable(ss, i);
    assert i < |acts| ==> StepBy(ss, acts, i);
  }

  // ------------------------------------------------------------------- logs

  function LogOf(g: Shared, c: ConnId): seq<Event> {
    if c < |g.conns| then g.conns[c].log else []
  }

  /** The trace of a frame send on the wire: nothing if no byte went out. */
  function Put(kind: Kind, k: Choice): seq<Event> {
    match k
    case SendWhole => [Sent(kind, true)]
    case SendPart => [Sent(kind, false)]
    case _ => []
  }

  /** What a thread puts on connection `c` with choice `k`. */
  function Emits(th: Thread, k: Choice, c: ConnId): seq<Event> {
    match th.op
    case InWrite(WrSend(d)) => if d == c then Put(Audio, k) else []
    case InStop(SpSend(d)) => if d == c then Put(EndFrame, k) else []
    case InStart(StSend(d)) => if d == c then Put(StartFrame, k) else []
    case InStart(StPong(d, _)) => if d == c then Put(Pong, k) else []
    case InStart(StAck(d, _)) =>
      (match k
       case AckFrame(AckObject(NoCode, _)) => if d == c then [AckRead] else []
       case AckFrame(AckObject(Number(n), _)) => if d == c && n == 0 then [AckRead] else []
       case _ => [])
    case NoCall =>
      if !k.Call? && th.role.Reader? && th.role.at == RPong && th.role.rc == c then Put(Pong, k) else []
    case _ => []
  }

  function EmitsBy(s: State, a: Action, c: ConnId): seq<Event> {
    match a
    case Run(t, k) => if t < |s.threads| then Emits(s.threads[t], k, c) else []
    case _ => []
  }

  lemma SendLog(g: Shared, d: ConnId, kind: Kind, k: Choice, c: ConnId)
    requires d < |g.conns|
    ensures LogOf(Send(g, d, kind, k), c) == LogOf(g, c) + if c == d then Put(kind, k) else []
  {
    hide LinkNext;
  }

  lemma CloseLog(g: Shared, c: ConnId)
    ensures LogOf(CloseConn(g), c) == LogOf(g, c) && CloseConn(g).conn == None
  {
  }

  lemma StartLog(g: Shared, t: Tid, th: Thread, st: StartPc, k: Choice, newborn: Tid, c: ConnId)
    requires th.op == InStart(st) && StartInv(g, t, st) && StartStep(g, t, st, k, newborn).Next?
    ensures LogOf(StartStep(g, t, st, k, newborn).g, c) == LogOf(g, c) + Emits(th, k, c)
  {
    hide Send, SendChoice, CloseConn, LinkNext, DialInv, Put;
    match st {
      case StConnect =>
      case StSend(d) => SendLog(g, d, StartFrame, k, c);
      case StPublish(d) => CloseLog(g, c);
      case StAck(d, due) =>
      case StPong(d, due) => SendLog(g, d, Pong, k, c);
      case StClose => CloseLog(g, c);
      case _ =>
    }
  }

  lemma WriteLog(g: Shared, t: Tid, th: Thread, wr: WritePc, k: Choice, c: ConnId)
    requires th.op == InWrite(wr) && WriteInv(g, wr) && WriteStep(g, t, wr, k).Next?
    ensures LogOf(WriteStep(g, t, wr, k).g, c) == LogOf(g, c) + Emits(th, k, c)
  {
    hide Send, SendChoice, Put;
    match wr {
      case WrSend(d) => SendLog(g, d, Audio, k, c);
      case _ =>
    }
  }

  lemma StopLog(g: Shared, t: Tid, th: Thread, sp: StopPc, k: Choice, newborn: Tid, c: ConnId)
    requires th.op == InStop(sp) && StopInv(g, t, th.role.Reader?, sp) && StopStep(g, t, sp, k, newborn).Next?
    ensures LogOf(StopStep(g, t, sp, k, newborn).g, c) == LogOf(g, c) + Emits(th, k, c)
  {
    hide Send, SendChoice, CloseConn, Put;
    match sp {
      case SpSend(d) => SendLog(g, d, EndFrame, k, c);
      case SpClose => CloseLog(g, c);
      case _ =>
    }
  }

  lemma WaitLog(g: Shared, t: Tid, last: bool, wt: WaitPc, c: ConnId)
    requires WaitStep(g, t, last, wt).Next?
    ensures LogOf(WaitStep(g, t, last, wt).g, c) == LogOf(g, c)
  {
    hide CloseConn;
    match wt {
      case WtClose(due) => CloseLog(g, c);
      case _ =>
    }
  }

  lemma ReaderLog(g: Shared, t: Tid, th: Thread, k: Choice, c: ConnId)
    requires th.op == NoCall && th.role.Reader? && !k.Call? && ReaderInv(g, t, th.role.at, th.role.rc)
    requires ReaderStep(g, t, th.role.at, th.role.rc, k).To?
    ensures LogOf(ReaderStep(g, t, th.role.at, th.role.rc, k).g, c) == LogOf(g, c) + Emits(th, k, c)
  {
    hide Send, SendChoice, Put, TraceInv, Early, Live, TraceNext;
    if th.role.at.RPong? {
      SendLog(g, th.role.rc, Pong, k, c);
    } else {
      hide ReaderInv;
      SilentReader(g, t, th.role.at, th.role.rc, k, c);
      assert LogOf(g, c) + [] == LogOf(g, c);
    }
  }

  lemma SilentReader(g: Shared, t: Tid, at: ReaderPc, rc: ConnId, k: Choice, c: ConnId)
    requires !at.RPong? && ReaderStep(g, t, at, rc, k).To?
    ensures LogOf(ReaderStep(g, t, at, rc, k).g, c) == LogOf(g, c)
  {
    hide Send, SendChoice, CloseConn, OnFrame, AfterCallback, Resume, TraceNext;
    match at {
      case RFinClose(next) => CloseLog(g, c);
      case _ =>
    }
  }

  /** One step of a session: every log grows by what the action puts on it. */
  lemma StepLogs(s: State, a: Action, s': State, c: ConnId)
    requires Inv(s) && NextBy(s, a, s')
    ensures LogOf(s'.g, c) == LogOf(s.g, c) + EmitsBy(s, a, c)
  {
    if a.Run? {
      ThreadLogs(s, a.t, a.k, s', c);
    }
  }

  lemma ThreadLogs(s: State, t: Tid, k: Choice, s': State, c: ConnId)
    requires Inv(s) && NextBy(s, Run(t, k), s')
    ensures LogOf(s'.g, c) == LogOf(s.g, c) + Emits(s.threads[t], k, c)
  {
    hide StartStep, WriteStep, StopStep, WaitStep, ReaderStep, SharedInv, HistoryInv, Ids, LogOf, HoldsExactly;
    hide StartInv, WriteInv, StopInv, WaitInv, ReaderInv, Put;
    var g, th := s.g, s.threads[t];
    assert LocalInv(g, t, th);
    match th.op {
      case NoCall =>
        if !k.Call? {
          ReaderLog(g, t, th, k, c);
        }
      case InStart(st) => StartLog(g, t, th, st, k, |s.threads|, c);
      case InWrite(wr) => WriteLog(g, t, th, wr, k, c);
      case InStop(sp) => StopLog(g, t, th, sp, k, |s.threads|, c);
      case InWait(last, wt) => WaitLog(g, t, last, wt, c);
    }
  }

  /** What the first `n` actions of a run put on connection `c`. */
  function Emitted(ss: seq<State>, acts: seq<Action>, c: ConnId, n: nat): seq<Event>
    requires n <= |acts| && |ss| == |acts| + 1
  {
    if n == 0 then [] else Emitted(ss, acts, c, n - 1) + EmitsBy(ss[n - 1], acts[n - 1], c)
  }

  /** In every run, every log holds exactly what the actions put on it: an audio
      frame for each Write whose send put out a byte, the end frame of such a Stop,
      start frames, pongs, and the acks with code 0; in the order of the run. */
  lemma {:induction false} UplinkExact(ss: seq<State>, acts: seq<Action>, c: ConnId, n: nat)
    requires Runs(ss, acts) && n < |ss|
    ensures LogOf(ss[n].g, c) == Emitted(ss, acts, c, n)
  {
    hide Inv, NextBy, EmitsBy;
    if n > 0 {
      UplinkExact(ss, acts, c, n - 1);
      RunInv(ss, acts, n - 1);
      StepLogs(ss[n - 1], acts[n - 1], ss[n], c);
    }
  }
}
