/** What the documentation of the recognizer promises, for every run. */
module SessionTheorems {
  import opened Basics
  import opened Session
  import opened SessionInvariant
  import opened SessionSteps
  import opened SessionReader
  import opened SessionReach

  // -------------------------------------------------------------- the wire

  /** The log without pongs, which a ping may call for at any time. */
  function Essential(log: seq<Event>): seq<Event> {
    if log == [] then []
    else
      var e := log[|log| - 1];
      Essential(log[..|log| - 1]) + (if e.Sent? && e.kind == Pong then [] else [e])
  }

  predicate AudioThenEnd(ev: seq<Event>, ended: bool) {
    && (ended ==> |ev| > 0 && ev[|ev| - 1].Sent? && ev[|ev| - 1].kind == EndFrame)
    && (forall k :: 0 <= k < (if ended then |ev| - 1 else |ev|) ==> ev[k].Sent? && ev[k].kind == Audio)
  }

  /** What may be seen of a session on its connection: in v2 audio frames and at
      most one end frame after them; in v3 a start frame first, and anything
      further only if it was sent whole and acknowledged with code 0. */
  predicate SessionShape(v: Version, p: LinkPhase, ev: seq<Event>) {
    match p
    case Fresh => v == V3 && ev == []
    case Started => v == V3 && ev == [Sent(StartFrame, true)]
    case Dead => v == V3 && ev == [Sent(StartFrame, false)]
    case Bad => false
    case _ =>
      if v == V2 then AudioThenEnd(ev, p == Ended)
      else |ev| >= 2 && ev[0] == Sent(StartFrame, true) && ev[1] == AckRead && AudioThenEnd(ev[2..], p == Ended)
  }

  lemma AudioMore(ev: seq<Event>, e: Event)
    ensures AudioThenEnd([], false)
    ensures AudioThenEnd(ev, false) && e.Sent? && e.kind == Audio ==> AudioThenEnd(ev + [e], false)
    ensures AudioThenEnd(ev, false) && e.Sent? && e.kind == EndFrame ==> AudioThenEnd(ev + [e], true)
  {
  }

  lemma {:induction false} LinkShape(v: Version, log: seq<Event>)
    requires Link(v, log) != Bad
    ensures SessionShape(v, Link(v, log), Essential(log))
  {
    hide AudioThenEnd;
    AudioMore([], AckRead);
    if log != [] {
      var init, e := log[..|log| - 1], log[|log| - 1];
      LinkShape(v, init);
      var ev := Essential(init);
      assert ev + [] == ev && [] + [e] == [e];
      AudioMore(ev, e);
      assert |ev| == 1 ==> (ev + [e])[2..] == [];
      if v == V3 && |ev| >= 2 {
        assert (ev + [e])[2..] == ev[2..] + [e];
        AudioMore(ev[2..], e);
      }
    }
  }

  /** In every run, on every connection: no audio after the end frame, at most
      one end frame, and in v3 no audio before an ack with code 0 was read. */
  lemma UplinkShape(ss: seq<State>, i: nat, c: ConnId)
    requires Behaviour(ss) && i < |ss| && c < |ss[i].g.conns|
    ensures var g := ss[i].g;
            g.conns[c].phase != Bad && SessionShape(g.version, g.conns[c].phase, Essential(g.conns[c].log))
  {
    Reachable(ss, i);
    LinkShape(ss[i].g.version, ss[i].g.conns[c].log);
  }

  /** What was sent, pongs aside. */
  function Frames(log: seq<Event>): seq<Event> {
    if log == [] then []
    else
      var e := log[|log| - 1];
      Frames(log[..|log| - 1]) + (if e.Sent? && e.kind != Pong then [e] else [])
  }

  /** As long as nothing but the start frame has been sent whole. */
  lemma {:induction false} NothingButStart(v: Version, log: seq<Event>)
    requires Link(v, log) in {Fresh, Started, Ready, Dead}
    ensures v == V2 ==> Link(v, log) == Ready
    ensures Frames(log) ==
            match Link(v, log)
            case Started => [Sent(StartFrame, true)]
            case Dead => [Sent(StartFrame, false)]
            case Ready => if v == V3 then [Sent(StartFrame, true)] else []
            case _ => []
  {
    if log != [] {
      var init, e := log[..|log| - 1], log[|log| - 1];
      NothingButStart(v, init);
      assert Frames(init) + [] == Frames(init) && [] + [e] == [e];
    }
  }

  /** Until Running is entered no connection has carried anything but a start
      frame, whatever the peer answered and however often Start was tried. */
  lemma FailedStartSentOnlyStart(ss: seq<State>, i: nat, c: ConnId)
    requires Behaviour(ss) && i < |ss| && c < |ss[i].g.conns|
    requires ss[i].g.state == Idle || ss[i].g.state == Starting
    ensures Frames(ss[i].g.conns[c].log) in {[], [Sent(StartFrame, true)], [Sent(StartFrame, false)]}
  {
    Reachable(ss, i);
    NothingButStart(ss[i].g.version, ss[i].g.conns[c].log);
  }

  // -------------------------------------------------------------- lifecycle

  function Rank(x: Lifecycle): nat {
    match x case Idle => 0 case Starting => 1 case Running => 2 case Stopping => 3 case Stopped => 4
  }

  /** Forward, or from Starting back to Idle. */
  predicate Move(x: Lifecycle, y: Lifecycle) {
    || x == y || (x == Starting && y == Idle)
    || (Rank(x) < Rank(y) && !(x == Idle && y != Starting) && !(x == Starting && y != Running))
  }

  lemma CloseKeepsState(g: Shared)
    ensures CloseConn(g).state == g.state
  {
  }

  lemma StartMoves(g: Shared, t: Tid, st: StartPc, k: Choice, newborn: Tid)
    requires SharedInv(g) && StartInv(g, t, st) && StartStep(g, t, st, k, newborn).Next?
    ensures Move(g.state, StartStep(g, t, st, k, newborn).g.state)
  {
    hide Send, SendChoice, CloseConn, ConnInv, InUse, DialInv, Logged;
    CloseKeepsState(g);
    match st {
      case StConnect =>
      case StSend(c) => SendOnlyConns(g, c, StartFrame, k);
      case StPublish(c) =>
      case StAck(c, due) =>
        match k {
          case AckFrame(a) => AckMoves(g, c, due, a);
          case _ =>
        }
      case StPong(c, due) => SendOnlyConns(g, c, Pong, k);
      case StClose =>
      case _ =>
    }
  }

  lemma AckMoves(g: Shared, c: ConnId, due: nat, a: Ack)
    ensures var r := AckStep(g.(h := g.h.(ack := Some(a))), c, due, a); r.Next? && r.g.state == g.state
  {
    hide Throws;
  }

  lemma WriteMoves(g: Shared, t: Tid, wr: WritePc, k: Choice)
    requires WriteStep(g, t, wr, k).Next?
    ensures WriteStep(g, t, wr, k).g.state == g.state
  {
    hide Send, SendChoice;
    match wr {
      case WrSend(c) => SendOnlyConns(g, c, Audio, k);
      case _ =>
    }
  }

  lemma StopMoves(g: Shared, t: Tid, rd: bool, sp: StopPc, k: Choice, newborn: Tid)
    requires SharedInv(g) && StopInv(g, t, rd, sp) && StopStep(g, t, sp, k, newborn).Next?
    ensures Move(g.state, StopStep(g, t, sp, k, newborn).g.state)
  {
    hide Send, SendChoice, CloseConn, ConnInv, InUse, Up;
    CloseKeepsState(g);
    match sp {
      case SpSend(c) => SendOnlyConns(g, c, EndFrame, k);
      case SpClose =>
      case SpConn =>
      case SpRecheck(c) =>
      case SpTid =>
      case _ =>
    }
  }

  lemma WaitMoves(g: Shared, t: Tid, last: bool, wt: WaitPc)
    requires WaitStep(g, t, last, wt).Next?
    ensures WaitStep(g, t, last, wt).g.state == g.state
  {
    hide CloseConn;
    CloseKeepsState(g);
    match wt {
      case WtClose(due) =>
      case WtCheck(due) =>
      case WtTimeout(due) =>
      case WtGrace(due) =>
      case WtFinal =>
      case WtOver =>
      case _ =>
    }
  }

  lemma ReaderMoves(g: Shared, t: Tid, at: ReaderPc, rc: ConnId, k: Choice)
    requires SharedInv(g) && ReaderInv(g, t, at, rc) && ReaderStep(g, t, at, rc, k).To?
    ensures Move(g.state, ReaderStep(g, t, at, rc, k).g.state)
  {
    match at {
      case RConn => case RRead => case RPong => case RFinish(next) => case RFinClose(next) =>
      case _ =>
    }
  }

  lemma MoveSame(x: Lifecycle)
    ensures Move(x, x)
  {
  }

  lemma StepMoves(s: State, s': State)
    requires Inv(s) && NextState(s, s')
    ensures Move(s.g.state, s'.g.state)
  {
    var a :| NextBy(s, a, s');
    MoveSame(s.g.state);
    if a.Run? {
      ActionMoves(s, a.t, a.k, s');
    }
  }

  lemma ActionMoves(s: State, t: Tid, k: Choice, s': State)
    requires Inv(s) && NextBy(s, Run(t, k), s')
    ensures Move(s.g.state, s'.g.state)
  {
    hide StartStep, StopStep, WaitStep, ReaderStep, SharedInv, HistoryInv, Ids, Move;
    MoveSame(s.g.state);
    var th := s.threads[t];
    assert LocalInv(s.g, t, th);
    match th.op {
      case NoCall =>
        if !k.Call? {
          ReaderMoves(s.g, t, th.role.at, th.role.rc, k);
        }
      case InStart(st) => StartMoves(s.g, t, st, k, |s.threads|);
      case InWrite(wr) => WriteMoves(s.g, t, wr, k);
      case InStop(sp) => StopMoves(s.g, t, th.role.Reader?, sp, k, |s.threads|);
      case InWait(last, wt) => WaitMoves(s.g, t, last, wt);
    }
  }

  lemma RunMoves(ss: seq<State>, i: nat)
    requires Behaviour(ss) && i + 1 < |ss|
    ensures Move(ss[i].g.state, ss[i + 1].g.state)
  {
    Reachable(ss, i);
    assert StepAt(ss, i);
    StepMoves(ss[i], ss[i + 1]);
  }

  /** From Running on, the lifecycle never goes back. */
  lemma {:induction false} NeverBack(ss: seq<State>, i: nat, j: nat)
    requires Behaviour(ss) && i <= j < |ss| && Rank(ss[i].g.state) >= 2
    ensures Rank(ss[i].g.state) <= Rank(ss[j].g.state)
  {
    if i < j {
      NeverBack(ss, i, j - 1);
      RunMoves(ss, j - 1);
    }
  }

  predicate Enters(ss: seq<State>, i: nat)
    requires i + 1 < |ss|
  {
    ss[i].g.state != Running && ss[i + 1].g.state == Running
  }

  /** A successful compare-and-swap of Stop. */
  predicate Stops(ss: seq<State>, i: nat)
    requires i + 1 < |ss|
  {
    ss[i].g.state == Running && ss[i + 1].g.state == Stopping
  }

  /** Running is entered at most once in a run, and at most one Stop takes the
      session out of it; each step moves the lifecycle
      forward or from Starting back to Idle; Stopped is never left. */
  lemma RunningOnce(ss: seq<State>, i: nat, j: nat)
    requires Behaviour(ss) && i + 1 < |ss| && j + 1 < |ss| && i <= j
    ensures Enters(ss, i) && Enters(ss, j) ==> i == j
    ensures Stops(ss, i) && Stops(ss, j) ==> i == j
    ensures Move(ss[i].g.state, ss[i + 1].g.state)
    ensures ss[i].g.state == Stopped ==> ss[j].g.state == Stopped
  {
    RunMoves(ss, i);
    RunMoves(ss, j);
    if Rank(ss[i].g.state) >= 2 {
      NeverBack(ss, i, j);
    }
    if (Enters(ss, i) || Stops(ss, i)) && i < j {
      NeverBack(ss, i + 1, j);
    }
  }

  /** At most one reader thread and one watchdog per recognizer. */
  lemma OneReader(ss: seq<State>, i: nat, t: Tid, u: Tid)
    requires Behaviour(ss) && i < |ss| && t < |ss[i].threads| && u < |ss[i].threads|
    ensures ss[i].threads[t].role.Reader? && ss[i].threads[u].role.Reader? ==> t == u
    ensures ss[i].threads[t].role.Watchdog? && ss[i].threads[u].role.Watchdog? ==> t == u
  {
    Reachable(ss, i);
    assert LocalInv(ss[i].g, t, ss[i].threads[t]) && LocalInv(ss[i].g, u, ss[i].threads[u]);
  }
}
