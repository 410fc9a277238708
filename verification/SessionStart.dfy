/** What a v3 Start that fails leaves behind on the connection it dialled. */
module SessionStart {
  import opened Basics
  import opened Session
  import opened SessionInvariant
  import opened SessionReach

  /** The step in which Start gives up. */
  predicate Fails(ss: seq<State>, i: nat, t: Tid)
    requires i + 1 < |ss|
  {
    && t < |ss[i].threads| && t < |ss[i + 1].threads|
    && ss[i].threads[t].op == InStart(StFail) && ss[i + 1].threads[t].op == NoCall
  }

  /** In every run: a Start that fails leaves the connection it dialled open exactly
      if the last ack it read is not an object, or carries a code that is neither
      a number nor a boolean, or carries code 0 and a speaker context one of whose
      fields is not a string.  In that case the open connection stays published. */
  lemma FailedStartLeavesOpen(ss: seq<State>, i: nat, t: Tid)
    requires Behaviour(ss) && i + 1 < |ss| && Fails(ss, i, t)
    ensures var g := ss[i + 1].g;
            && g.state == Idle
            && (g.h.dialled.Some? ==>
                  var c := g.h.dialled.value;
                  && c < |g.conns|
                  && (g.conns[c].open <==> g.h.ack.Some? && Throws(g.h.ack.value))
                  && (g.conns[c].open ==> g.conn == Some(c)))
  {
    Reachable(ss, i);
    assert LocalInv(ss[i].g, t, ss[i].threads[t]);
    assert StepAt(ss, i);
    FailStep(ss[i], ss[i + 1], t);
  }

  lemma FailStep(s: State, s': State, t: Tid)
    requires NextState(s, s') && t < |s.threads| && t < |s'.threads|
    requires s.threads[t].op == InStart(StFail) && s'.threads[t].op == NoCall
    ensures s'.g == s.g.(state := Idle, h := s.g.h.(starter := None))
  {
    var a :| NextBy(s, a, s');
  }

  // ------------------------------------------------------- an instance of it

  /** One step of thread 0. */
  predicate CanPlay(s: State, k: Choice) {
    |s.threads| > 0 && ThreadStep(s.g, 0, s.threads[0], k, |s.threads|).Moved?
  }

  function Play(s: State, k: Choice): State
    requires CanPlay(s, k)
  {
    var r := ThreadStep(s.g, 0, s.threads[0], k, |s.threads|);
    State(r.g, Born(s.threads[0 := r.th], r.born))
  }

  /** The states of one Start, alone, whose ack has code 0 and a continue_status
      that is a number. */
  const BAD_ACK := AckObject(Number(0), SpeakerObject(false, true))

  const H0 := History([], Silent, 0, false, false, None, None, None, None, None, None)
  const G0 := Shared(V3, Idle, None, false, false, false, None, 0, map[], {}, 0, [], H0)
  const G1 := G0.(state := Starting, h := H0.(starter := Some(0)))
  const G2 := G1.(conns := [Conn(true, [], Fresh, 0)], h := G1.h.(dialled := Some(0)))
  const G3 := G2.(conns := [Conn(true, [Sent(StartFrame, true)], Started, 0)])
  const G4 := G3.(conn := Some(0))
  const G5 := G4.(conns := [Conn(true, [Sent(StartFrame, true), AckRead], Ready, 0)],
                  h := G4.h.(ack := Some(BAD_ACK)))
  const G6 := G5.(state := Idle, h := G5.h.(starter := None))

  function At(g: Shared, op: Op): State {
    State(g, [Thread(App, op)])
  }

  lemma Dialling()
    ensures CanPlay(At(G0, NoCall), Call(CallStart))
    ensures Play(At(G0, NoCall), Call(CallStart)) == At(G0, InStart(StCas))
    ensures CanPlay(At(G0, InStart(StCas)), Go)
    ensures Play(At(G0, InStart(StCas)), Go) == At(G1, InStart(StConnect))
    ensures CanPlay(At(G1, InStart(StConnect)), DialOk(0))
    ensures Play(At(G1, InStart(StConnect)), DialOk(0)) == At(G2, InStart(StWireLock(0)))
  {
  }

  lemma Sending()
    ensures CanPlay(At(G2, InStart(StWireLock(0))), Go)
    ensures Play(At(G2, InStart(StWireLock(0))), Go) == At(Take(G2, WireMu(0), 0), InStart(StSend(0)))
    ensures CanPlay(At(Take(G2, WireMu(0), 0), InStart(StSend(0))), SendWhole)
    ensures Play(At(Take(G2, WireMu(0), 0), InStart(StSend(0))), SendWhole) == At(G3, InStart(StConnLock(0)))
  {
    assert map[][WireMu(0) := 0] - {WireMu(0)} == map[];
    assert [] + [Sent(StartFrame, true)] == [Sent(StartFrame, true)];
  }

  lemma Publishing()
    ensures CanPlay(At(G3, InStart(StConnLock(0))), Go)
    ensures Play(At(G3, InStart(StConnLock(0))), Go) == At(Take(G3, ConnMu, 0), InStart(StPublish(0)))
    ensures CanPlay(At(Take(G3, ConnMu, 0), InStart(StPublish(0))), SetTimeout(ACK_TIMEOUT))
    ensures Play(At(Take(G3, ConnMu, 0), InStart(StPublish(0))), SetTimeout(ACK_TIMEOUT)) ==
            At(G4, InStart(StAck(0, ACK_TIMEOUT)))
  {
    assert map[][ConnMu := 0] - {ConnMu} == map[];
  }

  lemma Reading()
    ensures CanPlay(At(G4, InStart(StAck(0, ACK_TIMEOUT))), AckFrame(BAD_ACK))
    ensures Play(At(G4, InStart(StAck(0, ACK_TIMEOUT))), AckFrame(BAD_ACK)) == At(G5, InStart(StFail))
  {
    assert [Sent(StartFrame, true)] + [AckRead] == [Sent(StartFrame, true), AckRead];
  }

  lemma Failing()
    ensures CanPlay(At(G5, InStart(StFail)), Go)
    ensures Play(At(G5, InStart(StFail)), Go) == At(G6, NoCall)
  {
  }

  function OpenRun(): seq<State> {
    [At(G0, NoCall), At(G0, InStart(StCas)), At(G1, InStart(StConnect)), At(G2, InStart(StWireLock(0))),
     At(Take(G2, WireMu(0), 0), InStart(StSend(0))), At(G3, InStart(StConnLock(0))),
     At(Take(G3, ConnMu, 0), InStart(StPublish(0))), At(G4, InStart(StAck(0, ACK_TIMEOUT))),
     At(G5, InStart(StFail)), At(G6, NoCall)]
  }

  /** A run of one Start that reads `{"code":0,"speaker_continue":{"continue_status":1}}`
      as its ack: the object is back at Idle, the good ack has been read, and the
      connection is open and published. */
  lemma FailedStartOpen()
    ensures Behaviour(OpenRun()) && |OpenRun()| == 10
    ensures Fails(OpenRun(), 8, 0)
    ensures var g := OpenRun()[9].g;
            && g.version == V3 && g.state == Idle && g.conn == Some(0)
            && g.conns[0].open && g.conns[0].log == [Sent(StartFrame, true), AckRead]
  {
    hide ThreadStep, CanPlay, Play;
    Dialling();
    Sending();
    Publishing();
    Reading();
    Failing();
    var ss := OpenRun();
    assert Behaviour(ss[..1]);
    Extend(ss, 1, Call(CallStart));
    Extend(ss, 2, Go);
    Extend(ss, 3, DialOk(0));
    Extend(ss, 4, Go);
    Extend(ss, 5, SendWhole);
    Extend(ss, 6, Go);
    Extend(ss, 7, SetTimeout(ACK_TIMEOUT));
    Extend(ss, 8, AckFrame(BAD_ACK));
    Extend(ss, 9, Go);
    assert ss[..10] == ss;
  }

  lemma Extend(ss: seq<State>, n: nat, k: Choice)
    requires 0 < n < |ss| && Behaviour(ss[..n]) && CanPlay(ss[n - 1], k) && ss[n] == Play(ss[n - 1], k)
    ensures Behaviour(ss[..n + 1])
  {
    AndThen(ss[..n], Run(0, k), ss[n]);
    assert ss[..n + 1] == ss[..n] + [ss[n]];
  }

  // ------------------------------------------------- how long a Start can wait

  /** Waiting for the ack, a pong to an early ping included. */
  predicate AwaitsAck(s: State, t: Tid) {
    && t < |s.threads| && s.threads[t].op.InStart?
    && (s.threads[t].op.st.StAck? || s.threads[t].op.st.StPongLock? || s.threads[t].op.st.StPong?)
  }

  lemma AwaitStep(s: State, a: Action, s': State, t: Tid)
    requires NextBy(s, a, s') && AwaitsAck(s, t) && AwaitsAck(s', t)
    ensures s'.threads[t].op.st.due == s.threads[t].op.st.due
  {
    hide WriteStep, StopStep, WaitStep, ReaderStep, Send, SendChoice, Logged;
    if a.Run? && a.t == t {
      var st := s.threads[t].op.st;
      match st {
        case StAck(c, due) =>
          match a.k {
            case AckFrame(f) =>
            case _ =>
          }
        case StPongLock(c, due) =>
        case StPong(c, due) =>
      }
    }
  }

  /** In every run: while a Start waits for its ack its deadline stands still, and a
      read that times out ends the wait exactly if that deadline has passed. */
  lemma {:induction false} AckDeadline(ss: seq<State>, i: nat, j: nat, t: Tid)
    requires Behaviour(ss) && i <= j && j + 1 < |ss|
    requires forall k :: i <= k <= j ==> AwaitsAck(ss[k], t)
    requires AwaitsAck(ss[i], t) && AwaitsAck(ss[j], t) && ss[j].threads[t].op.st.StAck?
    requires NextBy(ss[j], Run(t, PollTimeout), ss[j + 1])
    ensures t < |ss[j + 1].threads|
    ensures var due, op := ss[i].threads[t].op.st.due, ss[j + 1].threads[t].op;
            op == if ss[j].g.now >= due then InStart(StCloseLock) else InStart(StAck(ss[j].threads[t].op.st.c, due))
  {
    hide NextBy, AwaitsAck;
    DueStays(ss, i, j, t);
    TimedOutRead(ss[j], t, ss[j + 1]);
  }

  /** In every run: the deadline is set once, when the connection is published, five
      or, with a speaker context, fifteen seconds ahead. */
  lemma AckDue(ss: seq<State>, i: nat, t: Tid, c: ConnId)
    requires Behaviour(ss) && i + 1 < |ss| && t < |ss[i].threads| && ss[i].threads[t].op == InStart(StPublish(c))
    requires AwaitsAck(ss[i + 1], t)
    ensures ss[i + 1].threads[t].op.st.due in {ss[i].g.now + 5000, ss[i].g.now + 15000}
  {
    hide WriteStep, StopStep, WaitStep, ReaderStep, CloseConn;
    assert StepAt(ss, i);
  }

  lemma TimedOutRead(s: State, t: Tid, s': State)
    requires NextBy(s, Run(t, PollTimeout), s') && AwaitsAck(s, t) && s.threads[t].op.st.StAck?
    ensures t < |s'.threads|
    ensures var st := s.threads[t].op.st;
            s'.threads[t].op == InStart(if s.g.now >= st.due then StCloseLock else StAck(st.c, st.due))
  {
  }

  lemma {:induction false} DueStays(ss: seq<State>, i: nat, j: nat, t: Tid)
    requires Behaviour(ss) && i <= j < |ss| && AwaitsAck(ss[i], t)
    requires forall k :: i <= k <= j ==> AwaitsAck(ss[k], t)
    ensures AwaitsAck(ss[j], t) && ss[j].threads[t].op.st.due == ss[i].threads[t].op.st.due
  {
    hide NextBy, AwaitsAck;
    if i < j {
      DueStays(ss, i, j - 1, t);
      assert StepAt(ss, j - 1);
      var a :| NextBy(ss[j - 1], a, ss[j]);
      AwaitStep(ss[j - 1], a, ss[j], t);
    }
  }

  /** The state of a Start that has been waiting for `n` milliseconds. */
  function WaitAt(n: nat): State {
    if n == 0 then At(G4, InStart(StAck(0, ACK_TIMEOUT)))
    else At(G4.(now := n, h := G4.h.(ack := Some(AckSkip))), InStart(StAck(0, ACK_TIMEOUT)))
  }

  /** In each of which the peer has sent a frame that is no text. */
  function KeptWaiting(n: nat): (ss: seq<State>)
    ensures |ss| == 8 + 2 * n
  {
    if n == 0 then OpenRun()[..8]
    else
      var s := WaitAt(n - 1);
      KeptWaiting(n - 1) + [s.(g := s.g.(now := n)), WaitAt(n)]
  }

  lemma WaitingStep(n: nat)
    ensures var s := WaitAt(n); var u := s.(g := s.g.(now := n + 1));
            && NextBy(s, Tick, u) && NextBy(u, Run(0, AckFrame(AckSkip)), WaitAt(n + 1))
  {
  }

  lemma AndThen(ss: seq<State>, a: Action, s: State)
    requires Behaviour(ss) && NextBy(ss[|ss| - 1], a, s)
    ensures Behaviour(ss + [s])
  {
    hide NextBy;
    var tt := ss + [s];
    forall i | 0 <= i < |tt| - 1
      ensures StepAt(tt, i)
    {
      if i < |ss| - 1 {
        assert StepAt(ss, i);
      }
    }
  }

  /** In the m-th millisecond the clock ticks and then the Start reads a frame. */
  predicate FedAt(ss: seq<State>, m: nat) {
    && 9 + 2 * m < |ss| && NextBy(ss[7 + 2 * m], Tick, ss[8 + 2 * m])
    && NextBy(ss[8 + 2 * m], Run(0, AckFrame(AckSkip)), ss[9 + 2 * m])
  }

  lemma StillWaiting()
    ensures Behaviour(OpenRun()[..8]) && OpenRun()[..8][7] == WaitAt(0)
  {
    FailedStartOpen();
    Prefix(OpenRun(), 8);
  }

  lemma WaitAtIs(n: nat)
    ensures WaitAt(n).g.now == n && |WaitAt(n).threads| == 1
    ensures WaitAt(n).threads[0].op == InStart(StAck(0, ACK_TIMEOUT))
  {
  }

  /** A peer that sends a frame that is no text in every millisecond keeps Start
      waiting for any length of time past its deadline: no read ever times out. */
  lemma {:induction false} AckWaitUnbounded(n: nat)
    ensures var ss := KeptWaiting(n);
            && Behaviour(ss) && ss[|ss| - 1] == WaitAt(n) && (forall m :: 0 <= m < n ==> FedAt(ss, m))
    ensures WaitAt(n).g.now == n && |WaitAt(n).threads| == 1
    ensures WaitAt(n).threads[0].op == InStart(StAck(0, ACK_TIMEOUT))
  {
    hide NextBy, WaitAt, OpenRun, Behaviour;
    WaitAtIs(n);
    if n == 0 {
      StillWaiting();
    } else {
      AckWaitUnbounded(n - 1);
      WaitingStep(n - 1);
      var ss := KeptWaiting(n - 1);
      var u := WaitAt(n - 1).(g := WaitAt(n - 1).g.(now := n));
      AndThen(ss, Tick, u);
      AndThen(ss + [u], Run(0, AckFrame(AckSkip)), WaitAt(n));
      assert KeptWaiting(n) == ss + [u] + [WaitAt(n)];
      forall m | 0 <= m < n
        ensures FedAt(KeptWaiting(n), m)
      {
        assert m < n - 1 ==> FedAt(ss, m);
      }
    }
  }

  lemma Prefix(ss: seq<State>, n: nat)
    requires Behaviour(ss) && 0 < n <= |ss|
    ensures Behaviour(ss[..n])
  {
    hide NextBy;
    forall i | 0 <= i < n - 1
      ensures StepAt(ss[..n], i)
    {
      assert StepAt(ss, i);
    }
  }
}
