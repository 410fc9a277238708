/** Stop: what a whole call puts on the wire and where it leaves the session. */
module SessionStopCall {
  import opened Basics
  import opened Session
  import opened SessionInvariant
  import opened SessionTheorems
  import opened SessionRuns
  import opened SessionCalls

  /** The compare-and-swap took the session from Running to Stopping. */
  ghost predicate Won(ss: seq<State>, acts: seq<Action>, t: Tid, i: nat, m: nat) {
    Did(ss, acts, t, i, m, InStop(SpCas), Found(Running)) && Did(ss, acts, t, i, m, InStop(SpCas), Left(Stopping))
  }

  /** There was no connection. */
  ghost predicate Alone(ss: seq<State>, acts: seq<Action>, t: Tid, i: nat, m: nat)
    requires |ss| == |acts| + 1 && i <= m < |ss|
  {
    Quiet(ss, acts, t, i, m) && Did(ss, acts, t, i, m, InStop(SpConn), FoundConn(None))
  }

  /** Under write_mu the session had ended by itself. */
  ghost predicate Skipped(ss: seq<State>, acts: seq<Action>, t: Tid, i: nat, m: nat)
    requires |ss| == |acts| + 1 && i <= m < |ss|
  {
    Quiet(ss, acts, t, i, m) && exists c :: Did(ss, acts, t, i, m, InStop(SpRecheck(c)), Found(Stopped))
  }

  /** On the connection it found, and on no other, it put one end frame, as far as
      the send went. */
  ghost predicate SentEnd(ss: seq<State>, acts: seq<Action>, t: Tid, i: nat, m: nat, k: Choice)
    requires |ss| == |acts| + 1 && i <= m < |ss|
  {
    exists c ::
      && Did(ss, acts, t, i, m, InStop(SpConn), FoundConn(Some(c)))
      && Did(ss, acts, t, i, m, InStop(SpSend(c)), Chose(k))
      && Only(ss, acts, t, i, m, c,
              if k == SendWhole then [Sent(EndFrame, true)]
              else if k == SendPart then [Sent(EndFrame, false)]
              else [])
  }

  ghost predicate FailedEnd(ss: seq<State>, acts: seq<Action>, t: Tid, i: nat, m: nat)
    requires |ss| == |acts| + 1 && i <= m < |ss|
  {
    SentEnd(ss, acts, t, i, m, SendPart) || SentEnd(ss, acts, t, i, m, SendNone)
  }

  /** A Stop in progress. */
  ghost predicate StopStory(ss: seq<State>, acts: seq<Action>, t: Tid, i: nat, m: nat, op: Op)
    requires |ss| == |acts| + 1 && i <= m < |ss|
  {
    match op
    case InStop(SpCas) => Quiet(ss, acts, t, i, m)
    case InStop(sp) => Won(ss, acts, t, i, m) && SendStory(ss, acts, t, i, m, sp)
    case InWait(true, _) => Won(ss, acts, t, i, m) && SentEnd(ss, acts, t, i, m, SendWhole)
    case InWait(false, _) =>
      Won(ss, acts, t, i, m) &&
      (Skipped(ss, acts, t, i, m) ||
       (FailedEnd(ss, acts, t, i, m) && Did(ss, acts, t, i, m, InStop(SpFailed), Found(Stopped))))
    case _ => false
  }

  ghost predicate SendStory(ss: seq<State>, acts: seq<Action>, t: Tid, i: nat, m: nat, sp: StopPc)
    requires |ss| == |acts| + 1 && i <= m < |ss|
  {
    if sp.SpLock? || sp.SpRecheck? || sp.SpWireLock? || sp.SpSend? then
      Quiet(ss, acts, t, i, m) && Did(ss, acts, t, i, m, InStop(SpConn), FoundConn(Some(sp.c)))
    else if sp.SpFailed? || sp.SpCloseLock? || sp.SpClose? then FailedEnd(ss, acts, t, i, m)
    else if sp.SpTidLock? || sp.SpTid? || sp.SpSpawn? then SentEnd(ss, acts, t, i, m, SendWhole)
    else if sp.SpStore? then Stored(ss, acts, t, i, m)
    else Quiet(ss, acts, t, i, m)
  }

  /** The ways to the step that stores Stopped. */
  ghost predicate Stored(ss: seq<State>, acts: seq<Action>, t: Tid, i: nat, m: nat)
    requires |ss| == |acts| + 1 && i <= m < |ss|
  {
    || Alone(ss, acts, t, i, m)
    || (FailedEnd(ss, acts, t, i, m) && Did(ss, acts, t, i, m, InStop(SpClose), LeftConn(None)))
    || (SentEnd(ss, acts, t, i, m, SendWhole) && Waited(ss, acts, t, i, m))
  }

  /** It has waited for the reader until that was done, or has given up. */
  ghost predicate Waited(ss: seq<State>, acts: seq<Action>, t: Tid, i: nat, m: nat) {
    || (exists wt :: Did(ss, acts, t, i, m, InWait(true, wt), FoundDone))
    || Did(ss, acts, t, i, m, InWait(true, WtOver), Passed)
  }

  lemma WaitedMore(ss: seq<State>, acts: seq<Action>, t: Tid, i: nat, m: nat)
    requires m < |acts| && Waited(ss, acts, t, i, m)
    ensures Waited(ss, acts, t, i, m + 1)
  {
    hide Did;
    DidMore(ss, acts, t, i, m, InWait(true, WtOver), Passed);
    if wt :| Did(ss, acts, t, i, m, InWait(true, wt), FoundDone) {
      DidMore(ss, acts, t, i, m, InWait(true, wt), FoundDone);
    }
  }

  lemma WaitedNow(ss: seq<State>, acts: seq<Action>, t: Tid, i: nat, m: nat, wt: WaitPc)
    requires |ss| == |acts| + 1 && i < m < |acts| && At(ss, acts, t, m, InWait(true, wt))
    requires ss[m].g.done || wt == WtOver
    ensures Waited(ss, acts, t, i, m + 1)
  {
    hide Did;
    DidMore(ss, acts, t, i, m, InWait(true, wt), FoundDone);
    DidMore(ss, acts, t, i, m, InWait(true, wt), Passed);
  }

  lemma WonMore(ss: seq<State>, acts: seq<Action>, t: Tid, i: nat, m: nat)
    requires m < |acts| && Won(ss, acts, t, i, m)
    ensures Won(ss, acts, t, i, m + 1)
  {
    hide Did;
    DidMore(ss, acts, t, i, m, InStop(SpCas), Found(Running));
    DidMore(ss, acts, t, i, m, InStop(SpCas), Left(Stopping));
  }

  lemma SentMore(ss: seq<State>, acts: seq<Action>, t: Tid, i: nat, m: nat, k: Choice)
    requires |ss| == |acts| + 1 && i <= m < |acts| && SentEnd(ss, acts, t, i, m, k)
    requires forall c, ev :: Only(ss, acts, t, i, m, c, ev) ==> Only(ss, acts, t, i, m + 1, c, ev)
    ensures SentEnd(ss, acts, t, i, m + 1, k)
  {
    hide Did, Only;
    var c :|
      && Did(ss, acts, t, i, m, InStop(SpConn), FoundConn(Some(c)))
      && Did(ss, acts, t, i, m, InStop(SpSend(c)), Chose(k))
      && Only(ss, acts, t, i, m, c,
              if k == SendWhole then [Sent(EndFrame, true)]
              else if k == SendPart then [Sent(EndFrame, false)]
              else []);
    DidMore(ss, acts, t, i, m, InStop(SpConn), FoundConn(Some(c)));
    DidMore(ss, acts, t, i, m, InStop(SpSend(c)), Chose(k));
  }

  lemma SkippedMore(ss: seq<State>, acts: seq<Action>, t: Tid, i: nat, m: nat)
    requires |ss| == |acts| + 1 && i <= m < |acts| && Skipped(ss, acts, t, i, m)
    requires Quiet(ss, acts, t, i, m + 1)
    ensures Skipped(ss, acts, t, i, m + 1)
  {
    hide Did, Quiet;
    var c :| Did(ss, acts, t, i, m, InStop(SpRecheck(c)), Found(Stopped));
    DidMore(ss, acts, t, i, m, InStop(SpRecheck(c)), Found(Stopped));
  }

  /** A step that adds nothing to any log leaves the story as it was. */
  lemma StoryMore(ss: seq<State>, acts: seq<Action>, t: Tid, i: nat, m: nat, op: Op)
    requires |ss| == |acts| + 1 && i <= m < |acts| && StopStory(ss, acts, t, i, m, op)
    requires Quiet(ss, acts, t, i, m) ==> Quiet(ss, acts, t, i, m + 1)
    requires forall c, ev :: Only(ss, acts, t, i, m, c, ev) ==> Only(ss, acts, t, i, m + 1, c, ev)
    ensures StopStory(ss, acts, t, i, m + 1, op)
  {
    hide Did, Quiet, Only, SentEnd, Skipped, Won, Waited;
    if Waited(ss, acts, t, i, m) {
      WaitedMore(ss, acts, t, i, m);
    }
    if Won(ss, acts, t, i, m) {
      WonMore(ss, acts, t, i, m);
    }
    forall k | SentEnd(ss, acts, t, i, m, k)
      ensures SentEnd(ss, acts, t, i, m + 1, k)
    {
      SentMore(ss, acts, t, i, m, k);
    }
    if Skipped(ss, acts, t, i, m) {
      assert Quiet(ss, acts, t, i, m) by { QuietIfSkipped(ss, acts, t, i, m); }
      SkippedMore(ss, acts, t, i, m);
    }
    DidMore(ss, acts, t, i, m, InStop(SpConn), FoundConn(None));
    DidMore(ss, acts, t, i, m, InStop(SpClose), LeftConn(None));
    DidMore(ss, acts, t, i, m, InStop(SpFailed), Found(Stopped));
    match op {
      case InStop(SpLock(c)) => DidMore(ss, acts, t, i, m, InStop(SpConn), FoundConn(Some(c)));
      case InStop(SpRecheck(c)) => DidMore(ss, acts, t, i, m, InStop(SpConn), FoundConn(Some(c)));
      case InStop(SpWireLock(c)) => DidMore(ss, acts, t, i, m, InStop(SpConn), FoundConn(Some(c)));
      case InStop(SpSend(c)) => DidMore(ss, acts, t, i, m, InStop(SpConn), FoundConn(Some(c)));
      case _ =>
    }
  }

  lemma QuietIfSkipped(ss: seq<State>, acts: seq<Action>, t: Tid, i: nat, m: nat)
    requires |ss| == |acts| + 1 && i <= m < |ss| && Skipped(ss, acts, t, i, m)
    ensures Quiet(ss, acts, t, i, m)
  {
  }

  lemma StopTurn(ss: seq<State>, acts: seq<Action>, t: Tid, i: nat, m: nat, sp: StopPc)
    requires |ss| == |acts| + 1 && i < m < |acts| && At(ss, acts, t, m, InStop(sp)) && !sp.SpSend?
    requires StopStory(ss, acts, t, i, m + 1, InStop(sp))
    requires var r := StopStep(ss[m].g, t, sp, acts[m].k, |ss[m].threads|);
             r.Next? && r.g == ss[m + 1].g && t < |ss[m + 1].threads| && r.op == ss[m + 1].threads[t].op
    ensures var op := ss[m + 1].threads[t].op; op != NoCall ==> StopStory(ss, acts, t, i, m + 1, op)
  {
    hide Did, Quiet, Only, SentEnd, FailedEnd, Won, At, Waited, CloseConn;
    var n := m + 1;
    Recorded(ss, acts, t, i, m, InStop(sp));
    CloseLog(ss[m].g, 0);
    match sp {
      case SpCas =>
        if ss[m].g.state == Running {
          WonNow(ss, acts, t, i, n);
        }
      case SpRecheck(c) =>
      case _ =>
    }
  }

  lemma WonNow(ss: seq<State>, acts: seq<Action>, t: Tid, i: nat, n: nat)
    requires Did(ss, acts, t, i, n, InStop(SpCas), Found(Running))
    requires Did(ss, acts, t, i, n, InStop(SpCas), Left(Stopping))
    ensures Won(ss, acts, t, i, n)
  {
  }

  lemma WaitTurn(g: Shared, t: Tid, last: bool, wt: WaitPc)
    requires WaitStep(g, t, last, wt).Next?
    ensures var op := WaitStep(g, t, last, wt).op;
            if last then (op.InWait? && op.last) || op == InStop(SpStore) else op == NoCall || (op.InWait? && !op.last)
    ensures !WaitStep(g, t, last, wt).op.InWait? ==> g.done || wt == WtOver
  {
  }

  lemma SendTurn(ss: seq<State>, acts: seq<Action>, t: Tid, i: nat, m: nat, c: ConnId)
    requires Runs(ss, acts) && i < m < |acts| && InCall(ss[m], t) && At(ss, acts, t, m, InStop(SpSend(c)))
    requires StopStory(ss, acts, t, i, m, InStop(SpSend(c)))
    ensures t < |ss[m + 1].threads|
    ensures StopStory(ss, acts, t, i, m + 1, ss[m + 1].threads[t].op)
  {
    hide Did, Quiet, Only, Won, Send, StepBy, Init;
    CallStepAt(ss, acts, t, m, 0);
    var k := acts[m].k;
    WonMore(ss, acts, t, i, m);
    Recorded(ss, acts, t, i, m, InStop(SpSend(c)));
    DidMore(ss, acts, t, i, m, InStop(SpConn), FoundConn(Some(c)));
    OnlyNow(ss, acts, t, i, m, c, Put(EndFrame, k));
    assert SentEnd(ss, acts, t, i, m + 1, k);
  }

  lemma StoryStep(ss: seq<State>, acts: seq<Action>, t: Tid, i: nat, m: nat)
    requires Runs(ss, acts) && i < m < |acts| && InCall(ss[m], t)
    requires StopStory(ss, acts, t, i, m, ss[m].threads[t].op)
    ensures t < |ss[m + 1].threads|
    ensures InCall(ss[m + 1], t) ==> StopStory(ss, acts, t, i, m + 1, ss[m + 1].threads[t].op)
  {
    hide StopStep, WaitStep, Waited, Quiet, Only, SendStory, Won, SentEnd, FailedEnd, Skipped, StepBy, Init, Did;
    CallStepAt(ss, acts, t, m, 0);
    var op := ss[m].threads[t].op;
    if op.InStop? && op.sp.SpSend? && acts[m].Run? && acts[m].t == t {
      SendTurn(ss, acts, t, i, m, op.sp.c);
    } else {
      QuietMore(ss, acts, t, i, m);
      StoryMore(ss, acts, t, i, m, op);
      if acts[m].Run? && acts[m].t == t {
        if op.InStop? {
          StopTurn(ss, acts, t, i, m, op.sp);
        } else {
          WaitTurn(ss[m].g, t, op.last, op.wt);
          if InCall(ss[m + 1], t) {
            if op.last && !ss[m + 1].threads[t].op.InWait? {
              WaitedNow(ss, acts, t, i, m, op.wt);
            }
            WaitStory(ss, acts, t, i, m + 1, op.last, op.wt, ss[m + 1].threads[t].op);
          }
        }
      }
    }
  }

  lemma WaitStory(ss: seq<State>, acts: seq<Action>, t: Tid, i: nat, n: nat, last: bool, wt: WaitPc, op: Op)
    requires |ss| == |acts| + 1 && i <= n < |ss| && StopStory(ss, acts, t, i, n, InWait(last, wt))
    requires if last then (op.InWait? && op.last) || op == InStop(SpStore) else op.InWait? && !op.last
    requires op == InStop(SpStore) ==> Waited(ss, acts, t, i, n)
    ensures StopStory(ss, acts, t, i, n, op)
  {
    hide Quiet, Won, SentEnd, FailedEnd, Skipped, Did, Waited;
  }

  lemma {:induction false} StopSoFar(ss: seq<State>, acts: seq<Action>, t: Tid, i: nat, j: nat, m: nat)
    requires Runs(ss, acts) && Called(ss, acts, t, CallStop, i, j) && i < m < j
    ensures StopStory(ss, acts, t, i, m, ss[m].threads[t].op)
  {
    hide StepBy, Init, StopStory, Quiet;
    if m == i + 1 {
      Entered(ss, acts, t, CallStop, i);
      Starts(ss, acts, t, i);
    } else {
      StopSoFar(ss, acts, t, i, j, m - 1);
      StoryStep(ss, acts, t, i, m - 1);
    }
  }

  lemma Starts(ss: seq<State>, acts: seq<Action>, t: Tid, i: nat)
    requires |ss| == |acts| + 1 && i < |acts| && Quiet(ss, acts, t, i, i + 1)
    ensures StopStory(ss, acts, t, i, i + 1, InStop(SpCas))
  {
  }

  /** In every run, a call of Stop by any thread ends in one of four ways.
      The session was not Running: nothing is sent.  Otherwise it has taken the session
      to Stopping, and returns from the store of Stopped, having found no connection
      (nothing is sent), or sent the end frame whole and waited for the reader, or
      failed to send and closed the connection; or, called from a callback, it has sent
      the end frame whole and left a watchdog behind to wait in its place; or it has
      seen under write_mu (nothing is sent), or after a failed send, that the session had
      ended by itself, and waited for the reader.  Wherever it has tried to send, it has
      put on the connection it found one end frame, as far as that went, and nothing
      on any other. */
  lemma StopCall(ss: seq<State>, acts: seq<Action>, t: Tid, i: nat, j: nat)
    requires Runs(ss, acts) && Called(ss, acts, t, CallStop, i, j)
    ensures acts[j - 1].Run? && acts[j - 1].t == t
    ensures match ss[j - 1].threads[t].op
            case InStop(SpCas) => ss[j - 1].g.state != Running && Quiet(ss, acts, t, i, j)
            case InStop(SpStore) => Won(ss, acts, t, i, j) && Stored(ss, acts, t, i, j) && ss[j].g.state == Stopped
            case InStop(SpSpawn) =>
              && Won(ss, acts, t, i, j) && SentEnd(ss, acts, t, i, j, SendWhole)
              && ss[j - 1].threads[t].role.Reader?
              && |ss[j].threads| == |ss[j - 1].threads| + 1
              && ss[j].threads[|ss[j - 1].threads|] == Thread(Watchdog, InWait(false, WtLock))
            case InWait(false, wt) =>
              && Won(ss, acts, t, i, j) && ss[j].g.state == Stopped && (ss[j - 1].g.done || wt == WtOver)
              && (Skipped(ss, acts, t, i, j) ||
                  (FailedEnd(ss, acts, t, i, j) && Did(ss, acts, t, i, j, InStop(SpFailed), Found(Stopped))))
            case _ => false
  {
    hide StepBy, Init, Quiet, Only, Won, Waited, SentEnd, FailedEnd, Skipped, Alone, Did, NextBy, Inv, OpStep, LocalInv;
    var m := j - 1;
    var op := ss[m].threads[t].op;
    StopSoFar(ss, acts, t, i, j, m);
    CallStepAt(ss, acts, t, m, 0);
    RunInv(ss, acts, m);
    Own(ss[m], t, acts[m].k, ss[j]);
    Returns(ss[m].g, t, op, acts[m].k, |ss[m].threads|);
    QuietMore(ss, acts, t, i, m);
    StoryMore(ss, acts, t, i, m, op);
    if op.InWait? {
      EndedAlone(ss, acts, t, i, j);
    } else if op.sp.SpSpawn? {
      SpawnsOnReader(ss, m, t);
    }
  }

  /** The steps from which a Stop can return. */
  lemma Returns(g: Shared, t: Tid, op: Op, k: Choice, newborn: Tid)
    requires op.InStop? || op.InWait?
    requires OpStep(g, t, op, k, newborn).Next? && OpStep(g, t, op, k, newborn).op == NoCall
    ensures var r := OpStep(g, t, op, k, newborn);
            match op
            case InStop(SpCas) => g.state != Running
            case InStop(SpStore) => r.g.state == Stopped
            case InStop(SpSpawn) => r.born == Some(Thread(Watchdog, InWait(false, WtLock)))
            case InWait(last, wt) => !last && (g.done || wt == WtOver)
            case _ => false
  {
    hide CloseConn, Send;
  }

  lemma SpawnsOnReader(ss: seq<State>, m: nat, t: Tid)
    requires m < |ss| && Inv(ss[m]) && t < |ss[m].threads| && ss[m].threads[t].op == InStop(SpSpawn)
    ensures ss[m].threads[t].role.Reader?
  {
    assert LocalInv(ss[m].g, t, ss[m].threads[t]);
  }

  /** Once Stopped has been seen it stays. */
  lemma StaysStopped(ss: seq<State>, acts: seq<Action>, t: Tid, i: nat, m: nat, op: Op)
    requires Runs(ss, acts) && m < |ss| && Did(ss, acts, t, i, m, op, Found(Stopped))
    ensures ss[m].g.state == Stopped
  {
    hide Runs, Behaviour;
    RunBehaves(ss, acts);
    var b :| i < b < m && At(ss, acts, t, b, op) && Is(ss[b].g, acts[b].k, ss[b + 1].g, Found(Stopped));
    NeverBack(ss, b, m);
  }

  lemma EndedAlone(ss: seq<State>, acts: seq<Action>, t: Tid, i: nat, j: nat)
    requires Runs(ss, acts) && i <= j < |ss|
    requires Skipped(ss, acts, t, i, j) || Did(ss, acts, t, i, j, InStop(SpFailed), Found(Stopped))
    ensures ss[j].g.state == Stopped
  {
    hide Runs, Did, Quiet;
    if Did(ss, acts, t, i, j, InStop(SpFailed), Found(Stopped)) {
      StaysStopped(ss, acts, t, i, j, InStop(SpFailed));
    } else {
      var c :| Did(ss, acts, t, i, j, InStop(SpRecheck(c)), Found(Stopped));
      StaysStopped(ss, acts, t, i, j, InStop(SpRecheck(c)));
    }
  }
}
