/** Write: what a whole call puts on the wire. */
module SessionWriteCall {
  import opened Basics
  import opened Session
  import opened SessionRuns
  import opened SessionCalls

  /** A Write in progress: what its steps have found so far. */
  ghost predicate WriteStory(ss: seq<State>, acts: seq<Action>, t: Tid, i: nat, m: nat, wr: WritePc)
    requires |ss| == |acts| + 1 && i <= m < |ss|
  {
    && Quiet(ss, acts, t, i, m)
    && (!wr.WrCheck? ==> Did(ss, acts, t, i, m, InWrite(WrCheck), Found(Running)))
    && (wr.WrLock? || wr.WrRecheck? || wr.WrWireLock? || wr.WrSend? ==>
          Did(ss, acts, t, i, m, InWrite(WrConn), FoundConn(Some(wr.c))))
    && (wr.WrWireLock? || wr.WrSend? ==> Did(ss, acts, t, i, m, InWrite(WrRecheck(wr.c)), Found(Running)))
  }

  lemma StoryMore(ss: seq<State>, acts: seq<Action>, t: Tid, i: nat, m: nat, wr: WritePc)
    requires m < |acts| && |ss| == |acts| + 1 && i <= m
    requires WriteStory(ss, acts, t, i, m, wr) && Quiet(ss, acts, t, i, m + 1)
    ensures WriteStory(ss, acts, t, i, m + 1, wr)
  {
    hide Did, Quiet;
    DidMore(ss, acts, t, i, m, InWrite(WrCheck), Found(Running));
    if wr.WrLock? || wr.WrRecheck? || wr.WrWireLock? || wr.WrSend? {
      DidMore(ss, acts, t, i, m, InWrite(WrConn), FoundConn(Some(wr.c)));
      DidMore(ss, acts, t, i, m, InWrite(WrRecheck(wr.c)), Found(Running));
    }
  }

  lemma StoryStep(ss: seq<State>, acts: seq<Action>, t: Tid, i: nat, m: nat, wr: WritePc)
    requires Runs(ss, acts) && i < m < |acts| && InCall(ss[m], t)
    requires ss[m].threads[t].op == InWrite(wr) && WriteStory(ss, acts, t, i, m, wr)
    ensures t < |ss[m + 1].threads|
    ensures InCall(ss[m + 1], t) ==>
              ss[m + 1].threads[t].op.InWrite? && WriteStory(ss, acts, t, i, m + 1, ss[m + 1].threads[t].op.wr)
  {
    hide Did, Quiet, StepBy, Init, Send, SendChoice, AddedBy;
    CallStepAt(ss, acts, t, m, 0);
    if acts[m].Run? && acts[m].t == t {
      if !wr.WrSend? {
        QuietMore(ss, acts, t, i, m);
        StoryMore(ss, acts, t, i, m, wr);
        DidMore(ss, acts, t, i, m, InWrite(wr), Found(ss[m].g.state));
        DidMore(ss, acts, t, i, m, InWrite(wr), FoundConn(ss[m].g.conn));
      }
    } else {
      QuietMore(ss, acts, t, i, m);
      StoryMore(ss, acts, t, i, m, wr);
    }
  }

  lemma {:induction false} WriteSoFar(ss: seq<State>, acts: seq<Action>, t: Tid, i: nat, j: nat, m: nat)
    requires Runs(ss, acts) && Called(ss, acts, t, CallWrite, i, j) && i < m < j
    ensures var op := ss[m].threads[t].op; op.InWrite? && WriteStory(ss, acts, t, i, m, op.wr)
  {
    hide StepBy, Init, WriteStory, Quiet;
    if m == i + 1 {
      Entered(ss, acts, t, CallWrite, i);
      Starts(ss, acts, t, i);
    } else {
      WriteSoFar(ss, acts, t, i, j, m - 1);
      StoryStep(ss, acts, t, i, m - 1, ss[m - 1].threads[t].op.wr);
    }
  }

  lemma Starts(ss: seq<State>, acts: seq<Action>, t: Tid, i: nat)
    requires |ss| == |acts| + 1 && i < |acts| && Quiet(ss, acts, t, i, i + 1)
    ensures WriteStory(ss, acts, t, i, i + 1, WrCheck)
  {
  }

  /** In every run, a call of Write by any thread ends in one of four steps.  It
      found an argument invalid or the session not Running, or no connection, or,
      under write_mu, the session no longer Running: then its steps have put nothing
      on any connection.  Or it has seen Running at both checks and sent: then they
      have put on the connection it found one audio frame, whole or in part as the
      send went, or nothing if the send put out no byte, and nothing on any other. */
  lemma WriteCall(ss: seq<State>, acts: seq<Action>, t: Tid, i: nat, j: nat)
    requires Runs(ss, acts) && Called(ss, acts, t, CallWrite, i, j)
    ensures acts[j - 1].Run? && acts[j - 1].t == t
    ensures var g, k := ss[j - 1].g, acts[j - 1].k;
            match ss[j - 1].threads[t].op
            case InWrite(WrCheck) => (k == Invalid || g.state != Running) && Quiet(ss, acts, t, i, j)
            case InWrite(WrConn) => g.conn == None && Quiet(ss, acts, t, i, j)
            case InWrite(WrRecheck(_)) => g.state != Running && Quiet(ss, acts, t, i, j)
            case InWrite(WrSend(c)) =>
              && Did(ss, acts, t, i, j, InWrite(WrCheck), Found(Running))
              && Did(ss, acts, t, i, j, InWrite(WrConn), FoundConn(Some(c)))
              && Did(ss, acts, t, i, j, InWrite(WrRecheck(c)), Found(Running))
              && k in {SendWhole, SendPart, SendNone}
              && Only(ss, acts, t, i, j, c,
                      if k == SendWhole then [Sent(Audio, true)]
                      else if k == SendPart then [Sent(Audio, false)]
                      else [])
            case _ => false
  {
    hide StepBy, Init, Quiet, Did, Send, Only;
    var m := j - 1;
    WriteSoFar(ss, acts, t, i, j, m);
    CallStepAt(ss, acts, t, m, 0);
    var wr := ss[m].threads[t].op.wr;
    if wr.WrSend? {
      OnlyNow(ss, acts, t, i, m, wr.c, Put(Audio, acts[m].k));
      DidMore(ss, acts, t, i, m, InWrite(WrCheck), Found(Running));
      DidMore(ss, acts, t, i, m, InWrite(WrConn), FoundConn(Some(wr.c)));
      DidMore(ss, acts, t, i, m, InWrite(WrRecheck(wr.c)), Found(Running));
    } else {
      QuietMore(ss, acts, t, i, m);
    }
  }
}
