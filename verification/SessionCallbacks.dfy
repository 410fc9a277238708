/** What a listener can count on, for every run: the order of its callbacks, the
    state it sees from a terminal one, and that calling Stop from a callback
    never makes the reader wait for itself. */
module SessionCallbacks {
  import opened Basics
  import opened Session
  import opened SessionInvariant
  import opened SessionSteps
  import opened SessionReader
  import opened SessionReach

  /** A terminal tail: nothing, one terminal failure or completion, or the last
      sentence end followed by completion, or by a failure if it threw. */
  predicate Tail(p: TracePhase, tail: seq<Callback>) {
    match p
    case Body => tail == []
    case Final => tail == [OnEnd(true)]
    case Closed =>
      tail in {[OnFail(true)], [OnComplete], [OnEnd(true), OnComplete], [OnEnd(true), OnFail(true)]}
    case _ => false
  }

  predicate ShapeAt(p: TracePhase, tr: seq<Callback>, k: nat) {
    && 1 <= k <= |tr| && tr[0] == OnStart
    && (forall i :: 1 <= i < k ==> Ordinary(tr[i]))
    && Tail(p, tr[k..])
  }

  /** Start, then any ordinary callbacks, then a terminal tail. */
  ghost predicate CallbackShape(p: TracePhase, tr: seq<Callback>) {
    if tr == [] then p == Silent else exists k :: ShapeAt(p, tr, k)
  }

  lemma ShapeNext(p: TracePhase, tr: seq<Callback>, k: nat, cb: Callback)
    requires ShapeAt(p, tr, k) && TraceNext(p, cb) != Wrong
    ensures CallbackShape(TraceNext(p, cb), tr + [cb])
  {
    if Ordinary(cb) {
      assert (tr + [cb])[|tr| + 1..] == [];
      assert ShapeAt(TraceNext(p, cb), tr + [cb], |tr| + 1);
    } else {
      assert (tr + [cb])[k..] == tr[k..] + [cb];
      assert [] + [cb] == [cb] && [OnEnd(true)] + [cb] == [OnEnd(true), cb];
      assert ShapeAt(TraceNext(p, cb), tr + [cb], k);
    }
  }

  lemma {:induction false} TraceShape(tr: seq<Callback>)
    requires Trace(tr) != Wrong
    ensures CallbackShape(Trace(tr), tr)
  {
    if tr != [] {
      var init, cb := tr[..|tr| - 1], tr[|tr| - 1];
      assert tr == init + [cb];
      TraceShape(init);
      if init == [] {
        assert tr[1..] == [];
        assert ShapeAt(Body, tr, 1);
      } else {
        var k :| ShapeAt(Trace(init), init, k);
        ShapeNext(Trace(init), init, k, cb);
      }
    }
  }

  lemma ToldIsRight(g: Shared, t: Tid, at: ReaderPc, rc: ConnId)
    requires ReaderInv(g, t, at, rc)
    ensures g.h.told != Wrong
  {
  }

  /** The callback trace of every run. */
  lemma CallbackOrder(ss: seq<State>, i: nat)
    requires Behaviour(ss) && i < |ss|
    ensures ss[i].g.h.told != Wrong && CallbackShape(ss[i].g.h.told, ss[i].g.h.trace)
  {
    Reachable(ss, i);
    var g := ss[i].g;
    if g.h.reader.Some? {
      var r := g.h.reader.value;
      assert LocalInv(g, r, ss[i].threads[r]);
      ToldIsRight(g, r, ss[i].threads[r].role.at, ss[i].threads[r].role.rc);
    }
    TraceShape(g.h.trace);
  }

  /** A terminal callback: a terminal failure, completion, or the sentence end
      carried by a final response. */
  lemma TerminalSeesStopped(ss: seq<State>, i: nat, t: Tid)
    requires Behaviour(ss) && i < |ss| && t < |ss[i].threads|
    requires var r := ss[i].threads[t].role; r.Reader? && r.at.RIn? && Terminal(r.at.cb)
    ensures ss[i].g.state == Stopped && ss[i].g.finished
    ensures forall k :: StopStep(ss[i].g, t, SpCas, k, |ss[i].threads|) == Next(ss[i].g, NoCall, None)
    ensures forall k :: WriteStep(ss[i].g, t, WrCheck, k) == Next(ss[i].g, NoCall, None)
  {
    Reachable(ss, i);
    assert LocalInv(ss[i].g, t, ss[i].threads[t]);
  }

  /** The reader thread never waits for its own end.  A Stop called from a
      callback that gets past the compare-and-swap always finds the connection,
      is never overtaken by the end of the session, before or after a failed
      send, and recognises the thread it runs on. */
  lemma StopInCallback(ss: seq<State>, i: nat, t: Tid)
    requires Behaviour(ss) && i < |ss| && t < |ss[i].threads| && ss[i].threads[t].role.Reader?
    ensures !ss[i].threads[t].op.InWait?
    ensures match ss[i].threads[t].op
            case InStop(SpConn) => ss[i].g.conn.Some?
            case InStop(SpRecheck(_)) => ss[i].g.state == Stopping
            case InStop(SpFailed) => ss[i].g.state == Stopping
            case InStop(SpTid) => ss[i].g.readerTid == Some(t)
            case _ => true
  {
    Reachable(ss, i);
    assert LocalInv(ss[i].g, t, ss[i].threads[t]);
  }

  lemma DoneStays(s: State, a: Action, s': State)
    requires Inv(s) && NextBy(s, a, s') && s.g.done
    ensures s'.g.done && s'.g.h.trace == s.g.h.trace
  {
    if a.Run? {
      var th := s.threads[a.t];
      assert LocalInv(s.g, a.t, th);
      if th.op != NoCall {
        OwnOp(s.g, a.t, th, a.k, |s.threads|);
      }
    }
  }

  lemma DoneStaysInRun(ss: seq<State>, i: nat)
    requires Behaviour(ss) && i + 1 < |ss| && ss[i].g.done
    ensures ss[i + 1].g.done && ss[i + 1].g.h.trace == ss[i].g.h.trace
  {
    Reachable(ss, i);
    assert StepAt(ss, i);
    var a :| NextBy(ss[i], a, ss[i + 1]);
    DoneStays(ss[i], a, ss[i + 1]);
  }

  /** Once SignalDone has run, no callback will ever follow. */
  lemma {:induction false} DoneIsFinal(ss: seq<State>, i: nat, j: nat)
    requires Behaviour(ss) && i <= j < |ss| && ss[i].g.done
    ensures ss[j].g.done && ss[j].g.h.trace == ss[i].g.h.trace
  {
    if i < j {
      DoneIsFinal(ss, i, j - 1);
      DoneStaysInRun(ss, j - 1);
    }
  }

  /** Nor is one running: the reader has left its loop for good. */
  lemma DoneReaderLeft(ss: seq<State>, i: nat)
    requires Behaviour(ss) && i < |ss| && ss[i].g.done
    ensures var g := ss[i].g;
            && g.h.reader.Some? && g.h.reader.value < |ss[i].threads|
            && var r := ss[i].threads[g.h.reader.value];
               r.role.Reader? && (r.role.at.RDoneNotify? || r.role.at.RExited?) && r.op == NoCall
  {
    Reachable(ss, i);
    var r := ss[i].g.h.reader.value;
    assert LocalInv(ss[i].g, r, ss[i].threads[r]);
  }
}
