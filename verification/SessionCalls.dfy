/** Whole calls of Start, Write and Stop, from the step that begins them to the
    step that returns, whatever the other threads do in between: how they can end,
    what they saw on the way and what they put on the connections. */
module SessionCalls {
  import opened Basics
  import opened Session
  import opened SessionInvariant
  import opened SessionSteps
  import opened SessionReach
  import opened SessionRuns

  // ------------------------------------------------------- one thread's steps

  predicate InCall(s: State, t: Tid) {
    t < |s.threads| && s.threads[t].op != NoCall
  }

  /** Thread `t` begins a call with action `i` and is back from it in state `j`. */
  ghost predicate Called(ss: seq<State>, acts: seq<Action>, t: Tid, api: Api, i: nat, j: nat)
    requires |ss| == |acts| + 1
  {
    && i + 1 < j < |ss| && t < |ss[i].threads|
    && ss[i].threads[t].op == NoCall && acts[i] == Run(t, Call(api))
    && (forall m :: i < m < j ==> InCall(ss[m], t))
    && !InCall(ss[j], t)
  }

  /** Action `b` is a step of thread `t` from program counter `op`. */
  predicate At(ss: seq<State>, acts: seq<Action>, t: Tid, b: nat, op: Op) {
    && |ss| == |acts| + 1 && b < |acts|
    && acts[b].Run? && acts[b].t == t && t < |ss[b].threads| && ss[b].threads[t].op == op
  }

  /** What a step of a call found, chose or left behind. */
  datatype Fact =
    | Found(x: Lifecycle)
    | Left(x: Lifecycle)
    | FoundConn(o: Option<ConnId>)
    | Chose(k: Choice)
    | NotWhole
    | NewConn(c: ConnId)
    | LeftConn(o: Option<ConnId>)
    | Refused(due: nat)
    | Accepted
    | FoundDone
    | Passed

  predicate Is(g: Shared, k: Choice, g': Shared, f: Fact) {
    match f
    case Found(x) => g.state == x
    case Left(x) => g'.state == x
    case FoundConn(o) => g.conn == o
    case Chose(c) => k == c
    case NewConn(c) => |g.conns| == c && |g'.conns| == c + 1
    case LeftConn(o) => g'.conn == o
    case Accepted => k.AckFrame? && k.a.AckObject? && !Refusal(k.a)
    case FoundDone => g.done
    case Passed => true
    case NotWhole => k == SendPart || k == SendNone
    case Refused(due) => k == ReadError || (k == PollTimeout && g.now >= due) || (k.AckFrame? && Refusal(k.a))
  }

  /** An ack on which Start gives up. */
  predicate Refusal(a: Ack) {
    match a
    case AckSkip => false
    case AckPing => false
    case AckClosed => true
    case AckMalformed => true
    case AckNotObject => true
    case AckObject(NoCode, SpeakerObject(statusOk, idOk)) => !statusOk || !idOk
    case AckObject(NoCode, NoSpeaker) => false
    case AckObject(Number(n), SpeakerObject(statusOk, idOk)) => n != 0 || !statusOk || !idOk
    case AckObject(Number(n), NoSpeaker) => n != 0
    case AckObject(OtherType, _) => true
  }

  /** Between `i` and `m` thread `t` took a step from `op` of which `f` holds. */
  ghost predicate Did(ss: seq<State>, acts: seq<Action>, t: Tid, i: nat, m: nat, op: Op, f: Fact) {
    exists b :: i < b < m && At(ss, acts, t, b, op) && Is(ss[b].g, acts[b].k, ss[b + 1].g, f)
  }

  /** What a log gained in one step. */
  function Added(g: Shared, g': Shared, c: ConnId): seq<Event> {
    var before, after := LogOf(g, c), LogOf(g', c);
    if |before| <= |after| then after[|before|..] else []
  }

  /** What the steps of thread `t` from `i` to `m` added to the log of `c`. */
  function AddedBy(ss: seq<State>, acts: seq<Action>, t: Tid, c: ConnId, i: nat, m: nat): seq<Event>
    requires |ss| == |acts| + 1 && i <= m < |ss|
    decreases m
  {
    if i == m then []
    else
      AddedBy(ss, acts, t, c, i, m - 1) +
      if acts[m - 1].Run? && acts[m - 1].t == t then Added(ss[m - 1].g, ss[m].g, c) else []
  }

  ghost predicate Quiet(ss: seq<State>, acts: seq<Action>, t: Tid, i: nat, m: nat)
    requires |ss| == |acts| + 1 && i <= m < |ss|
  {
    forall c :: AddedBy(ss, acts, t, c, i, m) == []
  }

  /** `ev` on connection `c`, nothing on any other. */
  ghost predicate Only(ss: seq<State>, acts: seq<Action>, t: Tid, i: nat, m: nat, c: ConnId, ev: seq<Event>)
    requires |ss| == |acts| + 1 && i <= m < |ss|
  {
    forall d :: AddedBy(ss, acts, t, d, i, m) == if d == c then ev else []
  }

  // --------------------------------------------------------------- one step

  lemma Others(s: State, a: Action, s': State, t: Tid)
    requires NextBy(s, a, s') && t < |s.threads| && !(a.Run? && a.t == t)
    ensures t < |s'.threads| && s'.threads[t] == s.threads[t]
  {
    hide ThreadStep;
  }

  lemma Own(s: State, t: Tid, k: Choice, s': State)
    requires NextBy(s, Run(t, k), s') && InCall(s, t)
    ensures var r := OpStep(s.g, t, s.threads[t].op, k, |s.threads|);
            && r.Next? && s'.g == r.g && t < |s'.threads| && s'.threads[t] == s.threads[t].(op := r.op)
            && |s.threads| <= |s'.threads|
            && (r.born.Some? ==> |s'.threads| == |s.threads| + 1 && s'.threads[|s.threads|] == r.born.value)
  {
    hide OpStep, ReaderStep;
  }

  lemma Begins(s: State, t: Tid, api: Api, s': State)
    requires NextBy(s, Run(t, Call(api)), s') && t < |s.threads| && s.threads[t].op == NoCall
    ensures t < |s'.threads| && s'.threads[t].op == Entry(api) && s'.g == s.g
  {
    hide ReaderStep;
  }

  /** The steps of a run as a call sees them. */
  lemma CallStepAt(ss: seq<State>, acts: seq<Action>, t: Tid, m: nat, c: ConnId)
    requires Runs(ss, acts) && m < |acts| && InCall(ss[m], t)
    ensures t < |ss[m + 1].threads|
    ensures !(acts[m].Run? && acts[m].t == t) ==> ss[m + 1].threads[t] == ss[m].threads[t]
    ensures acts[m].Run? && acts[m].t == t ==>
              && At(ss, acts, t, m, ss[m].threads[t].op)
              && var r := OpStep(ss[m].g, t, ss[m].threads[t].op, acts[m].k, |ss[m].threads|);
                 r.Next? && ss[m + 1].g == r.g && ss[m + 1].threads[t].op == r.op
    ensures acts[m].Run? && acts[m].t == t ==>
              Added(ss[m].g, ss[m + 1].g, c) == Emits(ss[m].threads[t], acts[m].k, c)
  {
    hide Inv, NextBy, OpStep, Emits, LogOf;
    RunInv(ss, acts, m);
    if acts[m].Run? && acts[m].t == t {
      Own(ss[m], t, acts[m].k, ss[m + 1]);
      StepLogs(ss[m], acts[m], ss[m + 1], c);
      Gained(LogOf(ss[m].g, c), Emits(ss[m].threads[t], acts[m].k, c));
    } else {
      Others(ss[m], acts[m], ss[m + 1], t);
    }
  }

  lemma Gained(before: seq<Event>, e: seq<Event>)
    ensures (before + e)[|before|..] == e
  {
  }

  /** What a step of `t` has done stays done, and nobody else adds to it. */
  lemma DidMore(ss: seq<State>, acts: seq<Action>, t: Tid, i: nat, m: nat, op: Op, f: Fact)
    requires m < |acts|
    ensures Did(ss, acts, t, i, m, op, f) ==> Did(ss, acts, t, i, m + 1, op, f)
    ensures i < m && At(ss, acts, t, m, op) && Is(ss[m].g, acts[m].k, ss[m + 1].g, f) ==>
              Did(ss, acts, t, i, m + 1, op, f)
  {
    hide At, Is;
  }

  /** What a step finds and leaves behind is on record. */
  lemma Recorded(ss: seq<State>, acts: seq<Action>, t: Tid, i: nat, m: nat, op: Op)
    requires |ss| == |acts| + 1 && i < m < |acts| && At(ss, acts, t, m, op)
    ensures Did(ss, acts, t, i, m + 1, op, Found(ss[m].g.state))
    ensures Did(ss, acts, t, i, m + 1, op, Left(ss[m + 1].g.state))
    ensures Did(ss, acts, t, i, m + 1, op, FoundConn(ss[m].g.conn))
    ensures Did(ss, acts, t, i, m + 1, op, Chose(acts[m].k))
    ensures Did(ss, acts, t, i, m + 1, op, LeftConn(ss[m + 1].g.conn))
  {
    hide Did;
    DidMore(ss, acts, t, i, m, op, Found(ss[m].g.state));
    DidMore(ss, acts, t, i, m, op, Left(ss[m + 1].g.state));
    DidMore(ss, acts, t, i, m, op, FoundConn(ss[m].g.conn));
    DidMore(ss, acts, t, i, m, op, Chose(acts[m].k));
    DidMore(ss, acts, t, i, m, op, LeftConn(ss[m + 1].g.conn));
  }

  lemma AddedMore(ss: seq<State>, acts: seq<Action>, t: Tid, c: ConnId, i: nat, m: nat)
    requires Runs(ss, acts) && i <= m < |acts| && InCall(ss[m], t)
    ensures AddedBy(ss, acts, t, c, i, m + 1) ==
            AddedBy(ss, acts, t, c, i, m) +
            if acts[m].Run? && acts[m].t == t then Emits(ss[m].threads[t], acts[m].k, c) else []
  {
    hide StepBy, Init, Emits, Added;
    CallStepAt(ss, acts, t, m, c);
  }

  /** A step that puts nothing on any connection. */
  lemma QuietMore(ss: seq<State>, acts: seq<Action>, t: Tid, i: nat, m: nat)
    requires Runs(ss, acts) && i <= m < |acts| && InCall(ss[m], t)
    requires acts[m].Run? && acts[m].t == t ==> forall c :: Emits(ss[m].threads[t], acts[m].k, c) == []
    ensures Quiet(ss, acts, t, i, m) ==> Quiet(ss, acts, t, i, m + 1)
    ensures forall c, ev :: Only(ss, acts, t, i, m, c, ev) ==> Only(ss, acts, t, i, m + 1, c, ev)
  {
    hide StepBy, Init, Emits, AddedBy;
    var n := m + 1;
    forall c: ConnId
      ensures AddedBy(ss, acts, t, c, i, n) == AddedBy(ss, acts, t, c, i, m)
    {
      AddedMore(ss, acts, t, c, i, m);
    }
    forall c, ev | Only(ss, acts, t, i, m, c, ev)
      ensures Only(ss, acts, t, i, n, c, ev)
    {
    }
  }

  /** A step that puts `ev` on connection `c`. */
  lemma OnlyNow(ss: seq<State>, acts: seq<Action>, t: Tid, i: nat, m: nat, c: ConnId, ev: seq<Event>)
    requires Runs(ss, acts) && i < m < |acts| && InCall(ss[m], t) && Quiet(ss, acts, t, i, m)
    requires acts[m].Run? && acts[m].t == t
    requires forall d :: Emits(ss[m].threads[t], acts[m].k, d) == if d == c then ev else []
    ensures Only(ss, acts, t, i, m + 1, c, ev)
  {
    hide StepBy, Init, AddedBy, Emits;
    var n := m + 1;
    forall d: ConnId
      ensures AddedBy(ss, acts, t, d, i, n) == if d == c then ev else []
    {
      AddedMore(ss, acts, t, d, i, m);
    }
  }

  /** The first step of a call: entering it. */
  lemma Entered(ss: seq<State>, acts: seq<Action>, t: Tid, api: Api, i: nat)
    requires Runs(ss, acts) && i < |acts| && t < |ss[i].threads|
    requires ss[i].threads[t].op == NoCall && acts[i] == Run(t, Call(api))
    ensures t < |ss[i + 1].threads| && ss[i + 1].threads[t].op == Entry(api)
    ensures Quiet(ss, acts, t, i, i + 1)
  {
    hide Inv, NextBy, LogOf;
    RunInv(ss, acts, i);
    Begins(ss[i], t, api, ss[i + 1]);
    var n := i + 1;
    forall c: ConnId
      ensures AddedBy(ss, acts, t, c, i, n) == []
    {
      assert AddedBy(ss, acts, t, c, i, i) == [];
      assert Added(ss[i].g, ss[i + 1].g, c) == [];
    }
  }
}
