/** What the reader makes of each frame: which callbacks follow it, in every run,
    whatever the other threads and the listener do meanwhile. */
module SessionDispatch {
  import opened Basics
  import opened Session
  import opened SessionInvariant
  import opened SessionSteps
  import opened SessionReader
  import opened SessionReach
  import opened SessionRuns

  // ------------------------------------------------------------- one reader

  predicate IsReader(s: State, r: Tid) {
    r < |s.threads| && s.threads[r].role.Reader?
  }

  function Pc(s: State, r: Tid): ReaderPc
    requires IsReader(s, r)
  {
    s.threads[r].role.at
  }

  /** A step of the read loop itself, not of a call the listener makes in it. */
  predicate ReaderActs(s: State, a: Action, r: Tid)
    requires IsReader(s, r)
  {
    a.Run? && a.t == r && s.threads[r].op == NoCall && !a.k.Call?
  }

  lemma ReaderOwn(s: State, a: Action, s': State, r: Tid)
    requires IsReader(s, r) && ReaderActs(s, a, r) && NextBy(s, a, s')
    ensures var to := ReaderStep(s.g, r, Pc(s, r), s.threads[r].role.rc, a.k);
            to.To? && s'.g == to.g && IsReader(s', r) && s'.threads[r] == Thread(Reader(to.at, to.rc), NoCall)
  {
    hide ReaderStep, OpStep;
  }

  /** No other step touches what the reader has said or where it is. */
  lemma ReaderRests(s: State, a: Action, s': State, r: Tid)
    requires Inv(s) && NextBy(s, a, s') && IsReader(s, r) && !ReaderActs(s, a, r)
    ensures IsReader(s', r) && s'.threads[r].role == s.threads[r].role
    ensures s'.g.h.trace == s.g.h.trace && s'.g.terminal == s.g.terminal
  {
    hide SharedInv, HistoryInv, Ids, OpStep, ReaderStep, Guarantee, ConnsGrow, TraceGrows, Birth;
    if a.Run? {
      var th := s.threads[a.t];
      assert LocalInv(s.g, a.t, th) && LocalInv(s.g, r, s.threads[r]);
      if th.op != NoCall {
        OwnOp(s.g, a.t, th, a.k, |s.threads|);
      }
    }
  }

  // ------------------------------------------------- what is still to be said

  /** What follows a callback that returns. */
  function Tail(cb: Callback): seq<Callback> {
    if cb == OnEnd(true) then [OnComplete] else []
  }

  function Pending(at: ReaderPc): seq<Callback> {
    match at
    case RInvoke(cb) => [cb] + Tail(cb)
    case RIn(cb) => Tail(cb)
    case RFinish(next) => PendingAfter(next)
    case RFinCloseLock(next) => PendingAfter(next)
    case RFinClose(next) => PendingAfter(next)
    case RMarkLock(cb) => [cb] + Tail(cb)
    case RMark(cb) => [cb] + Tail(cb)
    case RMarkNotify(cb) => [cb] + Tail(cb)
    case _ => []
  }

  function PendingAfter(next: After): seq<Callback> {
    match next
    case ThenFail => [OnFail(true)]
    case ThenMark(cb) => [cb] + Tail(cb)
    case ThenSignal => []
  }

  /** The terminal flag is still to be stored. */
  predicate WillMark(at: ReaderPc) {
    || ((at.RFinish? || at.RFinCloseLock? || at.RFinClose?) && at.next.ThenMark?)
    || at.RMarkLock? || at.RMark?
  }

  /** On the way back to the next read. */
  predicate WillRead(at: ReaderPc) {
    || at.RRead? || at.RPoll? || at.RPongLock? || at.RPong?
    || ((at.RInvoke? || at.RIn?) && at.cb in {OnBegin, OnChange, OnEnd(false), OnFail(false)})
  }

  predicate Shielded(cb: Callback) {
    cb.OnFail? || cb == OnComplete
  }

  /** At the next read, or past the last callback. */
  predicate Settled(at: ReaderPc) {
    at.RRead? || at.RDoneLock? || at.RDone? || at.RDoneNotify? || at.RExited?
  }

  /** `d` of the callbacks of `plan` have been made since the trace was `before`. */
  predicate Follows(before: seq<Callback>, plan: seq<Callback>, d: nat, g: Shared, at: ReaderPc) {
    && d <= |plan| && g.h.trace == before + plan[..d] && Pending(at) == plan[d..]
    && (at.RIn? ==> d > 0 && plan[d - 1] == at.cb)
  }

  /** A step of the reader within the handling of one frame. */
  predicate Within(at: ReaderPc) {
    !Settled(at) && !at.RError? && !at.RPoll? && !at.RTidLock? && !at.RTid? && !at.RConnLock? && !at.RConn?
  }

  lemma FollowsStep(before: seq<Callback>, plan: seq<Callback>, d: nat, g: Shared, r: Tid, at: ReaderPc, rc: ConnId,
                    k: Choice)
    requires Follows(before, plan, d, g, at) && Within(at) && ReaderStep(g, r, at, rc, k).To?
    requires at.RIn? && k == Throw ==> Shielded(at.cb)
    requires (at.RInvoke? || at.RIn?) ==> at.cb != OnStart
    ensures var to := ReaderStep(g, r, at, rc, k);
            && (Within(to.at) || Settled(to.at))
            && Follows(before, plan, if at.RInvoke? then d + 1 else d, to.g, to.at)
  {
    if at.RInvoke? {
      assert plan[..d + 1] == plan[..d] + [plan[d]] && plan[d + 1..] == plan[d..][1..];
    } else {
      hide ReaderStep, Tail, Pending, Within, Settled;
      NothingSaid(g, r, at, rc, k);
    }
  }

  /** Between two callbacks. */
  lemma NothingSaid(g: Shared, r: Tid, at: ReaderPc, rc: ConnId, k: Choice)
    requires Within(at) && !at.RInvoke? && ReaderStep(g, r, at, rc, k).To?
    requires at.RIn? ==> at.cb != OnStart && (k == Throw ==> Shielded(at.cb))
    ensures var to := ReaderStep(g, r, at, rc, k);
            && (Within(to.at) || Settled(to.at)) && !to.at.RIn?
            && to.g.h.trace == g.h.trace && Pending(to.at) == Pending(at)
  {
    hide Send, SendChoice, CloseConn, TraceNext, ReadChoice, Used, OnFrame;
    assert [OnComplete] + [] == [OnComplete] && [OnFail(true)] + [] == [OnFail(true)];
    match at {
      case RPong => SendOnlyConns(g, rc, Pong, k);
      case RFinClose(next) => CloseFlag(g);
      case _ =>
    }
  }

  /** The flag and the way the reader is heading. */
  lemma FlagsStep(g: Shared, r: Tid, at: ReaderPc, rc: ConnId, k: Choice)
    requires Within(at) && ReaderStep(g, r, at, rc, k).To? && ((at.RInvoke? || at.RIn?) ==> at.cb != OnStart)
    requires MarksTerminal(at)
    ensures var to := ReaderStep(g, r, at, rc, k);
            && (to.g.terminal || WillMark(to.at) <==> g.terminal || WillMark(at))
            && (WillRead(to.at) <==> WillRead(at) && !(at.RIn? && k == Throw && !Shielded(at.cb)))
  {
    hide Send, SendChoice, CloseConn, TraceNext, ReadChoice, Used, OnFrame;
    match at {
      case RPong => SendOnlyConns(g, rc, Pong, k);
      case RFinClose(next) => CloseFlag(g);
      case _ =>
    }
  }

  /** A response whose flag is stored ends the session. */
  predicate MarksTerminal(at: ReaderPc) {
    && (at.RMarkLock? || at.RMark? || at.RMarkNotify? ==> Terminal(at.cb))
    && ((at.RFinish? || at.RFinCloseLock? || at.RFinClose?) && at.next.ThenMark? ==> Terminal(at.next.cb))
  }

  lemma ReaderMarks(s: State, r: Tid)
    requires Inv(s) && IsReader(s, r)
    ensures MarksTerminal(Pc(s, r))
  {
    assert LocalInv(s.g, r, s.threads[r]);
  }

  lemma CloseFlag(g: Shared)
    ensures CloseConn(g).terminal == g.terminal && CloseConn(g).h == g.h
  {
  }

  // ------------------------------------------------------------------ plans

  /** A response after which nothing is read any more. */
  predicate Last(f: Downlink) {
    f.Response? && (f.code != 0 || f.finalFlag == 1)
  }

  /** The callbacks a frame asks for. */
  function Plan(f: Downlink): seq<Callback> {
    match f
    case Ping => []
    case OtherOpcode => []
    case CloseFrame => []
    case Binary => [OnFail(false)]
    case Malformed => [OnFail(false)]
    case Response(code, finalFlag, hasResult, sliceType) =>
      if code != 0 then [OnFail(true)]
      else if finalFlag == 1 then if sliceType == 2 then [OnEnd(true), OnComplete] else [OnComplete]
      else if hasResult && sliceType == 0 then [OnBegin]
      else if hasResult && sliceType == 1 then [OnChange]
      else if hasResult && sliceType == 2 then [OnEnd(false)]
      else []
  }

  /** Those that are made: if one of them throws and is not shielded, it is the
      last but for the terminal failure. */
  function Made(f: Downlink, threw: bool): seq<Callback> {
    if threw && Plan(f) != [] then [Plan(f)[0], OnFail(true)] else Plan(f)
  }

  lemma FrameStep(g: Shared, r: Tid, rc: ConnId, f: Downlink)
    requires ReaderStep(g, r, RRead, rc, Frame(f)).To? && f != CloseFrame
    ensures var to := ReaderStep(g, r, RRead, rc, Frame(f));
            && (Within(to.at) || Settled(to.at))
            && Follows(g.h.trace, Plan(f), 0, to.g, to.at)
            && to.g.terminal == g.terminal
            && (WillMark(to.at) <==> Last(f))
            && (WillRead(to.at) <==> !Last(f))
  {
    assert Plan(f)[..0] == [] && g.h.trace + [] == g.h.trace;
  }

  /** Only the first callback of a plan can throw past the reader. */
  lemma ThrowStep(before: seq<Callback>, f: Downlink, threw: bool, d: nat, g: Shared, r: Tid, cb: Callback, rc: ConnId)
    requires Follows(before, Made(f, threw), d, g, RIn(cb)) && !Shielded(cb)
    ensures var to := ReaderStep(g, r, RIn(cb), rc, Throw);
            !threw && to.To? && Within(to.at) && Follows(before, Made(f, true), d, to.g, to.at)
  {
    assert d == 1 && !threw;
    assert Plan(f)[..1] == [Plan(f)[0]] == Made(f, true)[..1];
    assert Made(f, true)[1..] == [OnFail(true)];
  }

  lemma NoStart(before: seq<Callback>, f: Downlink, threw: bool, d: nat, g: Shared, at: ReaderPc)
    requires Follows(before, Made(f, threw), d, g, at)
    ensures at.RInvoke? || at.RIn? ==> at.cb != OnStart
  {
    if at.RInvoke? {
      assert Made(f, threw)[d..][0] == at.cb;
    }
  }

  // ---------------------------------------------------- from read to read

  /** A callback threw in action `b` and was not shielded. */
  predicate ThrowsAt(ss: seq<State>, acts: seq<Action>, r: Tid, b: nat) {
    && b < |acts| && b < |ss| && IsReader(ss[b], r) && acts[b] == Run(r, Throw) && ss[b].threads[r].op == NoCall
    && Pc(ss[b], r).RIn? && !Shielded(Pc(ss[b], r).cb)
  }

  ghost predicate Threw(ss: seq<State>, acts: seq<Action>, r: Tid, i: nat, m: nat) {
    exists b :: i < b < m && ThrowsAt(ss, acts, r, b)
  }

  /** The reader settles in state `j` for the first time after action `i`. */
  predicate NextSettled(ss: seq<State>, r: Tid, i: nat, j: nat) {
    && i < j < |ss|
    && (forall m :: i < m < j ==> IsReader(ss[m], r) && !Settled(Pc(ss[m], r)))
    && IsReader(ss[j], r) && Settled(Pc(ss[j], r))
  }

  /** Action `i` reads frame `f`. */
  predicate ReadsFrame(ss: seq<State>, acts: seq<Action>, r: Tid, i: nat, f: Downlink) {
    && i < |acts| && i < |ss| && IsReader(ss[i], r) && Pc(ss[i], r) == RRead && acts[i] == Run(r, Frame(f))
  }

  ghost predicate FrameStory(ss: seq<State>, acts: seq<Action>, r: Tid, i: nat, m: nat, f: Downlink, d: nat)
    requires i <= m < |ss|
  {
    && IsReader(ss[m], r)
    && var at, threw := Pc(ss[m], r), Threw(ss, acts, r, i, m);
       && (Within(at) || Settled(at))
       && Follows(ss[i].g.h.trace, Made(f, threw), d, ss[m].g, at)
       && (ss[m].g.terminal || WillMark(at) <==> Last(f))
       && (WillRead(at) <==> !Last(f) && !threw)
  }

  lemma ThrewMore(ss: seq<State>, acts: seq<Action>, r: Tid, i: nat, m: nat)
    ensures Threw(ss, acts, r, i, m + 1) <==> Threw(ss, acts, r, i, m) || (i < m && ThrowsAt(ss, acts, r, m))
  {
    hide ThrowsAt;
  }

  lemma FrameStoryStep(ss: seq<State>, acts: seq<Action>, r: Tid, i: nat, m: nat, f: Downlink, d: nat) returns (d': nat)
    requires Runs(ss, acts) && i < m < |acts| && FrameStory(ss, acts, r, i, m, f, d) && !Settled(Pc(ss[m], r))
    ensures FrameStory(ss, acts, r, i, m + 1, f, d')
  {
    hide StepBy, Init, Inv, NextBy, ReaderStep, Follows, Made, Threw, Within, WillMark, WillRead, Last;
    RunInv(ss, acts, m);
    ThrewMore(ss, acts, r, i, m);
    var s, s', a, at := ss[m], ss[m + 1], acts[m], Pc(ss[m], r);
    var threw := Threw(ss, acts, r, i, m);
    if ReaderActs(s, a, r) {
      ReaderOwn(s, a, s', r);
      NoStart(ss[i].g.h.trace, f, threw, d, s.g, at);
      ReaderMarks(s, r);
      FlagsStep(s.g, r, at, s.threads[r].role.rc, a.k);
      if at.RIn? && a.k == Throw && !Shielded(at.cb) {
        ThrowStep(ss[i].g.h.trace, f, threw, d, s.g, r, at.cb, s.threads[r].role.rc);
        d' := d;
      } else {
        FollowsStep(ss[i].g.h.trace, Made(f, threw), d, s.g, r, at, s.threads[r].role.rc, a.k);
        d' := if at.RInvoke? then d + 1 else d;
      }
    } else {
      ReaderRests(s, a, s', r);
      FollowsSame(ss[i].g.h.trace, Made(f, threw), d, s.g, s'.g, at);
      d' := d;
    }
  }

  lemma FollowsSame(before: seq<Callback>, plan: seq<Callback>, d: nat, g: Shared, g': Shared, at: ReaderPc)
    requires Follows(before, plan, d, g, at) && g'.h.trace == g.h.trace
    ensures Follows(before, plan, d, g', at)
  {
  }

  lemma {:induction false} FrameSoFar(ss: seq<State>, acts: seq<Action>, r: Tid, i: nat, j: nat, m: nat, f: Downlink)
    returns (d: nat)
    requires Runs(ss, acts) && ReadsFrame(ss, acts, r, i, f) && f != CloseFrame
    requires NextSettled(ss, r, i, j) && i < m <= j
    ensures FrameStory(ss, acts, r, i, m, f, d)
  {
    hide StepBy, Init, FrameStory, Settled;
    if m == i + 1 {
      FrameRead(ss, acts, r, i, f);
      d := 0;
    } else {
      var e := FrameSoFar(ss, acts, r, i, j, m - 1, f);
      d := FrameStoryStep(ss, acts, r, i, m - 1, f, e);
    }
  }

  lemma FrameRead(ss: seq<State>, acts: seq<Action>, r: Tid, i: nat, f: Downlink)
    requires Runs(ss, acts) && ReadsFrame(ss, acts, r, i, f) && f != CloseFrame
    ensures FrameStory(ss, acts, r, i, i + 1, f, 0)
  {
    hide StepBy, Init, Inv, NextBy, ReaderStep, Follows, Within, WillMark, WillRead, Last, ThrowsAt, Plan;
    RunInv(ss, acts, i);
    Reading(ss[i], r);
    ReaderOwn(ss[i], acts[i], ss[i + 1], r);
    FrameStep(ss[i].g, r, ss[i].threads[r].role.rc, f);
  }

  /** At a read the reader is in no call, and no terminal response has come. */
  lemma Reading(s: State, r: Tid)
    requires Inv(s) && IsReader(s, r) && Pc(s, r) == RRead
    ensures s.threads[r].op == NoCall && !s.g.terminal
  {
    assert LocalInv(s.g, r, s.threads[r]);
  }

  /** In every run, from the reading of a frame to the next read, or to the end of
      the reader, the listener gets exactly the callbacks the frame asks for, in this
      order; if one throws that is not shielded, it is followed by the terminal failure
      in place of the rest.  The reader goes on to the next read unless the frame was
      a last one or a callback threw, and the flag of a terminal response is
      stored exactly for a last frame. */
  lemma Dispatch(ss: seq<State>, acts: seq<Action>, r: Tid, i: nat, j: nat, f: Downlink)
    requires Runs(ss, acts) && ReadsFrame(ss, acts, r, i, f) && NextSettled(ss, r, i, j) && f != CloseFrame
    ensures var threw := Threw(ss, acts, r, i, j);
            && ss[j].g.h.trace == ss[i].g.h.trace + Made(f, threw)
            && (Pc(ss[j], r) == RRead <==> !Last(f) && !threw)
            && (ss[j].g.terminal <==> Last(f))
  {
    hide StepBy, Init, Made, Threw, Last;
    var d := FrameSoFar(ss, acts, r, i, j, j, f);
    Complete(ss[i].g.h.trace, Made(f, Threw(ss, acts, r, i, j)), d, ss[j].g, Pc(ss[j], r));
  }

  lemma Complete(before: seq<Callback>, plan: seq<Callback>, d: nat, g: Shared, at: ReaderPc)
    requires Follows(before, plan, d, g, at) && Settled(at)
    ensures g.h.trace == before + plan
  {
    assert plan[d..] == [];
    assert plan[..d] == plan;
  }

  /** The listener makes no callback of a last frame before the flag is stored. */
  lemma FlagBeforeCallback(ss: seq<State>, acts: seq<Action>, r: Tid, i: nat, j: nat, m: nat, f: Downlink)
    requires Runs(ss, acts) && ReadsFrame(ss, acts, r, i, f) && NextSettled(ss, r, i, j) && f != CloseFrame
    requires i < m < j && Pc(ss[m], r).RIn?
    ensures ss[m].g.terminal <==> Last(f)
  {
    hide StepBy, Init, Made, Threw, Last;
    var d := FrameSoFar(ss, acts, r, i, j, m, f);
  }

  // ------------------------------------------------------------ other reads

  /** Action `i` reads the end of the stream, or nothing. */
  predicate ReadsEnd(ss: seq<State>, acts: seq<Action>, r: Tid, i: nat) {
    && i < |acts| && i < |ss| && IsReader(ss[i], r) && Pc(ss[i], r) == RRead
    && acts[i] in {Run(r, ReadError), Run(r, Frame(CloseFrame)), Run(r, PollTimeout)}
  }

  /** What the state of the session asks for when nothing came, or the end. */
  function PlanAt(g: Shared, at: ReaderPc): seq<Callback> {
    if at == RPoll || g.state == Stopping || g.state == Stopped then [] else [OnFail(true)]
  }

  predicate Looks(ss: seq<State>, acts: seq<Action>, r: Tid, b: nat) {
    b < |acts| && b < |ss| && IsReader(ss[b], r) && ReaderActs(ss[b], acts[b], r)
  }

  ghost predicate EndStory(ss: seq<State>, acts: seq<Action>, r: Tid, i: nat, m: nat, p: ReaderPc, b: nat, d: nat)
    requires i <= m < |ss| && |ss| == |acts| + 1
  {
    && IsReader(ss[m], r)
    && var at, before := Pc(ss[m], r), ss[i].g.h.trace;
       if b == m then at == p && ss[m].g.h.trace == before
       else
         && i < b < m && Looks(ss, acts, r, b) && Pc(ss[b], r) == p
         && (Within(at) || Settled(at))
         && Follows(before, PlanAt(ss[b].g, p), d, ss[m].g, at)
         && (WillRead(at) <==> p == RPoll && ss[b].g.state != Stopped)
  }

  lemma LookStep(before: seq<Callback>, g: Shared, r: Tid, p: ReaderPc, rc: ConnId, k: Choice)
    requires (p == RPoll || p == RError) && g.h.trace == before
    ensures var to := ReaderStep(g, r, p, rc, k);
            && to.To? && (Within(to.at) || Settled(to.at))
            && Follows(before, PlanAt(g, p), 0, to.g, to.at)
            && (WillRead(to.at) <==> p == RPoll && g.state != Stopped)
  {
    assert PlanAt(g, p)[..0] == [] && before + [] == before;
  }

  lemma EndStoryStep(ss: seq<State>, acts: seq<Action>, r: Tid, i: nat, m: nat, p: ReaderPc, b: nat, d: nat)
    returns (b': nat, d': nat)
    requires Runs(ss, acts) && i < m < |acts| && EndStory(ss, acts, r, i, m, p, b, d) && !Settled(Pc(ss[m], r))
    requires p == RPoll || p == RError
    ensures EndStory(ss, acts, r, i, m + 1, p, b', d')
  {
    hide StepBy, Init, Inv, NextBy, ReaderStep, Follows, Within, WillMark, WillRead;
    RunInv(ss, acts, m);
    var s, s', a, at, before := ss[m], ss[m + 1], acts[m], Pc(ss[m], r), ss[i].g.h.trace;
    b', d' := b, d;
    if ReaderActs(s, a, r) {
      ReaderOwn(s, a, s', r);
      if b == m {
        LookStep(before, s.g, r, p, s.threads[r].role.rc, a.k);
        d' := 0;
      } else {
        var plan := PlanAt(ss[b].g, p);
        OnlyFailure(before, plan, d, s.g, at);
        ReaderMarks(s, r);
        FlagsStep(s.g, r, at, s.threads[r].role.rc, a.k);
        FollowsStep(before, plan, d, s.g, r, at, s.threads[r].role.rc, a.k);
        d' := if at.RInvoke? then d + 1 else d;
      }
    } else {
      ReaderRests(s, a, s', r);
      if b == m {
        b' := m + 1;
      } else {
        FollowsSame(before, PlanAt(ss[b].g, p), d, s.g, s'.g, at);
      }
    }
  }

  lemma OnlyFailure(before: seq<Callback>, plan: seq<Callback>, d: nat, g: Shared, at: ReaderPc)
    requires Follows(before, plan, d, g, at) && (plan == [] || plan == [OnFail(true)])
    ensures at.RInvoke? || at.RIn? ==> at.cb == OnFail(true)
  {
    if at.RInvoke? {
      assert plan[d..][0] == at.cb;
    }
  }

  lemma {:induction false} EndSoFar(ss: seq<State>, acts: seq<Action>, r: Tid, i: nat, j: nat, m: nat)
    returns (p: ReaderPc, b: nat, d: nat)
    requires Runs(ss, acts) && ReadsEnd(ss, acts, r, i) && NextSettled(ss, r, i, j) && i < m <= j
    ensures EndStory(ss, acts, r, i, m, p, b, d)
    ensures p == if acts[i].k == PollTimeout then RPoll else RError
  {
    hide StepBy, Init, EndStory, Settled;
    if m == i + 1 {
      EndRead(ss, acts, r, i);
      p, b, d := if acts[i].k == PollTimeout then RPoll else RError, m, 0;
    } else {
      p, b, d := EndSoFar(ss, acts, r, i, j, m - 1);
      b, d := EndStoryStep(ss, acts, r, i, m - 1, p, b, d);
    }
  }

  lemma EndRead(ss: seq<State>, acts: seq<Action>, r: Tid, i: nat)
    requires Runs(ss, acts) && ReadsEnd(ss, acts, r, i)
    ensures EndStory(ss, acts, r, i, i + 1, if acts[i].k == PollTimeout then RPoll else RError, i + 1, 0)
  {
    hide StepBy, Init, Inv, NextBy;
    RunInv(ss, acts, i);
    Reading(ss[i], r);
    ReaderOwn(ss[i], acts[i], ss[i + 1], r);
  }

  /** In every run, after a read that failed or brought a close frame the reader looks
      at the state once: if the session is being stopped it ends without a callback,
      otherwise with the terminal failure.  After a read that timed out it looks too,
      and ends without a callback if the session is Stopped, or else reads on. */
  lemma ReadEnds(ss: seq<State>, acts: seq<Action>, r: Tid, i: nat, j: nat)
    requires Runs(ss, acts) && ReadsEnd(ss, acts, r, i) && NextSettled(ss, r, i, j)
    ensures exists b ::
              && i < b < j && Looks(ss, acts, r, b)
              && if acts[i].k == PollTimeout then
                   && Pc(ss[b], r) == RPoll
                   && ss[j].g.h.trace == ss[i].g.h.trace
                   && (Pc(ss[j], r) == RRead <==> ss[b].g.state != Stopped)
                 else
                   && Pc(ss[b], r) == RError
                   && ss[j].g.h.trace == ss[i].g.h.trace +
                        (if ss[b].g.state in {Stopping, Stopped} then [] else [OnFail(true)])
                   && Pc(ss[j], r) != RRead
  {
    hide StepBy, Init, Looks;
    var p, b, d := EndSoFar(ss, acts, r, i, j, j);
    Complete(ss[i].g.h.trace, PlanAt(ss[b].g, p), d, ss[j].g, Pc(ss[j], r));
  }

  // --------------------------------------------------------- what it reads

  predicate InLoop(at: ReaderPc) {
    || at.RRead? || at.RPoll? || at.RError? || at.RPongLock? || at.RPong?
    || ((at.RInvoke? || at.RIn?) && Ordinary(at.cb))
  }

  /** Action `b` finds connection `c` published, for the reader to read. */
  predicate FindsConn(ss: seq<State>, acts: seq<Action>, r: Tid, b: nat, c: ConnId) {
    Looks(ss, acts, r, b) && Pc(ss[b], r) == RConn && ss[b].g.conn == Some(c)
  }

  lemma LoopStep(g: Shared, r: Tid, at: ReaderPc, rc: ConnId, k: Choice)
    requires ReaderStep(g, r, at, rc, k).To? && MarksTerminal(at)
    ensures var to := ReaderStep(g, r, at, rc, k);
            InLoop(to.at) ==> (InLoop(at) && to.rc == rc) || (at == RConn && g.conn == Some(to.rc))
  {
    hide Send, SendChoice, CloseConn, TraceNext, Used;
  }

  /** A thread that turns up as the reader is at its beginning. */
  lemma NewReader(s: State, a: Action, s': State, r: Tid)
    requires Inv(s) && NextBy(s, a, s') && !IsReader(s, r) && IsReader(s', r)
    ensures Pc(s', r) == RTidLock
  {
    hide SharedInv, HistoryInv, Ids, ReaderStep, Guarantee, ConnsGrow, TraceGrows, OpStep, ReaderPartSame;
    if a.Run? {
      var th := s.threads[a.t];
      assert LocalInv(s.g, a.t, th);
      if th.op != NoCall {
        OwnOp(s.g, a.t, th, a.k, |s.threads|);
      }
    }
  }

  /** In every run, what the reader reads in its loop is the connection that it found
      published when it entered it. */
  lemma {:induction false} ReadsPublished(ss: seq<State>, acts: seq<Action>, r: Tid, m: nat)
    requires Runs(ss, acts) && m < |ss| && IsReader(ss[m], r) && InLoop(Pc(ss[m], r))
    ensures exists b :: 0 <= b < m && FindsConn(ss, acts, r, b, ss[m].threads[r].role.rc)
  {
    hide StepBy, Inv, NextBy, ReaderStep, InLoop;
    if m > 0 {
      RunInv(ss, acts, m - 1);
      var s, s', a := ss[m - 1], ss[m], acts[m - 1];
      if !IsReader(s, r) {
        NewReader(s, a, s', r);
        assert false by { NotYetInLoop(); }
      }
      if ReaderActs(s, a, r) {
        ReaderOwn(s, a, s', r);
        ReaderMarks(s, r);
        LoopStep(s.g, r, Pc(s, r), s.threads[r].role.rc, a.k);
        if s.threads[r].role.at == RConn && s.g.conn == Some(s'.threads[r].role.rc) {
          assert FindsConn(ss, acts, r, m - 1, s'.threads[r].role.rc);
          return;
        }
      } else {
        ReaderRests(s, a, s', r);
      }
      ReadsPublished(ss, acts, r, m - 1);
    }
  }

  lemma NotYetInLoop()
    ensures !InLoop(RTidLock)
  {
  }

  // -------------------------------------------------------------- beginning

  predicate Unsaid(at: ReaderPc) {
    at.RTidLock? || at.RTid? || at == RInvoke(OnStart)
  }

  predicate Opening(at: ReaderPc) {
    at == RIn(OnStart) || at.RConnLock? || at.RConn?
  }

  /** Action `b` finds no connection to read. */
  predicate FindsNone(ss: seq<State>, acts: seq<Action>, r: Tid, b: nat) {
    Looks(ss, acts, r, b) && Pc(ss[b], r) == RConn && ss[b].g.conn == None
  }

  function Greeting(threw: bool): seq<Callback> {
    if threw then [OnFail(true)] else []
  }

  ghost predicate BeginStory(ss: seq<State>, acts: seq<Action>, r: Tid, i: nat, m: nat, d: nat)
    requires i <= m < |ss|
  {
    && IsReader(ss[m], r)
    && var g, at, before, threw := ss[m].g, Pc(ss[m], r), ss[i].g.h.trace, Threw(ss, acts, r, i, m);
       if Unsaid(at) then g.h.trace == before && !threw
       else if Opening(at) then g.h.trace == before + [OnStart] && !threw && i < m
       else
         && (Within(at) || Settled(at))
         && Follows(before + [OnStart], Greeting(threw), d, g, at)
         && (WillRead(at) ==>
               at == RRead && !threw && exists b :: i < b < m && FindsConn(ss, acts, r, b, ss[m].threads[r].role.rc))
         && (!WillRead(at) && !threw ==> exists b :: i < b < m && FindsNone(ss, acts, r, b))
  }

  lemma UnsaidStep(g: Shared, r: Tid, at: ReaderPc, rc: ConnId, k: Choice)
    requires Unsaid(at) && ReaderStep(g, r, at, rc, k).To?
    ensures var to := ReaderStep(g, r, at, rc, k);
            if at == RInvoke(OnStart) then to.at == RIn(OnStart) && to.g.h.trace == g.h.trace + [OnStart]
            else Unsaid(to.at) && to.g.h.trace == g.h.trace
  {
  }

  lemma OpeningStep(before: seq<Callback>, g: Shared, r: Tid, at: ReaderPc, rc: ConnId, k: Choice)
    requires Opening(at) && ReaderStep(g, r, at, rc, k).To? && g.h.trace == before
    ensures var to := ReaderStep(g, r, at, rc, k);
            if at.RConn? then
              && (Within(to.at) || Settled(to.at)) && !Unsaid(to.at) && !Opening(to.at)
              && Follows(before, [], 0, to.g, to.at)
              && (if g.conn.Some? then to.at == RRead && WillRead(to.at) && to.rc == g.conn.value else !WillRead(to.at))
            else if at.RIn? && k == Throw then
              && Within(to.at) && !Unsaid(to.at) && !Opening(to.at) && !WillRead(to.at)
              && Follows(before, [OnFail(true)], 0, to.g, to.at)
            else Opening(to.at) && to.g.h.trace == before
  {
    assert before + [] == before;
  }

  lemma BeginStoryStep(ss: seq<State>, acts: seq<Action>, r: Tid, i: nat, m: nat, d: nat) returns (d': nat)
    requires Runs(ss, acts) && i <= m < |acts| && BeginStory(ss, acts, r, i, m, d) && !Settled(Pc(ss[m], r))
    ensures BeginStory(ss, acts, r, i, m + 1, d')
  {
    hide StepBy, Init, Inv, NextBy, ReaderStep, Follows, Threw, Within, WillMark, WillRead;
    RunInv(ss, acts, m);
    ThrewMore(ss, acts, r, i, m);
    var s, s', a, at := ss[m], ss[m + 1], acts[m], Pc(ss[m], r);
    var g, before, rc, threw := s.g, ss[i].g.h.trace + [OnStart], s.threads[r].role.rc, Threw(ss, acts, r, i, m);
    d' := d;
    if !ReaderActs(s, a, r) {
      ReaderRests(s, a, s', r);
      if !Unsaid(at) && !Opening(at) {
        FollowsSame(before, Greeting(threw), d, g, s'.g, at);
      }
    } else if Unsaid(at) {
      ReaderOwn(s, a, s', r);
      UnsaidStep(g, r, at, rc, a.k);
    } else if Opening(at) {
      ReaderOwn(s, a, s', r);
      OpeningStep(before, g, r, at, rc, a.k);
      assert at.RConn? && g.conn.Some? ==> FindsConn(ss, acts, r, m, g.conn.value);
      assert at.RConn? && g.conn == None ==> FindsNone(ss, acts, r, m);
      d' := 0;
    } else {
      ReaderOwn(s, a, s', r);
      d' := FailureStep(before, Greeting(threw), d, s, r, a.k);
    }
  }

  /** On the way out, with at most the terminal failure still to be reported. */
  lemma FailureStep(before: seq<Callback>, plan: seq<Callback>, d: nat, s: State, r: Tid, k: Choice) returns (d': nat)
    requires Inv(s) && IsReader(s, r) && Within(Pc(s, r)) && !WillRead(Pc(s, r))
    requires plan == [] || plan == [OnFail(true)]
    requires Follows(before, plan, d, s.g, Pc(s, r))
    requires ReaderStep(s.g, r, Pc(s, r), s.threads[r].role.rc, k).To?
    ensures var to := ReaderStep(s.g, r, Pc(s, r), s.threads[r].role.rc, k);
            && (Within(to.at) || Settled(to.at)) && !WillRead(to.at) && !Unsaid(to.at) && !Opening(to.at)
            && Follows(before, plan, d', to.g, to.at)
    ensures Pc(s, r).RIn? ==> Shielded(Pc(s, r).cb)
  {
    hide ReaderStep, Inv, Follows;
    var at, rc := Pc(s, r), s.threads[r].role.rc;
    OnlyFailure(before, plan, d, s.g, at);
    ReaderMarks(s, r);
    FlagsStep(s.g, r, at, rc, k);
    FollowsStep(before, plan, d, s.g, r, at, rc, k);
    d' := if at.RInvoke? then d + 1 else d;
    var to := ReaderStep(s.g, r, at, rc, k);
    OnlyFailure(before, plan, d', to.g, to.at);
  }

  lemma {:induction false} BeginSoFar(ss: seq<State>, acts: seq<Action>, r: Tid, i: nat, j: nat, m: nat)
    returns (d: nat)
    requires Runs(ss, acts) && i < |ss| && IsReader(ss[i], r) && Pc(ss[i], r) == RTidLock
    requires NextSettled(ss, r, i, j) && i <= m <= j
    ensures BeginStory(ss, acts, r, i, m, d)
  {
    hide StepBy, Init, ReaderStep, Follows;
    if m == i {
      d := 0;
    } else {
      var e := BeginSoFar(ss, acts, r, i, j, m - 1);
      d := BeginStoryStep(ss, acts, r, i, m - 1, e);
    }
  }

  /** In every run, from its creation to its first read, or to its end, the reader makes
      the one callback OnRecognitionStart, followed by the terminal failure if that
      throws.  It comes to a read if and only if it did not throw and there was a
      connection, and then reads that. */
  lemma Begins(ss: seq<State>, acts: seq<Action>, r: Tid, i: nat, j: nat)
    requires Runs(ss, acts) && i < |ss| && IsReader(ss[i], r) && Pc(ss[i], r) == RTidLock
    requires NextSettled(ss, r, i, j)
    ensures var threw := Threw(ss, acts, r, i, j);
            && ss[j].g.h.trace == ss[i].g.h.trace + [OnStart] + (if threw then [OnFail(true)] else [])
            && (Pc(ss[j], r) == RRead ==>
                  !threw && exists b :: i < b < j && FindsConn(ss, acts, r, b, ss[j].threads[r].role.rc))
            && (Pc(ss[j], r) != RRead ==> threw || exists b :: i < b < j && FindsNone(ss, acts, r, b))
  {
    hide StepBy, Init, Threw, FindsConn, FindsNone;
    var threw := Threw(ss, acts, r, i, j);
    var d := BeginSoFar(ss, acts, r, i, j, j);
    Complete(ss[i].g.h.trace + [OnStart], Greeting(threw), d, ss[j].g, Pc(ss[j], r));
  }

  // ------------------------------------------------------------------ pings

  /** Action `b` is the reader's pong on connection `c`, as far as it went. */
  predicate Answers(ss: seq<State>, acts: seq<Action>, r: Tid, b: nat, c: ConnId) {
    && b < |acts| && b + 1 < |ss| && IsReader(ss[b], r) && ReaderActs(ss[b], acts[b], r) && Pc(ss[b], r) == RPong
    && LogOf(ss[b + 1].g, c) == LogOf(ss[b].g, c) +
         if acts[b].k == SendWhole then [Sent(Pong, true)]
         else if acts[b].k == SendPart then [Sent(Pong, false)]
         else []
  }

  ghost predicate Answered(ss: seq<State>, acts: seq<Action>, r: Tid, i: nat, m: nat, c: ConnId) {
    exists b :: i < b < m && Answers(ss, acts, r, b, c)
  }

  ghost predicate PingStory(ss: seq<State>, acts: seq<Action>, r: Tid, i: nat, m: nat, c: ConnId)
    requires i <= m < |ss|
  {
    && IsReader(ss[m], r)
    && (|| Answered(ss, acts, r, i, m, c)
        || (ss[m].threads[r].role.rc == c && (Pc(ss[m], r) == RPongLock || Pc(ss[m], r) == RPong)))
  }

  lemma PingStoryStep(ss: seq<State>, acts: seq<Action>, r: Tid, i: nat, m: nat, c: ConnId)
    requires Runs(ss, acts) && i < m < |acts| && PingStory(ss, acts, r, i, m, c)
    ensures IsReader(ss[m + 1], r) ==> PingStory(ss, acts, r, i, m + 1, c)
  {
    hide StepBy, Init, Inv, NextBy, ReaderStep, LogOf;
    RunInv(ss, acts, m);
    if !Answered(ss, acts, r, i, m, c) {
      if ReaderActs(ss[m], acts[m], r) {
        ReaderOwn(ss[m], acts[m], ss[m + 1], r);
        StepLogs(ss[m], acts[m], ss[m + 1], c);
        if Pc(ss[m], r) == RPongLock {
          PongStep(ss[m].g, r, c, acts[m].k);
        }
        assert Pc(ss[m], r) == RPong ==> Answers(ss, acts, r, m, c);
      } else {
        ReaderRests(ss[m], acts[m], ss[m + 1], r);
      }
    }
  }

  lemma PongStep(g: Shared, r: Tid, rc: ConnId, k: Choice)
    requires ReaderStep(g, r, RPongLock, rc, k).To?
    ensures var to := ReaderStep(g, r, RPongLock, rc, k); to.at == RPong && to.rc == rc
  {
  }

  lemma {:induction false} PingSoFar(ss: seq<State>, acts: seq<Action>, r: Tid, i: nat, j: nat, m: nat)
    requires Runs(ss, acts) && ReadsFrame(ss, acts, r, i, Ping) && NextSettled(ss, r, i, j) && i < m <= j
    ensures PingStory(ss, acts, r, i, m, ss[i].threads[r].role.rc)
  {
    hide StepBy, Init, PingStory, Settled;
    var c := ss[i].threads[r].role.rc;
    if m == i + 1 {
      PingRead(ss, acts, r, i);
    } else {
      PingSoFar(ss, acts, r, i, j, m - 1);
      PingStoryStep(ss, acts, r, i, m - 1, c);
    }
  }

  lemma PingRead(ss: seq<State>, acts: seq<Action>, r: Tid, i: nat)
    requires Runs(ss, acts) && ReadsFrame(ss, acts, r, i, Ping)
    ensures PingStory(ss, acts, r, i, i + 1, ss[i].threads[r].role.rc)
  {
    hide StepBy, Init, Inv, NextBy, Answered;
    RunInv(ss, acts, i);
    Reading(ss[i], r);
    ReaderOwn(ss[i], acts[i], ss[i + 1], r);
  }

  /** In every run, before the read after a ping the reader puts one pong on the
      connection it reads, whole or in part as the send went. */
  lemma PingAnswered(ss: seq<State>, acts: seq<Action>, r: Tid, i: nat, j: nat)
    requires Runs(ss, acts) && ReadsFrame(ss, acts, r, i, Ping) && NextSettled(ss, r, i, j)
    ensures exists b :: i < b < j && Answers(ss, acts, r, b, ss[i].threads[r].role.rc)
  {
    hide StepBy, Init, Answers;
    PingSoFar(ss, acts, r, i, j, j);
  }
}
