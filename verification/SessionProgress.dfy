/** Nothing hangs on the session's own mutexes, and the reader comes to its end. */
module SessionProgress {
  import opened Basics
  import opened Session
  import opened SessionInvariant
  import opened SessionSteps
  import opened SessionReader
  import opened SessionReach
  import opened SessionWait

  // --------------------------------------------------------------- lock order

  /** write_mu and done_mu come before conn_mu, the socket's write lock and
      tid_mu. */
  function Level(l: Lock): nat {
    if l == WriteMu || l == DoneMu then 0 else 1
  }

  function ReaderWants(at: ReaderPc, rc: ConnId): Option<Lock> {
    match at
    case RTidLock => Some(TidMu)
    case RConnLock => Some(ConnMu)
    case RPongLock => Some(WireMu(rc))
    case RFinCloseLock(_) => Some(ConnMu)
    case RMarkLock(_) => Some(DoneMu)
    case RDoneLock => Some(DoneMu)
    case _ => None
  }

  /** The mutex the next step of a thread acquires. */
  function Wants(th: Thread): Option<Lock> {
    if th.op != NoCall then OpWants(th.op)
    else if th.role.Reader? then ReaderWants(th.role.at, th.role.rc)
    else None
  }

  /** Mutexes are acquired in one fixed order. */
  lemma LockOrder(th: Thread, l: Lock)
    requires th.role.Reader? && th.op != NoCall ==> th.role.at.RIn?
    requires l in Holds(th) && Wants(th).Some?
    ensures Level(l) < Level(Wants(th).value)
  {
    match th.op {
      case NoCall =>
      case InStart(st) =>
      case InWrite(wr) =>
      case InStop(sp) =>
      case InWait(last, wt) =>
    }
  }

  /** A thread that has something left to do on its own account. */
  predicate Busy(th: Thread) {
    th.op != NoCall || (th.role.Reader? && !th.role.at.RExited?)
  }

  /** A choice under which a thread that is not blocked moves. */
  function Pick(th: Thread): Choice {
    match th.op
    case NoCall =>
      if th.role.Reader? then
        (match th.role.at case RIn(_) => Return case RRead => ReadError case RPong => SendNone case _ => Go)
      else Go
    case InStart(st) =>
      (match st
       case StConnect => DialFail
       case StSend(_) => SendNone
       case StPublish(_) => SetTimeout(ACK_TIMEOUT)
       case StAck(_, _) => ReadError
       case StPong(_, _) => SendNone
       case StTimeout => SetTimeout(0)
       case _ => Go)
    case InWrite(wr) => if wr.WrSend? then SendNone else Go
    case InStop(sp) => if sp.SpSend? then SendNone else Go
    case InWait(_, _) => Go
  }

  /** Only a mutex held by another thread can keep a busy thread from moving. */
  lemma CanMove(g: Shared, t: Tid, th: Thread, newborn: Tid)
    requires Busy(th) && (Wants(th).Some? ==> Free(g, Wants(th).value))
    ensures ThreadStep(g, t, th, Pick(th), newborn).Moved?
  {
    match th.op {
      case NoCall =>
      case InStart(st) =>
      case InWrite(wr) =>
      case InStop(sp) =>
      case InWait(last, wt) =>
    }
  }

  ghost predicate CanStep(s: State, t: Tid) {
    t < |s.threads| && exists k :: ThreadStep(s.g, t, s.threads[t], k, |s.threads|).Moved?
  }

  /** From every busy thread the chain "waits for the mutex held by" ends, after
      at most two links, at a thread that can take a step. */
  lemma {:induction false} NoDeadlock(s: State, t: Tid)
    requires Inv(s) && t < |s.threads| && Busy(s.threads[t])
    ensures exists u: Tid :: CanStep(s, u) && (u == t || Holds(s.threads[u]) != {})
    decreases if Wants(s.threads[t]).Some? then 2 - Level(Wants(s.threads[t]).value) else 0
  {
    var th := s.threads[t];
    assert LocalInv(s.g, t, th);
    if Wants(th).Some? && !Free(s.g, Wants(th).value) {
      var l := Wants(th).value;
      var u := s.g.locks[l];
      assert LocalInv(s.g, u, s.threads[u]);
      assert l in Holds(s.threads[u]);
      if Wants(s.threads[u]).Some? {
        LockOrder(s.threads[u], l);
      }
      HolderBusy(s.threads[u], l);
      NoDeadlock(s, u);
    } else {
      CanMove(s.g, t, th, |s.threads|);
      assert CanStep(s, t);
    }
  }

  lemma HolderBusy(th: Thread, l: Lock)
    requires l in Holds(th)
    ensures Busy(th)
  {
  }

  // ------------------------------------------------------- reader termination

  function TotalLeft(conns: seq<Conn>): nat {
    if conns == [] then 0 else TotalLeft(conns[..|conns| - 1]) + conns[|conns| - 1].left
  }

  lemma {:induction false} TotalLeftUpdate(conns: seq<Conn>, c: nat, k: Conn)
    requires c < |conns|
    ensures TotalLeft(conns[c := k]) == TotalLeft(conns) - conns[c].left + k.left
  {
    var n := |conns| - 1;
    if c == n {
      assert conns[c := k][..n] == conns[..n];
    } else {
      assert conns[c := k][..n] == conns[..n][c := k];
      TotalLeftUpdate(conns[..n], c, k);
    }
  }

  lemma {:induction false} TotalLeftMono(conns: seq<Conn>, conns': seq<Conn>)
    requires |conns'| == |conns| && forall c :: 0 <= c < |conns| ==> conns'[c].left <= conns[c].left
    ensures TotalLeft(conns') <= TotalLeft(conns)
  {
    if conns != [] {
      TotalLeftMono(conns[..|conns| - 1], conns'[..|conns| - 1]);
    }
  }

  predicate AllClosed(g: Shared) {
    forall c :: 0 <= c < |g.conns| ==> !g.conns[c].open
  }

  /** Steps the reader still needs when no more reads succeed. */
  function PcRank(at: ReaderPc): nat
    ensures PcRank(at) < 100
  {
    match at
    case RTidLock => 75
    case RTid => 74
    case RInvoke(cb) => if cb == OnStart then 73 else if Ordinary(cb) then 43 else if cb == OnEnd(true) then 54 else 24
    case RIn(cb) => if cb == OnStart then 72 else if Ordinary(cb) then 42 else if cb == OnEnd(true) then 53 else 23
    case RConnLock => 71
    case RConn => 70
    case RRead => 40
    case RPoll => 41
    case RError => 39
    case RPongLock => 43
    case RPong => 42
    case RFinish(next) => AfterRank(next) + 2
    case RFinCloseLock(next) => AfterRank(next) + 1
    case RFinClose(next) => AfterRank(next)
    case RMarkLock(_) => 57
    case RMark(_) => 56
    case RMarkNotify(_) => 55
    case RDoneLock => 4
    case RDone => 3
    case RDoneNotify => 2
    case RExited => 0
  }

  function AfterRank(next: After): nat {
    match next case ThenMark(_) => 58 case ThenFail => 30 case ThenSignal => 10
  }

  function Budget(g: Shared, at: ReaderPc): nat {
    100 * TotalLeft(g.conns) + PcRank(at)
  }

  predicate SameLeft(g: Shared, g': Shared) {
    |g'.conns| == |g.conns| && forall c :: 0 <= c < |g.conns| ==> g'.conns[c].left == g.conns[c].left
  }

  lemma SameTotal(g: Shared, g': Shared)
    requires SameLeft(g, g')
    ensures TotalLeft(g'.conns) == TotalLeft(g.conns)
  {
    TotalLeftMono(g.conns, g'.conns);
    TotalLeftMono(g'.conns, g.conns);
  }

  lemma ReaderLeft(g: Shared, t: Tid, at: ReaderPc, rc: ConnId, k: Choice)
    requires ReaderStep(g, t, at, rc, k).To? && (at.RRead? ==> k == ReadError)
    ensures SameLeft(g, ReaderStep(g, t, at, rc, k).g)
  {
    match at {
      case RPong => case RFinClose(next) => case RFinish(next) => case RConn => case RIn(cb) =>
      case _ =>
    }
  }

  lemma ReaderRank(g: Shared, t: Tid, at: ReaderPc, rc: ConnId, k: Choice)
    requires ReaderStep(g, t, at, rc, k).To? && (at.RRead? ==> k == ReadError)
    requires TraceInv(g, at)
    ensures PcRank(ReaderStep(g, t, at, rc, k).at) < PcRank(at)
  {
    hide Send, SendChoice, CloseConn, Used, ReadChoice, TraceNext;
    match at {
      case RInvoke(cb) =>
      case RIn(cb) =>
        match cb {
          case OnEnd(final) =>
          case OnFail(terminal) =>
          case _ =>
        }
      case RConn =>
      case RFinish(next) => FinishRank(g, next);
      case RFinClose(next) => FinishRank(g, next);
      case RMarkNotify(cb) =>
      case _ =>
    }
  }

  lemma FinishRank(g: Shared, next: After)
    requires AfterInv(g.h.told, next)
    ensures PcRank(Resume(next)) < AfterRank(next)
  {
    match next {
      case ThenFail =>
      case ThenMark(cb) =>
      case ThenSignal =>
    }
  }

  /** With no connection published in a session that has run, none is open. */
  lemma NothingOpen(g: Shared)
    requires SharedInv(g) && g.h.runs == 1 && g.conn == None
    ensures AllClosed(g)
  {
  }

  /** Once the connection has been closed, each step of the reader that is not a
      call made by the listener uses up its budget. */
  lemma ReaderStepPays(g: Shared, t: Tid, at: ReaderPc, rc: ConnId, k: Choice)
    requires SharedInv(g) && ReaderInv(g, t, at, rc) && g.conn == None
    requires ReaderStep(g, t, at, rc, k).To?
    ensures var r := ReaderStep(g, t, at, rc, k); Budget(r.g, r.at) < Budget(g, at)
  {
    var r := ReaderStep(g, t, at, rc, k);
    NothingOpen(g);
    if at.RRead? && k != ReadError {
      TotalLeftUpdate(g.conns, rc, g.conns[rc].(left := g.conns[rc].left - 1));
      assert TotalLeft(r.g.conns) == TotalLeft(g.conns) - 1;
    } else {
      ReaderLeft(g, t, at, rc, k);
      SameTotal(g, r.g);
      ReaderRank(g, t, at, rc, k);
    }
  }

  // ----------------------------------------------------------------- in runs

  predicate HasReader(s: State) {
    s.g.h.reader.Some? && s.g.h.reader.value < |s.threads| && s.threads[s.g.h.reader.value].role.Reader?
  }

  function ReaderBudget(s: State): nat
    requires HasReader(s)
  {
    Budget(s.g, s.threads[s.g.h.reader.value].role.at)
  }

  /** The reader itself moved, not the listener on it. */
  ghost predicate ReaderStepped(s: State, s': State) {
    HasReader(s) && exists k: Choice :: ReaderDid(s, k, s')
  }

  predicate ReaderDid(s: State, k: Choice, s': State)
    requires HasReader(s)
  {
    !k.Call? && s.threads[s.g.h.reader.value].op == NoCall && NextBy(s, Run(s.g.h.reader.value, k), s')
  }

  /** The connection has been closed in a session that has run. */
  predicate Shut(s: State) {
    s.g.h.runs == 1 && s.g.conn == None
  }

  lemma OpLeft(g: Shared, t: Tid, th: Thread, k: Choice, newborn: Tid)
    requires SharedInv(g) && LocalInv(g, t, th) && th.op != NoCall && t != newborn
    requires g.h.runs == 1 && g.conn == None
    requires OpStep(g, t, th.op, k, newborn).Next?
    ensures var g' := OpStep(g, t, th.op, k, newborn).g;
            g'.h.runs == 1 && g'.conn == None && TotalLeft(g'.conns) <= TotalLeft(g.conns)
  {
    hide StartStep, WriteStep, StopStep, WaitStep;
    OwnOp(g, t, th, k, newborn);
    TotalLeftMono(g.conns, OpStep(g, t, th.op, k, newborn).g.conns);
  }

  lemma BudgetOp(s: State, t: Tid, k: Choice)
    requires Inv(s) && Shut(s) && t < |s.threads| && s.threads[t].op != NoCall
    requires OpStep(s.g, t, s.threads[t].op, k, |s.threads|).Next?
    ensures var r := OpStep(s.g, t, s.threads[t].op, k, |s.threads|);
            && r.g.h.runs == 1 && r.g.conn == None && TotalLeft(r.g.conns) <= TotalLeft(s.g.conns)
            && (HasReader(s) ==> r.g.h.reader == s.g.h.reader)
  {
    hide StartStep, WriteStep, StopStep, WaitStep;
    assert LocalInv(s.g, t, s.threads[t]);
    OwnOp(s.g, t, s.threads[t], k, |s.threads|);
    OpLeft(s.g, t, s.threads[t], k, |s.threads|);
  }

  lemma BudgetReader(s: State, k: Choice)
    requires Inv(s) && HasReader(s) && Shut(s)
    requires var th := s.threads[s.g.h.reader.value];
             th.op == NoCall && ReaderStep(s.g, s.g.h.reader.value, th.role.at, th.role.rc, k).To?
    ensures var th := s.threads[s.g.h.reader.value];
            var r := ReaderStep(s.g, s.g.h.reader.value, th.role.at, th.role.rc, k);
            && r.g.h.runs == 1 && r.g.conn == None && Budget(r.g, r.at) < Budget(s.g, th.role.at)
            && r.g.h.reader == s.g.h.reader
  {
    hide ReaderStep;
    var t := s.g.h.reader.value;
    var th := s.threads[t];
    assert LocalInv(s.g, t, th);
    OwnReader(s.g, t, th.role.at, th.role.rc, k);
    ReaderStepPays(s.g, t, th.role.at, th.role.rc, k);
  }

  lemma OnlyReader(s: State, t: Tid)
    requires Inv(s) && t < |s.threads| && s.threads[t].role.Reader?
    ensures s.g.h.reader == Some(t)
  {
    assert LocalInv(s.g, t, s.threads[t]);
  }

  lemma ShutKept(s: State, a: Action, s': State)
    requires Inv(s) && Shut(s) && NextBy(s, a, s')
    ensures Shut(s')
  {
    hide StartStep, WriteStep, StopStep, WaitStep, ReaderStep;
    if a.Run? {
      if s.threads[a.t].op != NoCall {
        BudgetOp(s, a.t, a.k);
      } else if s.threads[a.t].role.Reader? && !a.k.Call? {
        OnlyReader(s, a.t);
        BudgetReader(s, a.k);
      }
    }
  }

  lemma BudgetKept(s: State, a: Action, s': State)
    requires Inv(s) && HasReader(s) && Shut(s) && NextBy(s, a, s')
    ensures HasReader(s') && ReaderBudget(s') <= ReaderBudget(s)
    ensures a.Run? && ReaderDid(s, a.k, s') && a.t == s.g.h.reader.value ==> ReaderBudget(s') < ReaderBudget(s)
  {
    hide StartStep, WriteStep, StopStep, WaitStep, ReaderStep;
    if a.Run? {
      if s.threads[a.t].op != NoCall {
        BudgetOp(s, a.t, a.k);
      } else if s.threads[a.t].role.Reader? && !a.k.Call? {
        OnlyReader(s, a.t);
        BudgetReader(s, a.k);
      }
    }
  }

  /** How often the reader itself moves between positions `i` and `j`. */
  ghost function ReaderSteps(ss: seq<State>, i: nat, j: nat): nat
    requires i <= j < |ss|
  {
    if i == j then 0 else ReaderSteps(ss, i, j - 1) + (if ReaderStepped(ss[j - 1], ss[j]) then 1 else 0)
  }

  lemma BudgetStep(ss: seq<State>, i: nat)
    requires Behaviour(ss) && i + 1 < |ss| && HasReader(ss[i]) && Shut(ss[i])
    ensures HasReader(ss[i + 1]) && Shut(ss[i + 1])
    ensures ReaderBudget(ss[i + 1]) + (if ReaderStepped(ss[i], ss[i + 1]) then 1 else 0) <= ReaderBudget(ss[i])
  {
    hide NextBy, Inv;
    Reachable(ss, i);
    if ReaderStepped(ss[i], ss[i + 1]) {
      var k: Choice :| ReaderDid(ss[i], k, ss[i + 1]);
      BudgetKept(ss[i], Run(ss[i].g.h.reader.value, k), ss[i + 1]);
      ShutKept(ss[i], Run(ss[i].g.h.reader.value, k), ss[i + 1]);
    } else {
      assert StepAt(ss, i);
      var a :| NextBy(ss[i], a, ss[i + 1]);
      BudgetKept(ss[i], a, ss[i + 1]);
      ShutKept(ss[i], a, ss[i + 1]);
    }
  }

  /** Once the connection has been closed it stays so, and the number of steps the
      reader itself takes in the rest of any run is bounded: by 100 for each read
      that can still succeed, and 100. */
  lemma {:induction false} ReaderEnds(ss: seq<State>, i: nat, j: nat)
    requires Behaviour(ss) && i <= j < |ss| && HasReader(ss[i]) && Shut(ss[i])
    ensures HasReader(ss[j]) && Shut(ss[j])
    ensures ReaderBudget(ss[j]) + ReaderSteps(ss, i, j) <= ReaderBudget(ss[i])
    ensures ReaderSteps(ss, i, j) < 100 * TotalLeft(ss[i].g.conns) + 100
  {
    hide Inv, NextBy, HasReader, Shut;
    if i < j {
      ReaderEnds(ss, i, j - 1);
      BudgetStep(ss, j - 1);
    }
  }

  lemma {:induction false} StaysShut(ss: seq<State>, i: nat, j: nat)
    requires Behaviour(ss) && i <= j < |ss| && Shut(ss[i])
    ensures Shut(ss[j])
  {
    hide Inv, NextBy, Shut;
    if i < j {
      StaysShut(ss, i, j - 1);
      Reachable(ss, j - 1);
      assert StepAt(ss, j - 1);
      var a :| NextBy(ss[j - 1], a, ss[j]);
      ShutKept(ss[j - 1], a, ss[j]);
    }
  }

  /** Finish closes the connection, so after it the bound holds. */
  lemma ReaderEndsAfterFinish(ss: seq<State>, i: nat, j: nat)
    requires Behaviour(ss) && i <= j < |ss| && ss[i].g.finished
    ensures ReaderSteps(ss, i, j) < 100 * TotalLeft(ss[i].g.conns) + 100
  {
    Reachable(ss, i);
    ReaderEnds(ss, i, j);
  }

  /** A waiter that has given up has closed the connection. */
  predicate HasClosed(op: Op) {
    op.InWait? && (op.wt.WtGrace? || op.wt.WtGraceSleep? || op.wt.WtGraceRelock? || op.wt.WtOver?)
  }

  /** So from there on, whenever the reader starts to be counted, it comes to its
      end within the bound. */
  lemma ReaderEndsAfterGivingUp(ss: seq<State>, i: nat, m: nat, j: nat, t: Tid)
    requires Behaviour(ss) && i <= m <= j < |ss| && t < |ss[i].threads| && HasClosed(ss[i].threads[t].op)
    requires HasReader(ss[m])
    ensures ReaderSteps(ss, m, j) < 100 * TotalLeft(ss[m].g.conns) + 100
  {
    Reachable(ss, i);
    assert LocalInv(ss[i].g, t, ss[i].threads[t]);
    StaysShut(ss, i, m);
    ReaderEnds(ss, m, j);
  }

  // ------------------------------------------------------- the unbounded wait

  predicate Announced(s: State) {
    HasReader(s) && s.g.terminal
  }

  lemma AnnouncedStep(s: State, a: Action, s': State)
    requires Inv(s) && Announced(s) && NextBy(s, a, s')
    ensures Announced(s') && PcRank(ReaderAt(s')) <= PcRank(ReaderAt(s)) <= 55
    ensures a.Run? && ReaderDid(s, a.k, s') && a.t == s.g.h.reader.value ==>
              PcRank(ReaderAt(s')) < PcRank(ReaderAt(s))
  {
    hide StartStep, WriteStep, StopStep, WaitStep, ReaderStep;
    var r := s.g.h.reader.value;
    assert LocalInv(s.g, r, s.threads[r]);
    AnnouncedRank(s.g, r, s.threads[r].role.at, s.threads[r].role.rc);
    if a.Run? {
      var th := s.threads[a.t];
      assert LocalInv(s.g, a.t, th);
      if th.op != NoCall {
        OwnOp(s.g, a.t, th, a.k, |s.threads|);
      } else if th.role.Reader? && !a.k.Call? {
        OnlyReader(s, a.t);
        OwnReader(s.g, a.t, th.role.at, th.role.rc, a.k);
        ReaderRank(s.g, a.t, th.role.at, th.role.rc, a.k);
      }
    }
  }

  lemma AnnouncedRank(g: Shared, t: Tid, at: ReaderPc, rc: ConnId)
    requires ReaderInv(g, t, at, rc) && g.terminal
    ensures PcRank(at) <= 55 && !at.RRead?
  {
  }

  function ReaderAt(s: State): ReaderPc
    requires HasReader(s)
  {
    s.threads[s.g.h.reader.value].role.at
  }

  /** The wait for the terminal callbacks, which has no timeout, is not for long:
      once the terminal response is announced the reader reads no more, and takes
      at most 55 steps of its own to the end, whatever the connection does.  (Calls
      the listener makes meanwhile are bounded by CallbackNotStuck.) */
  lemma {:induction false} TerminalIsNear(ss: seq<State>, i: nat, j: nat)
    requires Behaviour(ss) && i <= j < |ss| && Announced(ss[i])
    ensures Announced(ss[j])
    ensures ReaderSteps(ss, i, j) + PcRank(ReaderAt(ss[j])) <= PcRank(ReaderAt(ss[i])) <= 55
  {
    hide Inv, NextBy, Announced;
    Reachable(ss, i);
    AnnouncedBound(ss[i]);
    if i < j {
      TerminalIsNear(ss, i, j - 1);
      Reachable(ss, j - 1);
      if ReaderStepped(ss[j - 1], ss[j]) {
        var k: Choice :| ReaderDid(ss[j - 1], k, ss[j]);
        ReaderDidIsStep(ss[j - 1], k, ss[j]);
        AnnouncedStep(ss[j - 1], Run(ss[j - 1].g.h.reader.value, k), ss[j]);
      } else {
        assert StepAt(ss, j - 1);
        var a :| NextBy(ss[j - 1], a, ss[j]);
        AnnouncedStep(ss[j - 1], a, ss[j]);
      }
    }
  }

  lemma ReaderDidIsStep(s: State, k: Choice, s': State)
    requires HasReader(s) && ReaderDid(s, k, s')
    ensures NextBy(s, Run(s.g.h.reader.value, k), s')
  {
  }

  lemma AnnouncedBound(s: State)
    requires Inv(s) && Announced(s)
    ensures HasReader(s) && PcRank(ReaderAt(s)) <= 55
  {
    var r := s.g.h.reader.value;
    assert LocalInv(s.g, r, s.threads[r]);
    AnnouncedRank(s.g, r, s.threads[r].role.at, s.threads[r].role.rc);
  }

  /** A reader that is not in a call and not at its end can always move, unless
      the mutex it wants is held; by NoDeadlock somebody can move then. */
  lemma ReaderNotStuck(s: State)
    requires Inv(s) && HasReader(s)
    ensures var r := s.g.h.reader.value;
            var th := s.threads[r];
            Busy(th) <==> !(th.role.at.RExited? && th.op == NoCall)
    ensures var r := s.g.h.reader.value;
            Busy(s.threads[r]) ==> exists u: Tid :: CanStep(s, u) && (u == r || Holds(s.threads[u]) != {})
  {
    var r := s.g.h.reader.value;
    assert LocalInv(s.g, r, s.threads[r]);
    if Busy(s.threads[r]) {
      NoDeadlock(s, r);
    }
  }

  // ------------------------------------------------- calls made by the listener

  function CallRank(op: Op): nat {
    match op
    case NoCall => 0
    case InStart(_) => 1
    case InWrite(wr) =>
      (match wr
       case WrCheck => 7 case WrConnLock => 6 case WrConn => 5 case WrLock(_) => 4 case WrRecheck(_) => 3
       case WrWireLock(_) => 2 case WrSend(_) => 1)
    case InStop(sp) =>
      (match sp
       case SpCas => 14 case SpConnLock => 13 case SpConn => 12 case SpLock(_) => 11 case SpRecheck(_) => 10
       case SpWireLock(_) => 9 case SpSend(_) => 8 case SpFailed => 7 case SpCloseLock => 6 case SpClose => 5
       case SpTidLock => 4 case SpTid => 3 case SpSpawn => 2 case SpStore => 1)
    case InWait(_, _) => 15
  }

  lemma StopInCallbackEnds(g: Shared, t: Tid, sp: StopPc, k: Choice, newborn: Tid)
    requires StopInv(g, t, true, sp) && g.readerTid == Some(t)
    requires StopStep(g, t, sp, k, newborn).Next?
    ensures CallRank(StopStep(g, t, sp, k, newborn).op) < CallRank(InStop(sp)) <= 14
  {
    hide Send, SendChoice, CloseConn;
    match sp {
      case SpConn =>
        match g.conn {
          case None =>
          case Some(c) =>
        }
      case SpRecheck(c) =>
      case SpSend(c) =>
      case SpFailed =>
      case SpTid =>
      case _ =>
    }
  }

  /** Each step of an API call made on the reader thread brings it closer to its
      return; it never waits for the session to end. */
  lemma CallInCallbackEnds(g: Shared, t: Tid, op: Op, k: Choice, newborn: Tid)
    requires SharedInv(g) && OpInv(g, t, true, op) && g.h.reader == Some(t) && g.readerTid == Some(t)
    requires OpStep(g, t, op, k, newborn).Next?
    ensures CallRank(OpStep(g, t, op, k, newborn).op) < CallRank(op) <= 14
  {
    match op {
      case InStart(st) =>
      case InWrite(wr) =>
      case InStop(sp) => StopInCallbackEnds(g, t, sp, k, newborn);
      case InWait(last, wt) =>
    }
  }

  /** The reader thread, inside an API call made by the listener. */
  predicate Calling(s: State, t: Tid) {
    t < |s.threads| && s.threads[t].role.Reader? && s.threads[t].op != NoCall
  }

  lemma CallingStep(s: State, a: Action, s': State, t: Tid)
    requires Inv(s) && NextBy(s, a, s') && Calling(s, t)
    ensures CallRank(s.threads[t].op) <= 14 && t < |s'.threads|
    ensures CallRank(s'.threads[t].op) + (if s'.threads[t] == s.threads[t] then 0 else 1) <= CallRank(s.threads[t].op)
  {
    assert LocalInv(s.g, t, s.threads[t]);
    CallRanks(s, t);
    if a.Run? && a.t == t {
      CallInCallbackEnds(s.g, t, s.threads[t].op, a.k, |s.threads|);
    }
  }

  lemma CallRanks(s: State, t: Tid)
    requires Inv(s) && Calling(s, t)
    ensures CallRank(s.threads[t].op) <= 14
    ensures OpInv(s.g, t, true, s.threads[t].op) && s.g.h.reader == Some(t) && s.g.readerTid == Some(t)
  {
    assert LocalInv(s.g, t, s.threads[t]);
  }

  /** In every run, a call the listener makes on the reader thread is over within
      14 steps of that thread: it never waits for the session to end. */
  lemma {:induction false} CallbackNotStuck(ss: seq<State>, i: nat, j: nat, t: Tid)
    requires Behaviour(ss) && i <= j < |ss| && Calling(ss[i], t) && Calling(ss[j], t)
    requires forall k :: i <= k <= j ==> Calling(ss[k], t)
    ensures Moves(ss, i, j, t) + CallRank(ss[j].threads[t].op) <= CallRank(ss[i].threads[t].op) <= 14
  {
    hide Inv, NextBy;
    Reachable(ss, i);
    CallRanks(ss[i], t);
    if i < j {
      CallbackNotStuck(ss, i, j - 1, t);
      Reachable(ss, j - 1);
      assert StepAt(ss, j - 1);
      var a :| NextBy(ss[j - 1], a, ss[j]);
      CallingStep(ss[j - 1], a, ss[j], t);
    }
  }
}
