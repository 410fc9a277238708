/** What every reachable state of a session satisfies, proved by rely and
    guarantee: each thread has a local invariant over the shared state, each
    step keeps the local invariant of the thread that takes it, and what a step
    may do to the shared state (`Guarantee`) keeps everybody else's. */
module SessionInvariant {
  import opened Basics
  import opened Session

  predicate Up(g: Shared, c: ConnId) {
    c < |g.conns| && g.conns[c].phase in {Ready, Streaming, Ended}
  }

  // --------------------------------------------------------- local invariant

  /** The mutexes a program counter holds. */
  function OpHolds(op: Op): set<Lock> {
    match op
    case NoCall => {}
    case InStart(st) =>
      (match st
       case StSend(c) => {WireMu(c)}
       case StPublish(_) => {ConnMu}
       case StPong(c, _) => {WireMu(c)}
       case StClose => {ConnMu}
       case _ => {})
    case InWrite(wr) =>
      (match wr
       case WrConn => {ConnMu}
       case WrRecheck(_) => {WriteMu}
       case WrWireLock(_) => {WriteMu}
       case WrSend(c) => {WriteMu, WireMu(c)}
       case _ => {})
    case InStop(sp) =>
      (match sp
       case SpConn => {ConnMu}
       case SpRecheck(_) => {WriteMu}
       case SpWireLock(_) => {WriteMu}
       case SpSend(c) => {WriteMu, WireMu(c)}
       case SpClose => {ConnMu}
       case SpTid => {TidMu}
       case _ => {})
    case InWait(_, wt) =>
      (match wt
       case WtClose(_) => {DoneMu, ConnMu}
       case WtEnter => {DoneMu}
       case WtCheck(_) => {DoneMu}
       case WtTimeout(_) => {DoneMu}
       case WtCloseLock(_) => {DoneMu}
       case WtGrace(_) => {DoneMu}
       case WtFinal => {DoneMu}
       case WtOver => {DoneMu}
       case _ => {})
  }

  /** The mutex a program counter is about to acquire. */
  function OpWants(op: Op): Option<Lock> {
    match op
    case NoCall => None
    case InStart(st) =>
      (match st
       case StWireLock(c) => Some(WireMu(c))
       case StConnLock(_) => Some(ConnMu)
       case StPongLock(c, _) => Some(WireMu(c))
       case StCloseLock => Some(ConnMu)
       case _ => None)
    case InWrite(wr) =>
      (match wr
       case WrConnLock => Some(ConnMu)
       case WrLock(_) => Some(WriteMu)
       case WrWireLock(c) => Some(WireMu(c))
       case _ => None)
    case InStop(sp) =>
      (match sp
       case SpConnLock => Some(ConnMu)
       case SpLock(_) => Some(WriteMu)
       case SpWireLock(c) => Some(WireMu(c))
       case SpCloseLock => Some(ConnMu)
       case SpTidLock => Some(TidMu)
       case _ => None)
    case InWait(_, wt) =>
      (match wt
       case WtLock => Some(DoneMu)
       case WtRelock(_) => Some(DoneMu)
       case WtCloseLock(_) => Some(ConnMu)
       case WtGraceRelock(_) => Some(DoneMu)
       case WtFinalRelock => Some(DoneMu)
       case _ => None)
  }

  function ReaderHolds(at: ReaderPc, rc: ConnId): set<Lock> {
    match at
    case RTid => {TidMu}
    case RConn => {ConnMu}
    case RPong => {WireMu(rc)}
    case RFinClose(_) => {ConnMu}
    case RMark(_) => {DoneMu}
    case RDone => {DoneMu}
    case _ => {}
  }

  function Holds(th: Thread): set<Lock> {
    OpHolds(th.op) + (if th.role.Reader? then ReaderHolds(th.role.at, th.role.rc) else {})
  }

  ghost predicate HoldsExactly(m: map<Lock, Tid>, t: Tid, held: set<Lock>) {
    forall l :: l in held <==> (l in m && m[l] == t)
  }

  predicate Asleep(op: Op) {
    op.InWait? && (op.wt.WtSleep? || op.wt.WtGraceSleep? || op.wt.WtFinalSleep?)
  }

  predicate StartInv(g: Shared, t: Tid, st: StartPc) {
    if st.StCas? then true
    else if st.StTimeout? || st.StSpawn? then g.h.starter == Some(t) && g.h.runs == 1 && g.h.reader == None
    else
      && g.state == Starting && g.h.starter == Some(t)
      && (st.StWireLock? || st.StSend? ==>
            g.version == V3 && st.c < |g.conns| && g.conns[st.c].phase == Fresh)
      && (st.StConnLock? || st.StPublish? ==>
            st.c < |g.conns| && g.conns[st.c].phase == (if g.version == V2 then Ready else Started))
      && (st.StAck? || st.StPongLock? || st.StPong? ==>
            g.version == V3 && st.c < |g.conns| && g.conns[st.c].phase == Started && g.conn == Some(st.c))
      && (st.StRun? ==> g.conn.Some? && Up(g, g.conn.value))
      && DialInv(g, st)
  }

  /** What a Start has dialled and read so far.  While it waits for the ack, no
      ack that throws has been read; on its way to a failure, its connection is
      open exactly if one has. */
  predicate DialInv(g: Shared, st: StartPc) {
    match st
    case StConnect => g.h.dialled == None && g.h.ack == None
    case StWireLock(c) => Dialled(g, c) && g.h.ack == None && g.conn != Some(c)
    case StSend(c) => Dialled(g, c) && g.h.ack == None && g.conn != Some(c)
    case StConnLock(c) => Dialled(g, c) && g.h.ack == None && g.conn != Some(c)
    case StPublish(c) => Dialled(g, c) && g.h.ack == None && g.conn != Some(c)
    case StAck(c, _) => Dialled(g, c) && Tame(g.h.ack)
    case StPongLock(c, _) => Dialled(g, c) && Tame(g.h.ack)
    case StPong(c, _) => Dialled(g, c) && Tame(g.h.ack)
    case StCloseLock => g.conn.Some? && Dialled(g, g.conn.value) && Tame(g.h.ack)
    case StClose => g.conn.Some? && Dialled(g, g.conn.value) && Tame(g.h.ack)
    case StFail =>
      (match g.h.dialled
       case None => Tame(g.h.ack)
       case Some(c) =>
         && c < |g.conns| && (g.conns[c].open <==> !Tame(g.h.ack))
         && (!Tame(g.h.ack) ==> g.conn == Some(c)))
    case StRun => g.h.dialled == g.conn
    case _ => true
  }

  predicate Dialled(g: Shared, c: ConnId) {
    g.h.dialled == Some(c) && c < |g.conns| && g.conns[c].open
  }

  predicate Tame(ack: Option<Ack>) {
    ack.Some? ==> !Throws(ack.value)
  }

  predicate WriteInv(g: Shared, wr: WritePc) {
    && (!wr.WrCheck? ==> g.h.runs == 1)
    && (wr.WrLock? || wr.WrRecheck? || wr.WrWireLock? || wr.WrSend? ==> Up(g, wr.c))
    && (wr.WrWireLock? || wr.WrSend? ==> !g.h.endSent)
  }

  predicate BeforeEnd(sp: StopPc) {
    sp.SpConnLock? || sp.SpConn? || sp.SpLock? || sp.SpRecheck? || sp.SpWireLock? || sp.SpSend?
  }

  /** `rd`: the thread is the reader, inside a listener callback. */
  predicate StopInv(g: Shared, t: Tid, rd: bool, sp: StopPc) {
    sp.SpCas? || (
      && g.h.winner == Some(t) && g.h.runs == 1
      && (!sp.SpStore? ==> g.h.watchdog == None)
      && (BeforeEnd(sp) ==> !g.h.endSent)
      && (sp.SpLock? || sp.SpRecheck? || sp.SpWireLock? || sp.SpSend? ==> Up(g, sp.c))
      && (sp.SpSpawn? ==> rd)
      && (rd && (sp.SpTidLock? || sp.SpTid?) ==> g.readerTid == Some(t))
      && (rd && (BeforeEnd(sp) || sp.SpFailed?) ==> g.state == Stopping && g.conn.Some? && g.readerTid == Some(t))
    )
  }

  predicate WaitInv(g: Shared, t: Tid, rd: bool, last: bool, wt: WaitPc) {
    && !rd && g.h.runs == 1
    && (g.h.winner == Some(t) || g.h.watchdog == Some(t))
    && g.h.winner.Some?
    && (last ==> g.h.winner == Some(t))
    && (wt.WtSleep? && t in g.asleep && (g.done || g.terminal) ==> g.h.pending)
    && (wt.WtFinal? || wt.WtFinalSleep? || wt.WtFinalRelock? ==> g.terminal)
    && (wt.WtFinalSleep? && t in g.asleep && g.done ==> g.h.pending)
    && (wt.WtTimeout? || wt.WtCloseLock? || wt.WtClose? || wt.WtGrace? ==> g.now >= wt.due)
    && (wt.WtGrace? || wt.WtGraceSleep? || wt.WtGraceRelock? || wt.WtOver? ==> g.conn == None)
  }

  predicate OpInv(g: Shared, t: Tid, rd: bool, op: Op) {
    match op
    case NoCall => true
    case InStart(st) => StartInv(g, t, st)
    case InWrite(wr) => WriteInv(g, wr)
    case InStop(sp) => StopInv(g, t, rd, sp)
    case InWait(last, wt) => WaitInv(g, t, rd, last, wt)
  }

  predicate Early(at: ReaderPc) {
    at.RTidLock? || at.RTid? || (at.RInvoke? && at.cb == OnStart)
  }

  /** Before the lifecycle has been finished. */
  predicate Live(at: ReaderPc) {
    || at.RTidLock? || at.RTid? || at.RConnLock? || at.RConn? || at.RRead? || at.RPoll? || at.RError?
    || at.RPongLock? || at.RPong?
    || ((at.RInvoke? || at.RIn?) && (at.cb == OnStart || Ordinary(at.cb)))
  }

  predicate TraceInv(g: Shared, at: ReaderPc) {
    var p := g.h.told;
    match at
    case RIn(cb) =>
      if cb == OnStart || Ordinary(cb) then p == Body
      else if cb == OnEnd(true) then p == Final
      else p == Closed
    case RInvoke(cb) =>
      if cb == OnStart then p == Silent
      else if Ordinary(cb) || cb == OnEnd(true) then p == Body
      else p == Body || p == Final
    case RFinish(next) => AfterInv(p, next)
    case RFinCloseLock(next) => AfterInv(p, next)
    case RFinClose(next) => AfterInv(p, next)
    case RMarkLock(cb) => p == Body && Terminal(cb)
    case RMark(cb) => p == Body && Terminal(cb)
    case RMarkNotify(cb) => p == Body && Terminal(cb)
    case RTidLock => p == Silent
    case RTid => p == Silent
    case RDoneLock => p in {Body, Closed}
    case RDone => p in {Body, Closed}
    case RDoneNotify => p in {Body, Closed}
    case RExited => p in {Body, Closed}
    case _ => p == Body
  }

  predicate Terminal(cb: Callback) {
    cb == OnFail(true) || cb == OnComplete || cb == OnEnd(true)
  }

  predicate AfterInv(p: TracePhase, next: After) {
    match next
    case ThenFail => p == Body || p == Final
    case ThenMark(cb) => p == Body && Terminal(cb)
    case ThenSignal => p == Body || p == Closed
  }

  predicate ReaderInv(g: Shared, t: Tid, at: ReaderPc, rc: ConnId) {
    && g.h.reader == Some(t) && g.h.runs == 1
    && g.readerTid == (if at.RTidLock? || at.RTid? then None else Some(t))
    && TraceInv(g, at)
    && (Live(at) ==> !g.finished && !g.terminal)
    && (at.RFinCloseLock? || at.RFinClose? ==> g.state == Stopped && !g.finished)
    && (at.RFinish? || at.RFinCloseLock? || at.RFinClose? ==> g.finished || !g.terminal)
    && (Live(at) || at.RFinish? || at.RFinCloseLock? || at.RFinClose? || g.finished)
    && (at.RMarkLock? || at.RMark? ==> !g.terminal)
    && (at.RFinish? && at.next.ThenMark? ==> !g.finished)
    && (g.done <==> at.RDoneNotify? || at.RExited?)
    && (g.h.pending <==> at.RMarkNotify? || at.RDoneNotify?)
    && (at.RRead? || at.RPoll? || at.RError? || at.RPongLock? || at.RPong? ==> rc < |g.conns|)
    && (!Early(at) && Live(at) && !(at.RIn? && at.cb == OnStart) && !at.RConnLock? && !at.RConn? ==> rc < |g.conns|)
  }

  predicate RoleInv(g: Shared, t: Tid, th: Thread) {
    match th.role
    case App => g.h.reader != Some(t) && g.h.watchdog != Some(t)
    case Watchdog =>
      g.h.watchdog == Some(t) && g.h.reader != Some(t) && (th.op.NoCall? || (th.op.InWait? && !th.op.last))
    case Reader(at, rc) =>
      ReaderInv(g, t, at, rc) && g.h.watchdog != Some(t) && (th.op.NoCall? || at.RIn?)
  }

  ghost predicate LocalInv(g: Shared, t: Tid, th: Thread) {
    && RoleInv(g, t, th)
    && OpInv(g, t, th.role.Reader?, th.op)
    && HoldsExactly(g.locks, t, Holds(th))
    && (t in g.asleep ==> Asleep(th.op))
  }

  // -------------------------------------------------------- global invariant

  predicate ConnInv(g: Shared, k: Conn) {
    && k.phase != Bad
    && (k.phase == Ended ==> g.h.endSent)
    && (k.phase == Streaming || k.phase == Ended ==> g.h.runs == 1)
  }

  /** The phases that the steps keep are those the histories stand for. */
  predicate HistoryInv(g: Shared) {
    && (forall c :: 0 <= c < |g.conns| ==> g.conns[c].phase == Link(g.version, g.conns[c].log))
    && g.h.told == Trace(g.h.trace)
  }

  /** A socket that has not been shut down is the published one, or the one the
      Start in progress has dialled. */
  predicate InUse(g: Shared, c: ConnId) {
    g.conn == Some(c) || (g.state == Starting && g.h.dialled == Some(c))
  }

  predicate SharedInv(g: Shared) {
    && (forall c :: 0 <= c < |g.conns| ==> ConnInv(g, g.conns[c]))
    && g.h.runs <= 1
    && (g.h.runs == 1 <==> g.state in {Running, Stopping, Stopped})
    && (g.state == Idle <==> g.h.starter == None)
    && (g.h.reader.Some? ==> g.h.runs == 1)
    && (g.readerTid.Some? ==> g.readerTid == g.h.reader)
    && (g.h.winner.Some? ==> g.h.runs == 1)
    && (g.state == Running ==> g.h.winner == None && g.conn.Some?)
    && (g.state == Stopping ==> g.h.winner.Some?)
    && (g.h.runs == 1 && g.conn.Some? ==> Up(g, g.conn.value))
    && (g.conn.Some? ==> g.conn.value < |g.conns|)
    && (forall c :: 0 <= c < |g.conns| && g.conns[c].open ==> InUse(g, c))
    && (g.finished ==> g.conn == None)
    && (g.h.endSent ==> g.h.winner.Some?)
    && (g.h.watchdog.Some? ==> g.h.winner.Some?)
    && (g.finished ==> g.state == Stopped)
    && (g.h.reader == None ==>
          g.h.told == Silent && !g.finished && !g.terminal && !g.done && !g.h.pending && g.readerTid == None)
  }

  /** Every thread id the shared state mentions is the id of a thread. */
  ghost predicate Ids(g: Shared, threads: seq<Thread>) {
    && (forall l :: l in g.locks ==> g.locks[l] < |threads|)
    && (forall t :: t in g.asleep ==> t < |threads|)
    && (g.h.reader.Some? ==> g.h.reader.value < |threads| && threads[g.h.reader.value].role.Reader?)
    && (g.h.winner.Some? ==> g.h.winner.value < |threads|)
    && (g.h.starter.Some? ==> g.h.starter.value < |threads|)
    && (g.h.watchdog.Some? ==> g.h.watchdog.value < |threads|)
  }

  ghost predicate Inv(s: State) {
    && SharedInv(s.g) && HistoryInv(s.g) && Ids(s.g, s.threads)
    && (forall t :: 0 <= t < |s.threads| ==> LocalInv(s.g, t, s.threads[t]))
  }

  // --------------------------------------------------------------- guarantee

  ghost predicate LocksOfOthers(m: map<Lock, Tid>, m': map<Lock, Tid>, t: Tid) {
    && (forall l :: l in m && m[l] != t ==> l in m' && m'[l] == m[l])
    && (forall l :: l in m' && m'[l] != t ==> l in m && m[l] == m'[l])
  }

  /** The part of the shared state that only the reader writes. */
  predicate ReaderPartSame(g: Shared, g': Shared) {
    && g'.h.trace == g.h.trace && g'.h.told == g.h.told
    && g'.finished == g.finished && g'.done == g.done && g'.terminal == g.terminal
    && g'.h.pending == g.h.pending && g'.readerTid == g.readerTid
  }

  predicate ConnsKept(g: Shared, g': Shared) {
    && |g.conns| <= |g'.conns|
    && forall c :: 0 <= c < |g.conns| && Up(g, c) ==> Up(g', c)
  }

  /** What a step of thread `t` may do, as every other thread sees it. */
  ghost predicate Guarantee(g: Shared, g': Shared, t: Tid) {
    LocksOfOthers(g.locks, g'.locks, t) && ConnsKept(g, g') && Peaceful(g, g', t)
  }

  /** The guarantee on everything but mutexes and connections. */
  predicate Peaceful(g: Shared, g': Shared, t: Tid) {
    && g'.version == g.version
    && g'.asleep <= g.asleep + {t}
    && (g.h.pending && !g'.h.pending ==> g'.asleep == {})
    && (g'.done != g.done || g'.terminal != g.terminal ==> g'.h.pending)
    && (g.terminal ==> g'.terminal)
    && g'.now == g.now
    && g.h.runs <= g'.h.runs
    && (g.state == Starting && g.h.starter != Some(t) ==>
          g'.state == Starting && g'.conn == g.conn && g'.conns == g.conns &&
          g'.h.dialled == g.h.dialled && g'.h.ack == g.h.ack)
    && (g.state != Starting ==> |g'.conns| == |g.conns|)
    && (g.h.starter.Some? && g.h.starter != Some(t) ==> g'.h.starter == g.h.starter)
    && (g'.h.reader != g.h.reader ==> g.h.starter == Some(t) && g.h.reader == None)
    && (g.h.winner.Some? ==> g'.h.winner == g.h.winner)
    && (g'.h.winner == g.h.winner || g'.h.winner == Some(t))
    && (g'.h.starter == g.h.starter || g'.h.starter == Some(t) || g'.h.starter == None)
    && (g'.h.endSent != g.h.endSent ==> g.h.winner == Some(t) && WriteMu in g.locks && g.locks[WriteMu] == t)
    && (g'.h.watchdog != g.h.watchdog ==> g.h.winner == Some(t) && g.h.watchdog == None)
    && (g.state == Stopping && g.h.winner != Some(t) && g.h.reader != Some(t) && g.h.watchdog != Some(t) ==>
          g'.state == g.state && g'.conn == g.conn)
    && (g.state == Stopped ==> g'.state == Stopped)
    && (g.h.runs == 1 && g.conn == None ==> g'.conn == None)
    && (g.h.reader != Some(t) ==> ReaderPartSame(g, g'))
  }

  // ------------------------------------------------------- non-interference

  lemma HoldsKept(m: map<Lock, Tid>, m': map<Lock, Tid>, t: Tid, u: Tid, held: set<Lock>)
    requires u != t && LocksOfOthers(m, m', t) && HoldsExactly(m, u, held)
    ensures HoldsExactly(m', u, held)
  {
  }

  lemma OpKept(g: Shared, g': Shared, t: Tid, u: Tid, rd: bool, op: Op)
    requires u != t && Guarantee(g, g', t) && g'.h.runs <= 1
    requires OpInv(g, u, rd, op) && (op.InWrite? ==> HoldsExactly(g.locks, u, OpHolds(op)))
    requires rd ==> g.h.reader == Some(u)
    ensures OpInv(g', u, rd, op)
  {
    if op.InWrite? && (op.wr.WrWireLock? || op.wr.WrSend?) {
      assert WriteMu in OpHolds(op);
    }
  }

  lemma RoleKept(g: Shared, g': Shared, t: Tid, u: Tid, th: Thread)
    requires u != t && Guarantee(g, g', t) && g'.h.runs <= 1
    requires RoleInv(g, u, th)
    requires g'.h.reader != Some(u) || g.h.reader == Some(u)
    requires g'.h.watchdog != Some(u) || g.h.watchdog == Some(u)
    ensures RoleInv(g', u, th)
  {
  }
}
