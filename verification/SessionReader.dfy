/** The reader's own steps: ReadLoop, ReadLoopInner, Finish, MarkTerminalReceived
    and SignalDone keep the invariant, one lemma for each group of them. */
module SessionReader {
  import opened Basics
  import opened Session
  import opened SessionInvariant
  import opened SessionSteps

  predicate ReaderBefore(g: Shared, t: Tid, at: ReaderPc, rc: ConnId) {
    SharedInv(g) && ReaderInv(g, t, at, rc) && g.h.watchdog != Some(t)
  }

  /** What a step of the reader owes the other threads, mutexes aside. */
  predicate ReaderFair(g: Shared, t: Tid, g': Shared) {
    && ConnsKept(g, g')
    && Peaceful(g, g', t)
    && g'.asleep <= g.asleep
    && g'.h.watchdog == g.h.watchdog && g'.h.reader == g.h.reader
  }

  ghost predicate ReaderOk(g: Shared, t: Tid, r: Read)
    requires r.To?
  {
    && SharedInv(r.g)
    && ReaderInv(r.g, t, r.at, r.rc)
    && ReaderFair(g, t, r.g)
    && LockedAs(g.locks, t, r.g.locks, ReaderHolds(r.at, r.rc))
  }

  /** Acquiring a mutex. */
  predicate ReaderLock(at: ReaderPc) {
    at.RTidLock? || at.RConnLock? || at.RPongLock? || at.RFinCloseLock? || at.RMarkLock? || at.RDoneLock?
  }

  lemma ReaderLockShared(g: Shared, t: Tid, at: ReaderPc, rc: ConnId, k: Choice)
    requires ReaderBefore(g, t, at, rc) && ReaderLock(at) && ReaderStep(g, t, at, rc, k).To?
    ensures SharedInv(ReaderStep(g, t, at, rc, k).g)
  {
    match at {
      case RTidLock =>
      case RConnLock =>
      case RPongLock =>
      case RFinCloseLock(next) =>
      case RMarkLock(cb) =>
      case RDoneLock =>
      case _ =>
    }
  }

  lemma ReaderLockFair(g: Shared, t: Tid, at: ReaderPc, rc: ConnId, k: Choice)
    requires ReaderBefore(g, t, at, rc) && ReaderLock(at) && ReaderStep(g, t, at, rc, k).To?
    ensures ReaderFair(g, t, ReaderStep(g, t, at, rc, k).g)
  {
    match at {
      case RTidLock =>
      case RConnLock =>
      case RPongLock =>
      case RFinCloseLock(next) =>
      case RMarkLock(cb) =>
      case RDoneLock =>
      case _ =>
    }
  }

  lemma ReaderLockLanded(g: Shared, t: Tid, at: ReaderPc, rc: ConnId, k: Choice)
    requires ReaderBefore(g, t, at, rc) && ReaderLock(at) && ReaderStep(g, t, at, rc, k).To?
    ensures var r := ReaderStep(g, t, at, rc, k); ReaderInv(r.g, t, r.at, r.rc)
  {
    match at {
      case RTidLock =>
      case RConnLock =>
      case RPongLock =>
      case RFinCloseLock(next) =>
      case RMarkLock(cb) =>
      case RDoneLock =>
      case _ =>
    }
  }

  lemma ReaderLockLocks(g: Shared, t: Tid, at: ReaderPc, rc: ConnId, k: Choice)
    requires ReaderLock(at) && ReaderStep(g, t, at, rc, k).To? && HoldsExactly(g.locks, t, ReaderHolds(at, rc))
    ensures var r := ReaderStep(g, t, at, rc, k); LockedAs(g.locks, t, r.g.locks, ReaderHolds(r.at, r.rc))
  {
    match at {
      case RTidLock => Took(g.locks, t, TidMu, {}, {TidMu});
      case RConnLock => Took(g.locks, t, ConnMu, {}, {ConnMu});
      case RPongLock => Took(g.locks, t, WireMu(rc), {}, {WireMu(rc)});
      case RFinCloseLock(next) => Took(g.locks, t, ConnMu, {}, {ConnMu});
      case RMarkLock(cb) => Took(g.locks, t, DoneMu, {}, {DoneMu});
      case RDoneLock => Took(g.locks, t, DoneMu, {}, {DoneMu});
      case _ =>
    }
  }

  /** Calling the listener and coming back. */
  predicate ReaderCall(at: ReaderPc) {
    at.RInvoke? || at.RIn?
  }

  lemma ReaderCallShared(g: Shared, t: Tid, at: ReaderPc, rc: ConnId, k: Choice)
    requires ReaderBefore(g, t, at, rc) && ReaderCall(at) && ReaderStep(g, t, at, rc, k).To?
    ensures SharedInv(ReaderStep(g, t, at, rc, k).g)
  {
    match at {
      case RInvoke(cb) =>
      case RIn(cb) =>
      case _ =>
    }
  }

  lemma ReaderCallFair(g: Shared, t: Tid, at: ReaderPc, rc: ConnId, k: Choice)
    requires ReaderBefore(g, t, at, rc) && ReaderCall(at) && ReaderStep(g, t, at, rc, k).To?
    ensures ReaderFair(g, t, ReaderStep(g, t, at, rc, k).g)
  {
    match at {
      case RInvoke(cb) =>
      case RIn(cb) =>
      case _ =>
    }
  }

  lemma ReaderCallLanded(g: Shared, t: Tid, at: ReaderPc, rc: ConnId, k: Choice)
    requires ReaderBefore(g, t, at, rc) && ReaderCall(at) && ReaderStep(g, t, at, rc, k).To?
    ensures var r := ReaderStep(g, t, at, rc, k); ReaderInv(r.g, t, r.at, r.rc)
  {
    match at {
      case RInvoke(cb) =>
      case RIn(cb) =>
      case _ =>
    }
  }

  lemma ReaderCallLocks(g: Shared, t: Tid, at: ReaderPc, rc: ConnId, k: Choice)
    requires ReaderCall(at) && ReaderStep(g, t, at, rc, k).To? && HoldsExactly(g.locks, t, ReaderHolds(at, rc))
    ensures var r := ReaderStep(g, t, at, rc, k); LockedAs(g.locks, t, r.g.locks, ReaderHolds(r.at, r.rc))
  {
    match at {
      case RInvoke(cb) =>
      case RIn(cb) =>
      case _ =>
    }
  }

  /** The read loop. */
  predicate ReaderLoop(at: ReaderPc) {
    at.RConn? || at.RRead? || at.RPoll? || at.RError?
  }

  lemma ReaderLoopShared(g: Shared, t: Tid, at: ReaderPc, rc: ConnId, k: Choice)
    requires ReaderBefore(g, t, at, rc) && ReaderLoop(at) && ReaderStep(g, t, at, rc, k).To?
    ensures SharedInv(ReaderStep(g, t, at, rc, k).g)
  {
    match at {
      case RConn =>
      case RRead =>
      case RPoll =>
      case RError =>
      case _ =>
    }
  }

  lemma ReaderLoopFair(g: Shared, t: Tid, at: ReaderPc, rc: ConnId, k: Choice)
    requires ReaderBefore(g, t, at, rc) && ReaderLoop(at) && ReaderStep(g, t, at, rc, k).To?
    ensures ReaderFair(g, t, ReaderStep(g, t, at, rc, k).g)
  {
    match at {
      case RConn =>
      case RRead =>
      case RPoll =>
      case RError =>
      case _ =>
    }
  }

  lemma ReaderLoopLanded(g: Shared, t: Tid, at: ReaderPc, rc: ConnId, k: Choice)
    requires ReaderBefore(g, t, at, rc) && ReaderLoop(at) && ReaderStep(g, t, at, rc, k).To?
    ensures var r := ReaderStep(g, t, at, rc, k); ReaderInv(r.g, t, r.at, r.rc)
  {
    match at {
      case RConn =>
      case RRead =>
      case RPoll =>
      case RError =>
      case _ =>
    }
  }

  lemma ReaderLoopLocks(g: Shared, t: Tid, at: ReaderPc, rc: ConnId, k: Choice)
    requires ReaderLoop(at) && ReaderStep(g, t, at, rc, k).To? && HoldsExactly(g.locks, t, ReaderHolds(at, rc))
    ensures var r := ReaderStep(g, t, at, rc, k); LockedAs(g.locks, t, r.g.locks, ReaderHolds(r.at, r.rc))
  {
    match at {
      case RConn => Dropped(g.locks, t, ConnMu, {ConnMu}, {});
      case _ =>
    }
  }

  /** Answering a ping. */
  predicate ReaderPong(at: ReaderPc) {
    at.RPong?
  }

  /** A pong leaves the progress of every connection as it is. */
  lemma PongKeepsPhases(g: Shared, c: ConnId, k: Choice)
    ensures var g' := Send(g, c, Pong, k);
            && |g'.conns| == |g.conns|
            && forall d :: 0 <= d < |g.conns| ==> g'.conns[d].phase == g.conns[d].phase
  {
  }

  lemma ReaderPongShared(g: Shared, t: Tid, at: ReaderPc, rc: ConnId, k: Choice)
    requires ReaderBefore(g, t, at, rc) && ReaderPong(at) && ReaderStep(g, t, at, rc, k).To?
    ensures SharedInv(ReaderStep(g, t, at, rc, k).g)
  {
    hide TraceInv, Early, TraceNext, Send;
    SendOnlyConns(g, rc, Pong, k);
    PongKeepsPhases(g, rc, k);
  }

  lemma ReaderPongFair(g: Shared, t: Tid, at: ReaderPc, rc: ConnId, k: Choice)
    requires ReaderBefore(g, t, at, rc) && ReaderPong(at) && ReaderStep(g, t, at, rc, k).To?
    ensures ReaderFair(g, t, ReaderStep(g, t, at, rc, k).g)
  {
    hide TraceInv, Early, TraceNext;
    match k {
      case SendWhole =>
      case SendPart =>
      case _ =>
    }
  }

  lemma ReaderPongLanded(g: Shared, t: Tid, at: ReaderPc, rc: ConnId, k: Choice)
    requires ReaderBefore(g, t, at, rc) && ReaderPong(at) && ReaderStep(g, t, at, rc, k).To?
    ensures var r := ReaderStep(g, t, at, rc, k); ReaderInv(r.g, t, r.at, r.rc)
  {
    match k {
      case SendWhole =>
      case SendPart =>
      case _ =>
    }
  }

  lemma ReaderPongLocks(g: Shared, t: Tid, at: ReaderPc, rc: ConnId, k: Choice)
    requires ReaderPong(at) && ReaderStep(g, t, at, rc, k).To? && HoldsExactly(g.locks, t, ReaderHolds(at, rc))
    ensures var r := ReaderStep(g, t, at, rc, k); LockedAs(g.locks, t, r.g.locks, ReaderHolds(r.at, r.rc))
  {
    match at {
      case RPong => Dropped(g.locks, t, WireMu(rc), {WireMu(rc)}, {});
      case _ =>
    }
  }

  /** Finish. */
  predicate ReaderFinish(at: ReaderPc) {
    at.RFinish? || at.RFinClose?
  }

  lemma ReaderFinishShared(g: Shared, t: Tid, at: ReaderPc, rc: ConnId, k: Choice)
    requires ReaderBefore(g, t, at, rc) && ReaderFinish(at) && ReaderStep(g, t, at, rc, k).To?
    ensures SharedInv(ReaderStep(g, t, at, rc, k).g)
  {
    match at {
      case RFinish(next) =>
      case RFinClose(next) =>
      case _ =>
    }
  }

  lemma ReaderFinishFair(g: Shared, t: Tid, at: ReaderPc, rc: ConnId, k: Choice)
    requires ReaderBefore(g, t, at, rc) && ReaderFinish(at) && ReaderStep(g, t, at, rc, k).To?
    ensures ReaderFair(g, t, ReaderStep(g, t, at, rc, k).g)
  {
    match at {
      case RFinish(next) =>
      case RFinClose(next) =>
      case _ =>
    }
  }

  lemma ReaderFinishLanded(g: Shared, t: Tid, at: ReaderPc, rc: ConnId, k: Choice)
    requires ReaderBefore(g, t, at, rc) && ReaderFinish(at) && ReaderStep(g, t, at, rc, k).To?
    ensures var r := ReaderStep(g, t, at, rc, k); ReaderInv(r.g, t, r.at, r.rc)
  {
    match at {
      case RFinish(next) =>
      case RFinClose(next) =>
      case _ =>
    }
  }

  lemma ReaderFinishLocks(g: Shared, t: Tid, at: ReaderPc, rc: ConnId, k: Choice)
    requires ReaderFinish(at) && ReaderStep(g, t, at, rc, k).To? && HoldsExactly(g.locks, t, ReaderHolds(at, rc))
    ensures var r := ReaderStep(g, t, at, rc, k); LockedAs(g.locks, t, r.g.locks, ReaderHolds(r.at, r.rc))
  {
    match at {
      case RFinClose(next) => Dropped(g.locks, t, ConnMu, {ConnMu}, {});
      case _ =>
    }
  }

  /** Announcing the reader's id, the terminal response and the end. */
  predicate ReaderSignal(at: ReaderPc) {
    at.RTid? || at.RMark? || at.RMarkNotify? || at.RDone? || at.RDoneNotify?
  }

  lemma ReaderSignalShared(g: Shared, t: Tid, at: ReaderPc, rc: ConnId, k: Choice)
    requires ReaderBefore(g, t, at, rc) && ReaderSignal(at) && ReaderStep(g, t, at, rc, k).To?
    ensures SharedInv(ReaderStep(g, t, at, rc, k).g)
  {
    match at {
      case RTid =>
      case RMark(cb) =>
      case RMarkNotify(cb) =>
      case RDone =>
      case RDoneNotify =>
      case _ =>
    }
  }

  lemma ReaderSignalFair(g: Shared, t: Tid, at: ReaderPc, rc: ConnId, k: Choice)
    requires ReaderBefore(g, t, at, rc) && ReaderSignal(at) && ReaderStep(g, t, at, rc, k).To?
    ensures ReaderFair(g, t, ReaderStep(g, t, at, rc, k).g)
  {
    match at {
      case RTid =>
      case RMark(cb) =>
      case RMarkNotify(cb) =>
      case RDone =>
      case RDoneNotify =>
      case _ =>
    }
  }

  lemma ReaderSignalLanded(g: Shared, t: Tid, at: ReaderPc, rc: ConnId, k: Choice)
    requires ReaderBefore(g, t, at, rc) && ReaderSignal(at) && ReaderStep(g, t, at, rc, k).To?
    ensures var r := ReaderStep(g, t, at, rc, k); ReaderInv(r.g, t, r.at, r.rc)
  {
    match at {
      case RTid =>
      case RMark(cb) =>
      case RMarkNotify(cb) =>
      case RDone =>
      case RDoneNotify =>
      case _ =>
    }
  }

  lemma ReaderSignalLocks(g: Shared, t: Tid, at: ReaderPc, rc: ConnId, k: Choice)
    requires ReaderSignal(at) && ReaderStep(g, t, at, rc, k).To? && HoldsExactly(g.locks, t, ReaderHolds(at, rc))
    ensures var r := ReaderStep(g, t, at, rc, k); LockedAs(g.locks, t, r.g.locks, ReaderHolds(r.at, r.rc))
  {
    match at {
      case RTid => Dropped(g.locks, t, TidMu, {TidMu}, {});
      case RMark(cb) => Dropped(g.locks, t, DoneMu, {DoneMu}, {});
      case RDone => Dropped(g.locks, t, DoneMu, {DoneMu}, {});
      case _ =>
    }
  }

  lemma ReaderStepOk(g: Shared, t: Tid, at: ReaderPc, rc: ConnId, k: Choice)
    requires ReaderBefore(g, t, at, rc) && ReaderStep(g, t, at, rc, k).To?
    requires HoldsExactly(g.locks, t, ReaderHolds(at, rc))
    ensures ReaderOk(g, t, ReaderStep(g, t, at, rc, k))
  {
    if ReaderLock(at) {
      ReaderLockShared(g, t, at, rc, k);
      ReaderLockFair(g, t, at, rc, k);
      ReaderLockLanded(g, t, at, rc, k);
      ReaderLockLocks(g, t, at, rc, k);
    } else if ReaderCall(at) {
      ReaderCallShared(g, t, at, rc, k);
      ReaderCallFair(g, t, at, rc, k);
      ReaderCallLanded(g, t, at, rc, k);
      ReaderCallLocks(g, t, at, rc, k);
    } else if ReaderLoop(at) {
      ReaderLoopShared(g, t, at, rc, k);
      ReaderLoopFair(g, t, at, rc, k);
      ReaderLoopLanded(g, t, at, rc, k);
      ReaderLoopLocks(g, t, at, rc, k);
    } else if ReaderPong(at) {
      ReaderPongShared(g, t, at, rc, k);
      ReaderPongFair(g, t, at, rc, k);
      ReaderPongLanded(g, t, at, rc, k);
      ReaderPongLocks(g, t, at, rc, k);
    } else if ReaderFinish(at) {
      ReaderFinishShared(g, t, at, rc, k);
      ReaderFinishFair(g, t, at, rc, k);
      ReaderFinishLanded(g, t, at, rc, k);
      ReaderFinishLocks(g, t, at, rc, k);
    } else {
      ReaderSignalShared(g, t, at, rc, k);
      ReaderSignalFair(g, t, at, rc, k);
      ReaderSignalLanded(g, t, at, rc, k);
      ReaderSignalLocks(g, t, at, rc, k);
    }
  }
}
