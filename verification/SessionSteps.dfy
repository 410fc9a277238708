/** Every step keeps the invariant of the thread that takes it and respects the
    guarantee, one lemma for each procedure of the program. */
module SessionSteps {
  import opened Basics
  import opened Session
  import opened SessionInvariant

  // ------------------------------------------------------------ bookkeeping

  predicate Before(g: Shared, t: Tid, rd: bool, op: Op) {
    && SharedInv(g)
    && OpInv(g, t, rd, op)
    && (rd <==> g.h.reader == Some(t))
    && (rd ==> g.readerTid == Some(t))
    && (t in g.asleep ==> Asleep(op))
  }

  /** The invariant of the thread that steps, and its place in the wait set. */
  predicate Landed(g: Shared, t: Tid, rd: bool, g': Shared, op': Op) {
    && OpInv(g', t, rd, op')
    && g.asleep - {t} <= g'.asleep
    && (t in g'.asleep ==> Asleep(op'))
  }

  /** What a step of an API call owes the other threads, mutexes aside. */
  predicate Fair(g: Shared, t: Tid, g': Shared) {
    && ConnsKept(g, g')
    && Peaceful(g, g', t)
    && ReaderPartSame(g, g')
  }

  ghost predicate LockedAs(m: map<Lock, Tid>, t: Tid, m': map<Lock, Tid>, held: set<Lock>) {
    HoldsExactly(m', t, held) && LocksOfOthers(m, m', t)
  }

  ghost predicate OpOk(g: Shared, t: Tid, rd: bool, g': Shared, op': Op) {
    SharedInv(g') && Landed(g, t, rd, g', op') && Fair(g, t, g') && LockedAs(g.locks, t, g'.locks, OpHolds(op'))
  }

  // ------------------------------------------------------------ quiet steps

  /** A step that changes nothing but mutexes and its own place in the wait
      set. */
  predicate QuietStep(g: Shared, t: Tid, g': Shared) {
    && g' == g.(locks := g'.locks, asleep := g'.asleep)
    && g.asleep - {t} <= g'.asleep <= g.asleep + {t}
  }

  lemma QuietShared(g: Shared, t: Tid, g': Shared)
    requires SharedInv(g) && QuietStep(g, t, g')
    ensures SharedInv(g')
  {
  }

  lemma QuietFair(g: Shared, t: Tid, g': Shared)
    requires SharedInv(g) && QuietStep(g, t, g')
    ensures Fair(g, t, g')
  {
  }

  lemma QuietLanded(g: Shared, t: Tid, rd: bool, g': Shared, op: Op)
    requires QuietStep(g, t, g') && g'.asleep == g.asleep && OpInv(g, t, rd, op) && t !in g.asleep
    ensures Landed(g, t, rd, g', op)
  {
  }

  // ------------------------------------------------------ acquiring a mutex

  lemma Took(m: map<Lock, Tid>, t: Tid, l: Lock, held: set<Lock>, held': set<Lock>)
    requires HoldsExactly(m, t, held) && l !in m && held' == held + {l}
    ensures LockedAs(m, t, m[l := t], held')
  {
  }

  lemma Dropped(m: map<Lock, Tid>, t: Tid, l: Lock, held: set<Lock>, held': set<Lock>)
    requires HoldsExactly(m, t, held) && l in held && held' == held - {l}
    ensures LockedAs(m, t, m - {l}, held')
  {
  }

  /** Every acquisition takes the mutex the program counter wants, and the next
      program counter holds it. */
  lemma AcquireShape(g: Shared, t: Tid, op: Op, k: Choice, newborn: Tid)
    requires OpWants(op).Some? && OpStep(g, t, op, k, newborn).Next?
    ensures var r := OpStep(g, t, op, k, newborn);
            && Free(g, OpWants(op).value) && r.g == Take(g, OpWants(op).value, t)
            && OpHolds(r.op) == OpHolds(op) + {OpWants(op).value}
            && !Asleep(op)
  {
    match op {
      case InStart(st) =>
      case InWrite(wr) =>
      case InStop(sp) =>
      case InWait(last, wt) =>
    }
  }

  lemma AcquireLands(g: Shared, t: Tid, rd: bool, op: Op, k: Choice, newborn: Tid)
    requires OpWants(op).Some? && OpStep(g, t, op, k, newborn).Next? && OpInv(g, t, rd, op)
    ensures OpInv(g, t, rd, OpStep(g, t, op, k, newborn).op)
  {
    match op {
      case InStart(st) =>
      case InWrite(wr) =>
      case InStop(sp) =>
      case InWait(last, wt) =>
    }
  }

  lemma AcquireOk(g: Shared, t: Tid, rd: bool, op: Op, k: Choice, newborn: Tid)
    requires Before(g, t, rd, op) && HoldsExactly(g.locks, t, OpHolds(op))
    requires OpWants(op).Some? && OpStep(g, t, op, k, newborn).Next?
    ensures var r := OpStep(g, t, op, k, newborn); OpOk(g, t, rd, r.g, r.op)
  {
    var r := OpStep(g, t, op, k, newborn);
    AcquireShape(g, t, op, k, newborn);
    AcquireLands(g, t, rd, op, k, newborn);
    Took(g.locks, t, OpWants(op).value, OpHolds(op), OpHolds(r.op));
    QuietShared(g, t, r.g);
    QuietFair(g, t, r.g);
    QuietLanded(g, t, rd, r.g, r.op);
  }

  /** A send changes nothing but the connections. */
  lemma SendOnlyConns(g: Shared, c: ConnId, kind: Kind, k: Choice)
    ensures var g' := Send(g, c, kind, k); g' == g.(conns := g'.conns) && |g'.conns| == |g.conns|
    ensures forall d :: 0 <= d < |g.conns| ==> Send(g, c, kind, k).conns[d].open == g.conns[d].open
  {
    hide LinkNext;
  }

  lemma SendKeepsUp(g: Shared, c: ConnId, kind: Kind, k: Choice)
    requires c < |g.conns| && g.conns[c].phase in {Ready, Streaming} && kind in {Audio, EndFrame, Pong}
    ensures ConnsKept(g, Send(g, c, kind, k))
  {
  }

  lemma SendKeepsConns(g: Shared, g': Shared, c: ConnId, kind: Kind, k: Choice)
    requires SharedInv(g) && c < |g.conns| && g.conns[c].phase in {Ready, Streaming} && kind in {Audio, EndFrame, Pong}
    requires g'.conns == Send(g, c, kind, k).conns && g'.version == g.version && g'.h.runs == g.h.runs == 1
    requires (g.h.endSent || kind == EndFrame) ==> g'.h.endSent
    ensures forall d :: 0 <= d < |g'.conns| ==> ConnInv(g', g'.conns[d])
  {
  }

  lemma DroppedBoth(m: map<Lock, Tid>, t: Tid, c: ConnId)
    requires HoldsExactly(m, t, {WriteMu, WireMu(c)})
    ensures LockedAs(m, t, m - {WireMu(c)} - {WriteMu}, {})
  {
  }

  // ------------------------------------------------------------------- Start

  /** Dialling, and publishing the connection. */
  predicate StartDial(st: StartPc) {
    st.StConnect? || st.StPublish?
  }

  lemma ConnectShared(g: Shared, t: Tid, rd: bool, k: Choice, newborn: Tid)
    requires Before(g, t, rd, InStart(StConnect)) && StartStep(g, t, StConnect, k, newborn).Next?
    ensures SharedInv(StartStep(g, t, StConnect, k, newborn).g)
  {
    match k {
      case DialOk(left) =>
      case _ =>
    }
  }

  lemma ConnectLanded(g: Shared, t: Tid, rd: bool, k: Choice, newborn: Tid)
    requires Before(g, t, rd, InStart(StConnect)) && StartStep(g, t, StConnect, k, newborn).Next?
    ensures var r := StartStep(g, t, StConnect, k, newborn); Landed(g, t, rd, r.g, r.op)
  {
    match k {
      case DialOk(left) =>
      case _ =>
    }
  }

  lemma PublishShared(g: Shared, t: Tid, rd: bool, c: ConnId, k: Choice, newborn: Tid)
    requires Before(g, t, rd, InStart(StPublish(c))) && StartStep(g, t, StPublish(c), k, newborn).Next?
    ensures SharedInv(StartStep(g, t, StPublish(c), k, newborn).g)
  {
    match g.conn {
      case None =>
      case Some(d) =>
    }
  }

  lemma PublishLanded(g: Shared, t: Tid, rd: bool, c: ConnId, k: Choice, newborn: Tid)
    requires Before(g, t, rd, InStart(StPublish(c))) && StartStep(g, t, StPublish(c), k, newborn).Next?
    ensures var r := StartStep(g, t, StPublish(c), k, newborn); Landed(g, t, rd, r.g, r.op)
  {
    match g.conn {
      case None =>
      case Some(d) =>
    }
  }

  lemma StartDialShared(g: Shared, t: Tid, rd: bool, st: StartPc, k: Choice, newborn: Tid)
    requires Before(g, t, rd, InStart(st)) && StartDial(st) && StartStep(g, t, st, k, newborn).Next?
    ensures SharedInv(StartStep(g, t, st, k, newborn).g)
  {
    hide StartStep, SharedInv;
    match st {
      case StConnect => ConnectShared(g, t, rd, k, newborn);
      case StPublish(c) => PublishShared(g, t, rd, c, k, newborn);
      case _ =>
    }
  }

  lemma StartDialFair(g: Shared, t: Tid, rd: bool, st: StartPc, k: Choice, newborn: Tid)
    requires Before(g, t, rd, InStart(st)) && StartDial(st) && StartStep(g, t, st, k, newborn).Next?
    ensures Fair(g, t, StartStep(g, t, st, k, newborn).g)
  {
    match st {
      case StConnect =>
      case StPublish(c) =>
      case _ =>
    }
  }

  lemma StartDialLanded(g: Shared, t: Tid, rd: bool, st: StartPc, k: Choice, newborn: Tid)
    requires Before(g, t, rd, InStart(st)) && StartDial(st) && StartStep(g, t, st, k, newborn).Next?
    ensures var r := StartStep(g, t, st, k, newborn); Landed(g, t, rd, r.g, r.op)
  {
    hide StartStep, SharedInv;
    match st {
      case StConnect => ConnectLanded(g, t, rd, k, newborn);
      case StPublish(c) => PublishLanded(g, t, rd, c, k, newborn);
      case _ =>
    }
  }

  lemma StartDialLocks(g: Shared, t: Tid, st: StartPc, k: Choice, newborn: Tid)
    requires StartDial(st) && StartStep(g, t, st, k, newborn).Next? && HoldsExactly(g.locks, t, OpHolds(InStart(st)))
    ensures var r := StartStep(g, t, st, k, newborn); LockedAs(g.locks, t, r.g.locks, OpHolds(r.op))
  {
    match st {
      case StPublish(c) => Dropped(g.locks, t, ConnMu, {ConnMu}, {});
      case _ =>
    }
  }

  /** The step that sends. */
  predicate StartSend(st: StartPc) {
    st.StSend?
  }

  lemma StartSendShared(g: Shared, t: Tid, rd: bool, st: StartPc, k: Choice, newborn: Tid)
    requires Before(g, t, rd, InStart(st)) && StartSend(st) && StartStep(g, t, st, k, newborn).Next?
    ensures SharedInv(StartStep(g, t, st, k, newborn).g)
  {
    match k {
      case SendWhole =>
      case SendPart =>
      case _ =>
    }
  }

  lemma StartSendFair(g: Shared, t: Tid, rd: bool, st: StartPc, k: Choice, newborn: Tid)
    requires Before(g, t, rd, InStart(st)) && StartSend(st) && StartStep(g, t, st, k, newborn).Next?
    ensures Fair(g, t, StartStep(g, t, st, k, newborn).g)
  {
    match k {
      case SendWhole =>
      case SendPart =>
      case _ =>
    }
  }

  lemma StartSendLanded(g: Shared, t: Tid, rd: bool, st: StartPc, k: Choice, newborn: Tid)
    requires Before(g, t, rd, InStart(st)) && StartSend(st) && StartStep(g, t, st, k, newborn).Next?
    ensures var r := StartStep(g, t, st, k, newborn); Landed(g, t, rd, r.g, r.op)
  {
    match k {
      case SendWhole =>
      case SendPart =>
      case _ =>
    }
  }

  lemma StartSendLocks(g: Shared, t: Tid, st: StartPc, k: Choice, newborn: Tid)
    requires StartSend(st) && StartStep(g, t, st, k, newborn).Next? && HoldsExactly(g.locks, t, OpHolds(InStart(st)))
    ensures var r := StartStep(g, t, st, k, newborn); LockedAs(g.locks, t, r.g.locks, OpHolds(r.op))
  {
    Dropped(g.locks, t, WireMu(st.c), {WireMu(st.c)}, {});
  }

  /** Waiting for the ack, and giving up on it. */
  predicate StartAck(st: StartPc) {
    st.StAck? || st.StPong? || st.StClose?
  }

  lemma StartAckShared(g: Shared, t: Tid, rd: bool, st: StartPc, k: Choice, newborn: Tid)
    requires Before(g, t, rd, InStart(st)) && StartAck(st) && StartStep(g, t, st, k, newborn).Next?
    ensures SharedInv(StartStep(g, t, st, k, newborn).g)
  {
    match st {
      case StAck(c, due) =>
      case StPong(c, due) =>
      case StClose =>
      case _ =>
    }
  }

  lemma StartAckFair(g: Shared, t: Tid, rd: bool, st: StartPc, k: Choice, newborn: Tid)
    requires Before(g, t, rd, InStart(st)) && StartAck(st) && StartStep(g, t, st, k, newborn).Next?
    ensures Fair(g, t, StartStep(g, t, st, k, newborn).g)
  {
    match st {
      case StAck(c, due) =>
      case StPong(c, due) =>
      case StClose =>
      case _ =>
    }
  }

  lemma AckLands(g: Shared, t: Tid, rd: bool, c: ConnId, due: nat, a: Ack)
    requires Before(g, t, rd, InStart(StAck(c, due)))
    ensures var r := AckStep(g.(h := g.h.(ack := Some(a))), c, due, a);
            r.Next? && Landed(g, t, rd, r.g, r.op)
  {
    hide ConnInv, InUse;
    match a {
      case AckObject(code, speaker) =>
      case _ =>
    }
  }

  lemma StartAckLanded(g: Shared, t: Tid, rd: bool, st: StartPc, k: Choice, newborn: Tid)
    requires Before(g, t, rd, InStart(st)) && StartAck(st) && StartStep(g, t, st, k, newborn).Next?
    ensures var r := StartStep(g, t, st, k, newborn); Landed(g, t, rd, r.g, r.op)
  {
    hide AckStep;
    match st {
      case StAck(c, due) =>
        match k {
          case AckFrame(a) => AckLands(g, t, rd, c, due, a);
          case _ =>
        }
      case StPong(c, due) =>
      case StClose =>
      case _ =>
    }
  }

  lemma StartAckLocks(g: Shared, t: Tid, st: StartPc, k: Choice, newborn: Tid)
    requires StartAck(st) && StartStep(g, t, st, k, newborn).Next? && HoldsExactly(g.locks, t, OpHolds(InStart(st)))
    ensures var r := StartStep(g, t, st, k, newborn); LockedAs(g.locks, t, r.g.locks, OpHolds(r.op))
  {
    match st {
      case StPong(c, due) => Dropped(g.locks, t, WireMu(c), {WireMu(c)}, {});
      case StClose => Dropped(g.locks, t, ConnMu, {ConnMu}, {});
      case _ =>
    }
  }

  /** Steps that move the lifecycle or spawn a thread. */
  predicate StartCtl(st: StartPc) {
    st.StCas? || st.StFail? || st.StRun? || st.StTimeout? || st.StSpawn?
  }

  lemma StartCtlShared(g: Shared, t: Tid, rd: bool, st: StartPc, k: Choice, newborn: Tid)
    requires Before(g, t, rd, InStart(st)) && StartCtl(st) && StartStep(g, t, st, k, newborn).Next?
    ensures SharedInv(StartStep(g, t, st, k, newborn).g)
  {
    match st {
      case StCas =>
      case StFail =>
      case StRun =>
      case StTimeout =>
      case StSpawn =>
      case _ =>
    }
  }

  lemma StartCtlFair(g: Shared, t: Tid, rd: bool, st: StartPc, k: Choice, newborn: Tid)
    requires Before(g, t, rd, InStart(st)) && StartCtl(st) && StartStep(g, t, st, k, newborn).Next?
    ensures Fair(g, t, StartStep(g, t, st, k, newborn).g)
  {
    match st {
      case StCas =>
      case StFail =>
      case StRun =>
      case StTimeout =>
      case StSpawn =>
      case _ =>
    }
  }

  lemma StartCtlLanded(g: Shared, t: Tid, rd: bool, st: StartPc, k: Choice, newborn: Tid)
    requires Before(g, t, rd, InStart(st)) && StartCtl(st) && StartStep(g, t, st, k, newborn).Next?
    ensures var r := StartStep(g, t, st, k, newborn); Landed(g, t, rd, r.g, r.op)
  {
    match st {
      case StCas =>
      case StFail =>
      case StRun =>
      case StTimeout =>
      case StSpawn =>
      case _ =>
    }
  }

  lemma StartCtlLocks(g: Shared, t: Tid, st: StartPc, k: Choice, newborn: Tid)
    requires StartCtl(st) && StartStep(g, t, st, k, newborn).Next? && HoldsExactly(g.locks, t, OpHolds(InStart(st)))
    ensures var r := StartStep(g, t, st, k, newborn); LockedAs(g.locks, t, r.g.locks, OpHolds(r.op))
  {
  }

  lemma StartOk(g: Shared, t: Tid, rd: bool, st: StartPc, k: Choice, newborn: Tid)
    requires Before(g, t, rd, InStart(st)) && OpWants(InStart(st)).None? && StartStep(g, t, st, k, newborn).Next?
    requires HoldsExactly(g.locks, t, OpHolds(InStart(st)))
    ensures var r := StartStep(g, t, st, k, newborn); OpOk(g, t, rd, r.g, r.op)
  {
    if StartDial(st) {
      StartDialShared(g, t, rd, st, k, newborn);
      StartDialFair(g, t, rd, st, k, newborn);
      StartDialLanded(g, t, rd, st, k, newborn);
      StartDialLocks(g, t, st, k, newborn);
    } else if StartSend(st) {
      StartSendShared(g, t, rd, st, k, newborn);
      StartSendFair(g, t, rd, st, k, newborn);
      StartSendLanded(g, t, rd, st, k, newborn);
      StartSendLocks(g, t, st, k, newborn);
    } else if StartAck(st) {
      StartAckShared(g, t, rd, st, k, newborn);
      StartAckFair(g, t, rd, st, k, newborn);
      StartAckLanded(g, t, rd, st, k, newborn);
      StartAckLocks(g, t, st, k, newborn);
    } else {
      StartCtlShared(g, t, rd, st, k, newborn);
      StartCtlFair(g, t, rd, st, k, newborn);
      StartCtlLanded(g, t, rd, st, k, newborn);
      StartCtlLocks(g, t, st, k, newborn);
    }
  }

  // ------------------------------------------------------------------- Write

  /** The step that sends. */
  predicate WriteSend(wr: WritePc) {
    wr.WrSend?
  }

  lemma WriteSendShared(g: Shared, t: Tid, rd: bool, wr: WritePc, k: Choice)
    requires Before(g, t, rd, InWrite(wr)) && WriteSend(wr) && WriteStep(g, t, wr, k).Next?
    ensures SharedInv(WriteStep(g, t, wr, k).g)
  {
    hide Send, SendChoice, LinkNext;
    SendOnlyConns(g, wr.c, Audio, k);
    SendKeepsUp(g, wr.c, Audio, k);
    SendKeepsConns(g, WriteStep(g, t, wr, k).g, wr.c, Audio, k);
  }

  lemma WriteSendFair(g: Shared, t: Tid, rd: bool, wr: WritePc, k: Choice)
    requires Before(g, t, rd, InWrite(wr)) && WriteSend(wr) && WriteStep(g, t, wr, k).Next?
    ensures Fair(g, t, WriteStep(g, t, wr, k).g)
  {
    hide Send, SendChoice, LinkNext;
    SendOnlyConns(g, wr.c, Audio, k);
    SendKeepsUp(g, wr.c, Audio, k);
  }

  lemma WriteSendLanded(g: Shared, t: Tid, rd: bool, wr: WritePc, k: Choice)
    requires Before(g, t, rd, InWrite(wr)) && WriteSend(wr) && WriteStep(g, t, wr, k).Next?
    ensures var r := WriteStep(g, t, wr, k); Landed(g, t, rd, r.g, r.op)
  {
    match k {
      case SendWhole =>
      case SendPart =>
      case _ =>
    }
  }

  lemma WriteSendLocks(g: Shared, t: Tid, wr: WritePc, k: Choice)
    requires WriteSend(wr) && WriteStep(g, t, wr, k).Next? && HoldsExactly(g.locks, t, OpHolds(InWrite(wr)))
    ensures var r := WriteStep(g, t, wr, k); LockedAs(g.locks, t, r.g.locks, OpHolds(r.op))
  {
    DroppedBoth(g.locks, t, wr.c);
  }

  /** Steps that only read or release. */
  predicate WriteQuiet(wr: WritePc) {
    wr.WrCheck? || wr.WrConn? || wr.WrRecheck?
  }

  lemma WriteQuietShape(g: Shared, t: Tid, wr: WritePc, k: Choice)
    requires WriteQuiet(wr) && WriteStep(g, t, wr, k).Next?
    ensures QuietStep(g, t, WriteStep(g, t, wr, k).g)
  {
    match wr {
      case WrCheck =>
      case WrConn =>
      case WrRecheck(c) =>
      case _ =>
    }
  }

  lemma WriteQuietLanded(g: Shared, t: Tid, rd: bool, wr: WritePc, k: Choice)
    requires Before(g, t, rd, InWrite(wr)) && WriteQuiet(wr) && WriteStep(g, t, wr, k).Next?
    ensures var r := WriteStep(g, t, wr, k); Landed(g, t, rd, r.g, r.op)
  {
    match wr {
      case WrCheck =>
      case WrConn =>
      case WrRecheck(c) =>
      case _ =>
    }
  }

  lemma WriteQuietLocks(g: Shared, t: Tid, wr: WritePc, k: Choice)
    requires WriteQuiet(wr) && WriteStep(g, t, wr, k).Next? && HoldsExactly(g.locks, t, OpHolds(InWrite(wr)))
    ensures var r := WriteStep(g, t, wr, k); LockedAs(g.locks, t, r.g.locks, OpHolds(r.op))
  {
    match wr {
      case WrConn => Dropped(g.locks, t, ConnMu, {ConnMu}, {});
      case WrRecheck(c) => Dropped(g.locks, t, WriteMu, {WriteMu}, {});
      case _ =>
    }
  }

  lemma WriteOk(g: Shared, t: Tid, rd: bool, wr: WritePc, k: Choice)
    requires Before(g, t, rd, InWrite(wr)) && OpWants(InWrite(wr)).None? && WriteStep(g, t, wr, k).Next?
    requires HoldsExactly(g.locks, t, OpHolds(InWrite(wr)))
    ensures var r := WriteStep(g, t, wr, k); OpOk(g, t, rd, r.g, r.op)
  {
    if WriteSend(wr) {
      WriteSendShared(g, t, rd, wr, k);
      WriteSendFair(g, t, rd, wr, k);
      WriteSendLanded(g, t, rd, wr, k);
      WriteSendLocks(g, t, wr, k);
    } else {
      WriteQuietShape(g, t, wr, k);
      QuietShared(g, t, WriteStep(g, t, wr, k).g);
      QuietFair(g, t, WriteStep(g, t, wr, k).g);
      WriteQuietLanded(g, t, rd, wr, k);
      WriteQuietLocks(g, t, wr, k);
    }
  }

  // -------------------------------------------------------------------- Stop

  /** The step that sends. */
  predicate StopSend(sp: StopPc) {
    sp.SpSend?
  }

  lemma StopSendShared(g: Shared, t: Tid, rd: bool, sp: StopPc, k: Choice, newborn: Tid)
    requires Before(g, t, rd, InStop(sp)) && StopSend(sp) && StopStep(g, t, sp, k, newborn).Next?
    ensures SharedInv(StopStep(g, t, sp, k, newborn).g)
  {
    hide Send, SendChoice, LinkNext;
    SendOnlyConns(g, sp.c, EndFrame, k);
    SendKeepsUp(g, sp.c, EndFrame, k);
    SendKeepsConns(g, StopStep(g, t, sp, k, newborn).g, sp.c, EndFrame, k);
  }

  lemma StopSendFair(g: Shared, t: Tid, rd: bool, sp: StopPc, k: Choice, newborn: Tid)
    requires Before(g, t, rd, InStop(sp)) && StopSend(sp) && StopStep(g, t, sp, k, newborn).Next?
    requires WriteMu in g.locks && g.locks[WriteMu] == t
    ensures Fair(g, t, StopStep(g, t, sp, k, newborn).g)
  {
    hide Send, SendChoice, LinkNext;
    SendOnlyConns(g, sp.c, EndFrame, k);
    SendKeepsUp(g, sp.c, EndFrame, k);
  }

  lemma StopSendLanded(g: Shared, t: Tid, rd: bool, sp: StopPc, k: Choice, newborn: Tid)
    requires Before(g, t, rd, InStop(sp)) && StopSend(sp) && StopStep(g, t, sp, k, newborn).Next?
    ensures var r := StopStep(g, t, sp, k, newborn); Landed(g, t, rd, r.g, r.op)
  {
    match k {
      case SendWhole =>
      case SendPart =>
      case _ =>
    }
  }

  lemma StopSendLocks(g: Shared, t: Tid, sp: StopPc, k: Choice, newborn: Tid)
    requires StopSend(sp) && StopStep(g, t, sp, k, newborn).Next? && HoldsExactly(g.locks, t, OpHolds(InStop(sp)))
    ensures var r := StopStep(g, t, sp, k, newborn); LockedAs(g.locks, t, r.g.locks, OpHolds(r.op))
  {
    DroppedBoth(g.locks, t, sp.c);
  }

  /** The step that closes the connection. */
  predicate StopClose(sp: StopPc) {
    sp.SpClose?
  }

  lemma StopCloseShared(g: Shared, t: Tid, rd: bool, sp: StopPc, k: Choice, newborn: Tid)
    requires Before(g, t, rd, InStop(sp)) && StopClose(sp) && StopStep(g, t, sp, k, newborn).Next?
    ensures SharedInv(StopStep(g, t, sp, k, newborn).g)
  {
  }

  lemma StopCloseFair(g: Shared, t: Tid, rd: bool, sp: StopPc, k: Choice, newborn: Tid)
    requires Before(g, t, rd, InStop(sp)) && StopClose(sp) && StopStep(g, t, sp, k, newborn).Next?
    ensures Fair(g, t, StopStep(g, t, sp, k, newborn).g)
  {
  }

  lemma StopCloseLanded(g: Shared, t: Tid, rd: bool, sp: StopPc, k: Choice, newborn: Tid)
    requires Before(g, t, rd, InStop(sp)) && StopClose(sp) && StopStep(g, t, sp, k, newborn).Next?
    ensures var r := StopStep(g, t, sp, k, newborn); Landed(g, t, rd, r.g, r.op)
  {
  }

  lemma StopCloseLocks(g: Shared, t: Tid, sp: StopPc, k: Choice, newborn: Tid)
    requires StopClose(sp) && StopStep(g, t, sp, k, newborn).Next? && HoldsExactly(g.locks, t, OpHolds(InStop(sp)))
    ensures var r := StopStep(g, t, sp, k, newborn); LockedAs(g.locks, t, r.g.locks, OpHolds(r.op))
  {
    Dropped(g.locks, t, ConnMu, {ConnMu}, {});
  }

  /** Steps that move the lifecycle or spawn a thread. */
  predicate StopCtl(sp: StopPc) {
    sp.SpCas? || sp.SpStore? || sp.SpSpawn?
  }

  lemma StopCtlShared(g: Shared, t: Tid, rd: bool, sp: StopPc, k: Choice, newborn: Tid)
    requires Before(g, t, rd, InStop(sp)) && StopCtl(sp) && StopStep(g, t, sp, k, newborn).Next?
    ensures SharedInv(StopStep(g, t, sp, k, newborn).g)
  {
    match sp {
      case SpCas =>
      case SpStore =>
      case SpSpawn =>
      case _ =>
    }
  }

  lemma StopCtlFair(g: Shared, t: Tid, rd: bool, sp: StopPc, k: Choice, newborn: Tid)
    requires Before(g, t, rd, InStop(sp)) && StopCtl(sp) && StopStep(g, t, sp, k, newborn).Next?
    ensures Fair(g, t, StopStep(g, t, sp, k, newborn).g)
  {
    match sp {
      case SpCas =>
      case SpStore =>
      case SpSpawn =>
      case _ =>
    }
  }

  lemma StopCtlLanded(g: Shared, t: Tid, rd: bool, sp: StopPc, k: Choice, newborn: Tid)
    requires Before(g, t, rd, InStop(sp)) && StopCtl(sp) && StopStep(g, t, sp, k, newborn).Next?
    ensures var r := StopStep(g, t, sp, k, newborn); Landed(g, t, rd, r.g, r.op)
  {
    match sp {
      case SpCas =>
      case SpStore =>
      case SpSpawn =>
      case _ =>
    }
  }

  lemma StopCtlLocks(g: Shared, t: Tid, sp: StopPc, k: Choice, newborn: Tid)
    requires StopCtl(sp) && StopStep(g, t, sp, k, newborn).Next? && HoldsExactly(g.locks, t, OpHolds(InStop(sp)))
    ensures var r := StopStep(g, t, sp, k, newborn); LockedAs(g.locks, t, r.g.locks, OpHolds(r.op))
  {
  }

  /** Steps that only read or release. */
  predicate StopQuiet(sp: StopPc) {
    sp.SpConn? || sp.SpRecheck? || sp.SpFailed? || sp.SpTid?
  }

  lemma StopQuietShape(g: Shared, t: Tid, sp: StopPc, k: Choice, newborn: Tid)
    requires StopQuiet(sp) && StopStep(g, t, sp, k, newborn).Next?
    ensures QuietStep(g, t, StopStep(g, t, sp, k, newborn).g)
  {
    match sp {
      case SpConn =>
      case SpRecheck(c) =>
      case SpFailed =>
      case SpTid =>
      case _ =>
    }
  }

  lemma StopQuietLanded(g: Shared, t: Tid, rd: bool, sp: StopPc, k: Choice, newborn: Tid)
    requires Before(g, t, rd, InStop(sp)) && StopQuiet(sp) && StopStep(g, t, sp, k, newborn).Next?
    ensures var r := StopStep(g, t, sp, k, newborn); Landed(g, t, rd, r.g, r.op)
  {
    match sp {
      case SpConn =>
      case SpRecheck(c) =>
      case SpFailed =>
      case SpTid =>
      case _ =>
    }
  }

  lemma StopQuietLocks(g: Shared, t: Tid, sp: StopPc, k: Choice, newborn: Tid)
    requires StopQuiet(sp) && StopStep(g, t, sp, k, newborn).Next? && HoldsExactly(g.locks, t, OpHolds(InStop(sp)))
    ensures var r := StopStep(g, t, sp, k, newborn); LockedAs(g.locks, t, r.g.locks, OpHolds(r.op))
  {
    match sp {
      case SpConn => Dropped(g.locks, t, ConnMu, {ConnMu}, {});
      case SpRecheck(c) => Dropped(g.locks, t, WriteMu, {WriteMu}, {});
      case SpTid => Dropped(g.locks, t, TidMu, {TidMu}, {});
      case _ =>
    }
  }

  lemma StopOk(g: Shared, t: Tid, rd: bool, sp: StopPc, k: Choice, newborn: Tid)
    requires Before(g, t, rd, InStop(sp)) && OpWants(InStop(sp)).None? && StopStep(g, t, sp, k, newborn).Next?
    requires HoldsExactly(g.locks, t, OpHolds(InStop(sp)))
    ensures var r := StopStep(g, t, sp, k, newborn); OpOk(g, t, rd, r.g, r.op)
  {
    if StopSend(sp) {
      assert WriteMu in OpHolds(InStop(sp));
      StopSendShared(g, t, rd, sp, k, newborn);
      StopSendFair(g, t, rd, sp, k, newborn);
      StopSendLanded(g, t, rd, sp, k, newborn);
      StopSendLocks(g, t, sp, k, newborn);
    } else if StopClose(sp) {
      StopCloseShared(g, t, rd, sp, k, newborn);
      StopCloseFair(g, t, rd, sp, k, newborn);
      StopCloseLanded(g, t, rd, sp, k, newborn);
      StopCloseLocks(g, t, sp, k, newborn);
    } else if StopCtl(sp) {
      StopCtlShared(g, t, rd, sp, k, newborn);
      StopCtlFair(g, t, rd, sp, k, newborn);
      StopCtlLanded(g, t, rd, sp, k, newborn);
      StopCtlLocks(g, t, sp, k, newborn);
    } else {
      StopQuietShape(g, t, sp, k, newborn);
      QuietShared(g, t, StopStep(g, t, sp, k, newborn).g);
      QuietFair(g, t, StopStep(g, t, sp, k, newborn).g);
      StopQuietLanded(g, t, rd, sp, k, newborn);
      StopQuietLocks(g, t, sp, k, newborn);
    }
  }

  // -------------------------------------------------- WaitForReadLoopOrClose

  /** The step that closes the connection. */
  predicate WaitClose(wt: WaitPc) {
    wt.WtClose?
  }

  lemma WaitCloseShared(g: Shared, t: Tid, rd: bool, last: bool, wt: WaitPc)
    requires Before(g, t, rd, InWait(last, wt)) && WaitClose(wt) && WaitStep(g, t, last, wt).Next?
    ensures SharedInv(WaitStep(g, t, last, wt).g)
  {
  }

  lemma WaitCloseFair(g: Shared, t: Tid, rd: bool, last: bool, wt: WaitPc)
    requires Before(g, t, rd, InWait(last, wt)) && WaitClose(wt) && WaitStep(g, t, last, wt).Next?
    ensures Fair(g, t, WaitStep(g, t, last, wt).g)
  {
  }

  lemma WaitCloseLanded(g: Shared, t: Tid, rd: bool, last: bool, wt: WaitPc)
    requires Before(g, t, rd, InWait(last, wt)) && WaitClose(wt) && WaitStep(g, t, last, wt).Next?
    ensures var r := WaitStep(g, t, last, wt); Landed(g, t, rd, r.g, r.op)
  {
  }

  lemma WaitCloseLocks(g: Shared, t: Tid, last: bool, wt: WaitPc)
    requires WaitClose(wt) && WaitStep(g, t, last, wt).Next? && HoldsExactly(g.locks, t, OpHolds(InWait(last, wt)))
    ensures var r := WaitStep(g, t, last, wt); LockedAs(g.locks, t, r.g.locks, OpHolds(r.op))
  {
    Dropped(g.locks, t, ConnMu, {DoneMu, ConnMu}, {DoneMu});
  }

  /** Steps that only read or release. */
  predicate WaitQuiet(wt: WaitPc) {
    wt.WtEnter? || wt.WtCheck? || wt.WtSleep? || wt.WtTimeout? || wt.WtGrace? || wt.WtGraceSleep? ||
    wt.WtOver? || wt.WtFinal? || wt.WtFinalSleep?
  }

  lemma WaitQuietShape(g: Shared, t: Tid, last: bool, wt: WaitPc)
    requires WaitQuiet(wt) && WaitStep(g, t, last, wt).Next?
    ensures QuietStep(g, t, WaitStep(g, t, last, wt).g)
  {
    match wt {
      case WtEnter =>
      case WtCheck(due) =>
      case WtSleep(due) =>
      case WtTimeout(due) =>
      case WtGrace(due) =>
      case WtGraceSleep(due) =>
      case WtOver =>
      case WtFinal =>
      case WtFinalSleep =>
      case _ =>
    }
  }

  lemma WaitQuietLanded(g: Shared, t: Tid, rd: bool, last: bool, wt: WaitPc)
    requires Before(g, t, rd, InWait(last, wt)) && WaitQuiet(wt) && WaitStep(g, t, last, wt).Next?
    ensures var r := WaitStep(g, t, last, wt); Landed(g, t, rd, r.g, r.op)
  {
    match wt {
      case WtEnter =>
      case WtCheck(due) =>
      case WtSleep(due) =>
      case WtTimeout(due) =>
      case WtGrace(due) =>
      case WtGraceSleep(due) =>
      case WtOver =>
      case WtFinal =>
      case WtFinalSleep =>
      case _ =>
    }
  }

  lemma WaitQuietLocks(g: Shared, t: Tid, last: bool, wt: WaitPc)
    requires WaitQuiet(wt) && WaitStep(g, t, last, wt).Next? && HoldsExactly(g.locks, t, OpHolds(InWait(last, wt)))
    ensures var r := WaitStep(g, t, last, wt); LockedAs(g.locks, t, r.g.locks, OpHolds(r.op))
  {
    match wt {
      case WtCheck(due) => Dropped(g.locks, t, DoneMu, {DoneMu}, {});
      case WtTimeout(due) => Dropped(g.locks, t, DoneMu, {DoneMu}, {});
      case WtGrace(due) => Dropped(g.locks, t, DoneMu, {DoneMu}, {});
      case WtOver => Dropped(g.locks, t, DoneMu, {DoneMu}, {});
      case WtFinal => Dropped(g.locks, t, DoneMu, {DoneMu}, {});
      case _ =>
    }
  }

  lemma WaitOk(g: Shared, t: Tid, rd: bool, last: bool, wt: WaitPc)
    requires Before(g, t, rd, InWait(last, wt)) && OpWants(InWait(last, wt)).None? && WaitStep(g, t, last, wt).Next?
    requires HoldsExactly(g.locks, t, OpHolds(InWait(last, wt)))
    ensures var r := WaitStep(g, t, last, wt); OpOk(g, t, rd, r.g, r.op)
  {
    if WaitClose(wt) {
      WaitCloseShared(g, t, rd, last, wt);
      WaitCloseFair(g, t, rd, last, wt);
      WaitCloseLanded(g, t, rd, last, wt);
      WaitCloseLocks(g, t, last, wt);
    } else {
      WaitQuietShape(g, t, last, wt);
      QuietShared(g, t, WaitStep(g, t, last, wt).g);
      QuietFair(g, t, WaitStep(g, t, last, wt).g);
      WaitQuietLanded(g, t, rd, last, wt);
      WaitQuietLocks(g, t, last, wt);
    }
  }

  // -------------------------------------------------------------- all calls

  lemma OpStepOk(g: Shared, t: Tid, rd: bool, op: Op, k: Choice, newborn: Tid)
    requires Before(g, t, rd, op) && HoldsExactly(g.locks, t, OpHolds(op))
    requires OpStep(g, t, op, k, newborn).Next?
    ensures var r := OpStep(g, t, op, k, newborn); OpOk(g, t, rd, r.g, r.op)
  {
    if OpWants(op).Some? {
      AcquireOk(g, t, rd, op, k, newborn);
    } else {
      match op {
        case InStart(st) => StartOk(g, t, rd, st, k, newborn);
        case InWrite(wr) => WriteOk(g, t, rd, wr, k);
        case InStop(sp) => StopOk(g, t, rd, sp, k, newborn);
        case InWait(last, wt) => WaitOk(g, t, rd, last, wt);
      }
    }
  }
}
