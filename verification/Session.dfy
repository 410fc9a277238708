/** The realtime recognition session: one SpeechRecognizer object, its shared
    state, and every thread that can touch it, as a transition system.

    A thread is a program counter.  One step performs one atomic action of the
    program: a compare-and-swap, a store, a load, acquiring a mutex, one guarded
    action together with the release that follows it, a condition-variable
    wait, a wake-up or a notification.  Whatever the program does not decide
    (the peer, the listener, the clock, the scheduler) is a `Choice`. */
module Session {
  import opened Basics

  type Tid = nat
  type ConnId = nat

  /** The two protocol generations share everything but the start handshake. */
  datatype Version = V2 | V3

  datatype Lifecycle = Idle | Starting | Running | Stopping | Stopped

  // ---------------------------------------------------------------- history

  datatype Kind = StartFrame | Audio | EndFrame | Pong

  /** What happened on one connection: a frame of which at least one byte was
      sent (`whole` when all of it was), or the reading of an ack with code 0. */
  datatype Event = Sent(kind: Kind, whole: bool) | AckRead

  /** Progress of the protocol on one connection. */
  datatype LinkPhase = Fresh | Started | Ready | Streaming | Ended | Dead | Bad

  function LinkNext(p: LinkPhase, e: Event): LinkPhase {
    match e
    case Sent(Pong, _) => p
    case Sent(StartFrame, whole) => if p == Fresh then if whole then Started else Dead else Bad
    case AckRead => if p == Started then Ready else Bad
    case Sent(Audio, _) => if p == Ready || p == Streaming then Streaming else Bad
    case Sent(EndFrame, _) => if p == Ready || p == Streaming then Ended else Bad
  }

  /** The progress a log stands for.  A v2 connection is ready as soon as it is
      dialled. */
  function Link(v: Version, log: seq<Event>): LinkPhase {
    if log == [] then if v == V2 then Ready else Fresh
    else LinkNext(Link(v, log[..|log| - 1]), log[|log| - 1])
  }

  /** `left` bounds the reads that can still succeed or time out once the
      socket has been shut down: what was buffered before. */
  datatype Conn = Conn(open: bool, log: seq<Event>, phase: LinkPhase, left: nat)

  /** A listener callback; `final` and `terminal` tell which branch made it. */
  datatype Callback =
    | OnStart
    | OnBegin
    | OnChange
    | OnEnd(final: bool)
    | OnFail(terminal: bool)
    | OnComplete

  datatype TracePhase = Silent | Body | Final | Closed | Wrong

  predicate Ordinary(cb: Callback) {
    cb == OnBegin || cb == OnChange || cb == OnEnd(false) || cb == OnFail(false)
  }

  function TraceNext(p: TracePhase, cb: Callback): TracePhase {
    if cb == OnStart then if p == Silent then Body else Wrong
    else if Ordinary(cb) then if p == Body then Body else Wrong
    else if cb == OnEnd(true) then if p == Body then Final else Wrong
    else if p == Body || p == Final then Closed else Wrong
  }

  function Trace(tr: seq<Callback>): TracePhase {
    if tr == [] then Silent else TraceNext(Trace(tr[..|tr| - 1]), tr[|tr| - 1])
  }

  // ----------------------------------------------------------- shared state

  datatype Lock = ConnMu | WriteMu | DoneMu | TidMu | WireMu(c: ConnId)

  /** History that no branch of the program reads: the callbacks so far, how
      often Running was entered, whether a notification is still owed for a flag
      already stored, whether Stop has tried to send the end frame, what the last
      Start dialled and the last ack it read, and which threads are (or were last)
      in charge of what. */
  datatype History = History(
    trace: seq<Callback>,
    told: TracePhase,
    runs: nat,
    pending: bool,
    endSent: bool,
    dialled: Option<ConnId>,
    ack: Option<Ack>,
    starter: Option<Tid>,
    winner: Option<Tid>,
    reader: Option<Tid>,
    watchdog: Option<Tid>
  )

  /** RecognizerSharedState, its mutexes, the wait set of its condition
      variable, the clock and the connections. */
  datatype Shared = Shared(
    version: Version,
    state: Lifecycle,
    conn: Option<ConnId>,
    done: bool,
    terminal: bool,
    finished: bool,
    readerTid: Option<Tid>,
    stopTimeout: nat,
    locks: map<Lock, Tid>,
    asleep: set<Tid>,
    now: nat,
    conns: seq<Conn>,
    h: History
  )

  /** Program counters of Start. */
  datatype StartPc =
    | StCas | StConnect | StWireLock(c: ConnId) | StSend(c: ConnId)
    | StConnLock(c: ConnId) | StPublish(c: ConnId)
    | StAck(c: ConnId, due: nat) | StPongLock(c: ConnId, due: nat) | StPong(c: ConnId, due: nat)
    | StCloseLock | StClose | StFail | StRun | StTimeout | StSpawn

  /** Program counters of Write. */
  datatype WritePc =
    | WrCheck | WrConnLock | WrConn | WrLock(c: ConnId) | WrRecheck(c: ConnId)
    | WrWireLock(c: ConnId) | WrSend(c: ConnId)

  /** Program counters of Stop. */
  datatype StopPc =
    | SpCas | SpConnLock | SpConn | SpLock(c: ConnId) | SpRecheck(c: ConnId)
    | SpWireLock(c: ConnId) | SpSend(c: ConnId) | SpFailed | SpCloseLock | SpClose
    | SpStore | SpTidLock | SpTid | SpSpawn

  /** Program counters of WaitForReadLoopOrClose. */
  datatype WaitPc =
    | WtLock | WtEnter | WtCheck(due: nat)
    | WtSleep(due: nat) | WtRelock(due: nat) | WtTimeout(due: nat)
    | WtCloseLock(due: nat) | WtClose(due: nat)
    | WtGrace(due: nat) | WtGraceSleep(due: nat) | WtGraceRelock(due: nat) | WtOver
    | WtFinal | WtFinalSleep | WtFinalRelock

  /** The API call a thread is executing.  `last` says that the waiter is a Stop
      that still has to store Stopped when the wait is over. */
  datatype Op =
    | NoCall
    | InStart(st: StartPc)
    | InWrite(wr: WritePc)
    | InStop(sp: StopPc)
    | InWait(last: bool, wt: WaitPc)

  /** Where the reader goes once Finish is over. */
  datatype After = ThenFail | ThenMark(cb: Callback) | ThenSignal

  /** Program counters of ReadLoop and ReadLoopInner (R) and, inside them, of
      Finish (RFin), MarkTerminalReceived (RMark) and SignalDone (RDone).
      `RIn(cb)` is the time the listener spends inside `cb`. */
  datatype ReaderPc =
    | RTidLock | RTid
    | RInvoke(cb: Callback) | RIn(cb: Callback)
    | RConnLock | RConn | RRead | RPoll | RError | RPongLock | RPong
    | RFinish(next: After) | RFinCloseLock(next: After) | RFinClose(next: After)
    | RMarkLock(cb: Callback) | RMark(cb: Callback) | RMarkNotify(cb: Callback)
    | RDoneLock | RDone | RDoneNotify | RExited

  datatype Role = App | Watchdog | Reader(at: ReaderPc, rc: ConnId)

  datatype Thread = Thread(role: Role, op: Op)

  datatype State = State(g: Shared, threads: seq<Thread>)

  // ---------------------------------------------------------------- choices

  datatype Api = CallStart | CallWrite | CallStop

  /** A frame the reader receives: the fields its branches inspect. */
  datatype Downlink =
    | Ping
    | Binary
    | CloseFrame
    | OtherOpcode
    | Malformed
    | Response(code: int, finalFlag: int, hasResult: bool, sliceType: int)

  /** The `code` of an ack: absent, a number or boolean, or of another type.  `n` is
      the value after the conversion to a 32-bit int: 4294967296 and 0.5 are 0. */
  datatype AckCode = NoCode | Number(n: int) | OtherType

  /** The `speaker_continue` of an ack: absent or not an object, or an object with
      each of its two fields absent or a string, or not so. */
  datatype AckSpeaker = NoSpeaker | SpeakerObject(statusOk: bool, idOk: bool)

  datatype Ack =
    | AckSkip
    | AckPing
    | AckClosed
    | AckMalformed
    | AckNotObject
    | AckObject(code: AckCode, speaker: AckSpeaker)

  function CodeValue(code: AckCode): int {
    match code case NoCode => 0 case Number(n) => n case OtherType => 0
  }

  /** An ack whose reading throws where nothing closes the connection: it is not an
      object, its code is no number, or its code counts as 0 and a field of its
      speaker context is of the wrong type. */
  predicate Throws(a: Ack) {
    match a
    case AckNotObject => true
    case AckObject(code, speaker) =>
      || code == OtherType
      || (CodeValue(code) == 0 && speaker.SpeakerObject? && !(speaker.statusOk && speaker.idOk))
    case _ => false
  }

  datatype Choice =
    | Go
    | Call(api: Api)
    | Invalid
    | Return
    | Throw
    | DialFail
    | DialOk(left: nat)
    | SendWhole
    | SendPart
    | SendNone
    | PollTimeout
    | ReadError
    | Frame(f: Downlink)
    | AckFrame(a: Ack)
    | SetTimeout(ms: nat)

  datatype CallStep = Stuck | Next(g: Shared, op: Op, born: Option<Thread>)

  const ACK_TIMEOUT := 5000
  const SPEAKER_CONTEXT_ACK_TIMEOUT := 15000
  const GRACE := 300

  // ------------------------------------------------------------ small steps

  predicate Free(g: Shared, l: Lock) { l !in g.locks }

  function Take(g: Shared, l: Lock, t: Tid): Shared { g.(locks := g.locks[l := t]) }

  function Drop(g: Shared, l: Lock): Shared { g.(locks := g.locks - {l}) }

  /** Acquire `l` and move to `op`, or stay blocked. */
  function Acquire(g: Shared, l: Lock, t: Tid, op: Op): CallStep {
    if Free(g, l) then Next(Take(g, l, t), op, None) else Stuck
  }

  function SetConn(g: Shared, c: ConnId, k: Conn): Shared
    requires c < |g.conns|
  {
    g.(conns := g.conns[c := k])
  }

  /** RecognizerSharedState::Close under conn_mu: shut the socket down and drop
      the reference. */
  function CloseConn(g: Shared): Shared {
    match g.conn
    case None => g
    case Some(c) =>
      if c < |g.conns| then SetConn(g, c, g.conns[c].(open := false)).(conn := None)
      else g.(conn := None)
  }

  function Logged(g: Shared, c: ConnId, e: Event): Shared {
    if c >= |g.conns| then g
    else var k := g.conns[c]; SetConn(g, c, k.(log := k.log + [e], phase := LinkNext(k.phase, e)))
  }

  /** The effect on the wire of one frame send.  Nothing can be sent whole once
      the socket has been shut down. */
  predicate SendChoice(g: Shared, c: ConnId, k: Choice) {
    k == SendPart || k == SendNone || (k == SendWhole && c < |g.conns| && g.conns[c].open)
  }

  function Send(g: Shared, c: ConnId, kind: Kind, k: Choice): Shared {
    match k
    case SendWhole => Logged(g, c, Sent(kind, true))
    case SendPart => Logged(g, c, Sent(kind, false))
    case _ => g
  }

  /** One Read that did not fail: after a shutdown it uses up the buffer. */
  predicate ReadChoice(g: Shared, c: ConnId) {
    c < |g.conns| && (g.conns[c].open || g.conns[c].left > 0)
  }

  function Used(g: Shared, c: ConnId): Shared
    requires ReadChoice(g, c)
  {
    if g.conns[c].open then g else SetConn(g, c, g.conns[c].(left := g.conns[c].left - 1))
  }

  // ------------------------------------------------------------------ Start

  /** The branches of Connect on a frame it reads while waiting for the ack. */
  function AckStep(g: Shared, c: ConnId, due: nat, a: Ack): CallStep {
    match a
    case AckSkip => Next(g, InStart(StAck(c, due)), None)
    case AckPing => Next(g, InStart(StPongLock(c, due)), None)
    case AckClosed => Next(g, InStart(StCloseLock), None)
    case AckMalformed => Next(g, InStart(StCloseLock), None)
    case AckNotObject => Next(g, InStart(StFail), None)
    case AckObject(code, speaker) =>
      if code == OtherType then Next(g, InStart(StFail), None)
      else if CodeValue(code) != 0 then Next(g, InStart(StCloseLock), None)
      else Next(Logged(g, c, AckRead), InStart(if Throws(a) then StFail else StRun), None)
  }

  function StartStep(g: Shared, t: Tid, st: StartPc, k: Choice, newborn: Tid): CallStep {
    match st
    case StCas =>
      if g.state != Idle then Next(g, NoCall, None)
      else
        var h := g.h.(starter := Some(t), dialled := None, ack := None);
        Next(g.(state := Starting, h := h), InStart(StConnect), None)
    case StConnect =>
      (match k
       case DialFail => Next(g, InStart(StFail), None)
       case DialOk(left) =>
         var c := |g.conns|;
         var conn := Conn(true, [], if g.version == V2 then Ready else Fresh, left);
         var g' := g.(conns := g.conns + [conn], h := g.h.(dialled := Some(c)));
         Next(g', if g.version == V2 then InStart(StConnLock(c)) else InStart(StWireLock(c)), None)
       case _ => Stuck)
    case StWireLock(c) => Acquire(g, WireMu(c), t, InStart(StSend(c)))
    case StSend(c) =>
      if !SendChoice(g, c, k) then Stuck else
      var g' := Drop(Send(g, c, StartFrame, k), WireMu(c));
      if k == SendWhole then Next(g', InStart(StConnLock(c)), None)
      else Next(if c < |g'.conns| then SetConn(g', c, g'.conns[c].(open := false)) else g', InStart(StFail), None)
    case StConnLock(c) => Acquire(g, ConnMu, t, InStart(StPublish(c)))
    case StPublish(c) =>
      var g' := Drop(CloseConn(g).(conn := Some(c)), ConnMu);
      if g.version == V2 then Next(g', InStart(StRun), None)
      else (match k
            case SetTimeout(ms) =>
              if ms == ACK_TIMEOUT || ms == SPEAKER_CONTEXT_ACK_TIMEOUT then
                Next(g', InStart(StAck(c, g.now + ms)), None)
              else Stuck
            case _ => Stuck)
    case StAck(c, due) =>
      (match k
       case PollTimeout => Next(g, if g.now >= due then InStart(StCloseLock) else InStart(StAck(c, due)), None)
       case ReadError => Next(g, InStart(StCloseLock), None)
       case AckFrame(a) => AckStep(g.(h := g.h.(ack := Some(a))), c, due, a)
       case _ => Stuck)
    case StPongLock(c, due) => Acquire(g, WireMu(c), t, InStart(StPong(c, due)))
    case StPong(c, due) =>
      if SendChoice(g, c, k) then Next(Drop(Send(g, c, Pong, k), WireMu(c)), InStart(StAck(c, due)), None) else Stuck
    case StCloseLock => Acquire(g, ConnMu, t, InStart(StClose))
    case StClose => Next(Drop(CloseConn(g), ConnMu), InStart(StFail), None)
    case StFail => Next(g.(state := Idle, h := g.h.(starter := None)), NoCall, None)
    case StRun => Next(g.(state := Running, h := g.h.(runs := g.h.runs + 1)), InStart(StTimeout), None)
    case StTimeout =>
      (match k case SetTimeout(ms) => Next(g.(stopTimeout := ms), InStart(StSpawn), None) case _ => Stuck)
    case StSpawn => Next(g.(h := g.h.(reader := Some(newborn))), NoCall, Some(Thread(Reader(RTidLock, 0), NoCall)))
  }

  // ------------------------------------------------------------------ Write

  function WriteStep(g: Shared, t: Tid, wr: WritePc, k: Choice): CallStep {
    match wr
    case WrCheck =>
      if k == Invalid || g.state != Running then Next(g, NoCall, None) else Next(g, InWrite(WrConnLock), None)
    case WrConnLock => Acquire(g, ConnMu, t, InWrite(WrConn))
    case WrConn =>
      Next(Drop(g, ConnMu), (match g.conn case None => NoCall case Some(c) => InWrite(WrLock(c))), None)
    case WrLock(c) => Acquire(g, WriteMu, t, InWrite(WrRecheck(c)))
    case WrRecheck(c) =>
      if g.state != Running then Next(Drop(g, WriteMu), NoCall, None) else Next(g, InWrite(WrWireLock(c)), None)
    case WrWireLock(c) => Acquire(g, WireMu(c), t, InWrite(WrSend(c)))
    case WrSend(c) =>
      if SendChoice(g, c, k) then Next(Drop(Drop(Send(g, c, Audio, k), WireMu(c)), WriteMu), NoCall, None)
      else Stuck
  }

  // ------------------------------------------------------------------- Stop

  function StopStep(g: Shared, t: Tid, sp: StopPc, k: Choice, newborn: Tid): CallStep {
    match sp
    case SpCas =>
      if g.state == Running then Next(g.(state := Stopping, h := g.h.(winner := Some(t))), InStop(SpConnLock), None)
      else Next(g, NoCall, None)
    case SpConnLock => Acquire(g, ConnMu, t, InStop(SpConn))
    case SpConn =>
      Next(Drop(g, ConnMu), (match g.conn case None => InStop(SpStore) case Some(c) => InStop(SpLock(c))), None)
    case SpLock(c) => Acquire(g, WriteMu, t, InStop(SpRecheck(c)))
    case SpRecheck(c) =>
      if g.state == Stopped then Next(Drop(g, WriteMu), InWait(false, WtLock), None)
      else Next(g, InStop(SpWireLock(c)), None)
    case SpWireLock(c) => Acquire(g, WireMu(c), t, InStop(SpSend(c)))
    case SpSend(c) =>
      if !SendChoice(g, c, k) then Stuck else
      var g' := Drop(Drop(Send(g, c, EndFrame, k).(h := g.h.(endSent := true)), WireMu(c)), WriteMu);
      Next(g', if k == SendWhole then InStop(SpTidLock) else InStop(SpFailed), None)
    case SpFailed => Next(g, if g.state == Stopped then InWait(false, WtLock) else InStop(SpCloseLock), None)
    case SpCloseLock => Acquire(g, ConnMu, t, InStop(SpClose))
    case SpClose => Next(Drop(CloseConn(g), ConnMu), InStop(SpStore), None)
    case SpStore => Next(g.(state := Stopped), NoCall, None)
    case SpTidLock => Acquire(g, TidMu, t, InStop(SpTid))
    case SpTid => Next(Drop(g, TidMu), if g.readerTid == Some(t) then InStop(SpSpawn) else InWait(true, WtLock), None)
    case SpSpawn =>
      Next(g.(h := g.h.(watchdog := Some(newborn))), NoCall, Some(Thread(Watchdog, InWait(false, WtLock))))
  }

  // ------------------------------------------------ WaitForReadLoopOrClose

  /** Return from the wait, releasing done_mu. */
  function WaitOver(g: Shared, last: bool): CallStep {
    Next(Drop(g, DoneMu), if last then InStop(SpStore) else NoCall, None)
  }

  /** Release done_mu and fall asleep in one atomic action. */
  function Sleep(g: Shared, t: Tid, op: Op): CallStep {
    Next(Drop(g, DoneMu).(asleep := g.asleep + {t}), op, None)
  }

  function Wake(g: Shared, t: Tid, op: Op): CallStep {
    Next(g.(asleep := g.asleep - {t}), op, None)
  }

  function WaitStep(g: Shared, t: Tid, last: bool, wt: WaitPc): CallStep {
    match wt
    case WtLock => Acquire(g, DoneMu, t, InWait(last, WtEnter))
    case WtEnter => Next(g, InWait(last, WtCheck(g.now + g.stopTimeout)), None)
    case WtCheck(due) =>
      if g.done then WaitOver(g, last)
      else if g.terminal then Next(g, InWait(last, WtFinal), None)
      else Sleep(g, t, InWait(last, WtSleep(due)))
    case WtSleep(due) => Wake(g, t, InWait(last, WtRelock(due)))
    case WtRelock(due) =>
      Acquire(g, DoneMu, t, InWait(last, if g.now >= due then WtTimeout(due) else WtCheck(due)))
    case WtTimeout(due) =>
      if g.done then WaitOver(g, last)
      else Next(g, InWait(last, if g.terminal then WtCheck(due) else WtCloseLock(due)), None)
    case WtCloseLock(due) => Acquire(g, ConnMu, t, InWait(last, WtClose(due)))
    case WtClose(due) => Next(Drop(CloseConn(g), ConnMu), InWait(last, WtGrace(due)), None)
    case WtGrace(due) => Sleep(g, t, InWait(last, WtGraceSleep(g.now + GRACE)))
    case WtGraceSleep(due) => Wake(g, t, InWait(last, WtGraceRelock(due)))
    case WtGraceRelock(due) => Acquire(g, DoneMu, t, InWait(last, WtOver))
    case WtOver => WaitOver(g, last)
    case WtFinal => if g.done then WaitOver(g, last) else Sleep(g, t, InWait(last, WtFinalSleep))
    case WtFinalSleep => Wake(g, t, InWait(last, WtFinalRelock))
    case WtFinalRelock => Acquire(g, DoneMu, t, InWait(last, WtFinal))
  }

  function OpStep(g: Shared, t: Tid, op: Op, k: Choice, newborn: Tid): CallStep {
    match op
    case NoCall => Stuck
    case InStart(st) => StartStep(g, t, st, k, newborn)
    case InWrite(wr) => WriteStep(g, t, wr, k)
    case InStop(sp) => StopStep(g, t, sp, k, newborn)
    case InWait(last, wt) => WaitStep(g, t, last, wt)
  }

  // ----------------------------------------------------------------- reader

  datatype Read = Held | To(g: Shared, at: ReaderPc, rc: ConnId)

  function ReadLock(g: Shared, l: Lock, t: Tid, at: ReaderPc, rc: ConnId): Read {
    if Free(g, l) then To(Take(g, l, t), at, rc) else Held
  }

  function Resume(next: After): ReaderPc {
    match next
    case ThenFail => RInvoke(OnFail(true))
    case ThenMark(cb) => RMarkLock(cb)
    case ThenSignal => RDoneLock
  }

  /** ReadLoop's catch blocks: finish the lifecycle, then report. */
  const PANIC: ReaderPc := RFinish(ThenFail)

  /** Where the reader goes when the listener leaves `cb`.  OnFail and
      OnRecognitionComplete are shielded, so a throw is a return there. */
  function AfterCallback(cb: Callback, threw: bool): ReaderPc {
    match cb
    case OnStart => if threw then PANIC else RConnLock
    case OnBegin => if threw then PANIC else RRead
    case OnChange => if threw then PANIC else RRead
    case OnEnd(final) => if threw then PANIC else if final then RInvoke(OnComplete) else RRead
    case OnFail(terminal) => if terminal then RFinish(ThenSignal) else RRead
    case OnComplete => RFinish(ThenSignal)
  }

  /** The branches of ReadLoopInner on a received frame. */
  function OnFrame(f: Downlink): ReaderPc {
    match f
    case Ping => RPongLock
    case Binary => RInvoke(OnFail(false))
    case CloseFrame => RError
    case OtherOpcode => RRead
    case Malformed => RInvoke(OnFail(false))
    case Response(code, finalFlag, hasResult, sliceType) =>
      if code != 0 then RFinish(ThenMark(OnFail(true)))
      else if finalFlag == 1 then RFinish(ThenMark(if sliceType == 2 then OnEnd(true) else OnComplete))
      else if !hasResult then RRead
      else if sliceType == 0 then RInvoke(OnBegin)
      else if sliceType == 1 then RInvoke(OnChange)
      else if sliceType == 2 then RInvoke(OnEnd(false))
      else RRead
  }

  function ReaderStep(g: Shared, t: Tid, at: ReaderPc, rc: ConnId, k: Choice): Read {
    match at
    case RTidLock => ReadLock(g, TidMu, t, RTid, rc)
    case RTid => To(Drop(g.(readerTid := Some(t)), TidMu), RInvoke(OnStart), rc)
    case RInvoke(cb) => To(g.(h := g.h.(trace := g.h.trace + [cb], told := TraceNext(g.h.told, cb))), RIn(cb), rc)
    case RIn(cb) =>
      if k == Return then To(g, AfterCallback(cb, false), rc)
      else if k == Throw then To(g, AfterCallback(cb, true), rc)
      else Held
    case RConnLock => ReadLock(g, ConnMu, t, RConn, rc)
    case RConn =>
      (match g.conn
       case None => To(Drop(g, ConnMu), RFinish(ThenSignal), rc)
       case Some(c) => To(Drop(g, ConnMu), RRead, c))
    case RRead =>
      (match k
       case ReadError => To(g, RError, rc)
       case PollTimeout => if ReadChoice(g, rc) then To(Used(g, rc), RPoll, rc) else Held
       case Frame(f) => if ReadChoice(g, rc) then To(Used(g, rc), OnFrame(f), rc) else Held
       case _ => Held)
    case RPoll => To(g, if g.state == Stopped then RFinish(ThenSignal) else RRead, rc)
    case RError =>
      To(g, if g.state == Stopping || g.state == Stopped then RFinish(ThenSignal) else RFinish(ThenFail), rc)
    case RPongLock => ReadLock(g, WireMu(rc), t, RPong, rc)
    case RPong => if SendChoice(g, rc, k) then To(Drop(Send(g, rc, Pong, k), WireMu(rc)), RRead, rc) else Held
    case RFinish(next) =>
      if g.finished then To(g, Resume(next), rc) else To(g.(state := Stopped), RFinCloseLock(next), rc)
    case RFinCloseLock(next) => ReadLock(g, ConnMu, t, RFinClose(next), rc)
    case RFinClose(next) => To(Drop(CloseConn(g), ConnMu).(finished := true), Resume(next), rc)
    case RMarkLock(cb) => ReadLock(g, DoneMu, t, RMark(cb), rc)
    case RMark(cb) => To(Drop(g.(terminal := true, h := g.h.(pending := true)), DoneMu), RMarkNotify(cb), rc)
    case RMarkNotify(cb) => To(g.(asleep := {}, h := g.h.(pending := false)), RInvoke(cb), rc)
    case RDoneLock => ReadLock(g, DoneMu, t, RDone, rc)
    case RDone => To(Drop(g.(done := true, h := g.h.(pending := true)), DoneMu), RDoneNotify, rc)
    case RDoneNotify => To(g.(asleep := {}, h := g.h.(pending := false)), RExited, rc)
    case RExited => Held
  }

  // ----------------------------------------------------------------- system

  function Entry(api: Api): Op {
    match api case CallStart => InStart(StCas) case CallWrite => InWrite(WrCheck) case CallStop => InStop(SpCas)
  }

  /** Who may begin an API call: application threads, and the reader while the
      listener is running on it. */
  predicate MayCall(role: Role) {
    role.App? || (role.Reader? && role.at.RIn?)
  }

  datatype Outcome = Blocked | Moved(g: Shared, th: Thread, born: Option<Thread>)

  /** One step of thread `t`; `newborn` is the id a thread it spawns will get. */
  function ThreadStep(g: Shared, t: Tid, th: Thread, k: Choice, newborn: Tid): Outcome {
    if th.op != NoCall then
      match OpStep(g, t, th.op, k, newborn)
      case Stuck => Blocked
      case Next(g', op, born) => Moved(g', th.(op := op), born)
    else if k.Call? then
      if MayCall(th.role) then Moved(g, th.(op := Entry(k.api)), None) else Blocked
    else if th.role.Reader? then
      match ReaderStep(g, t, th.role.at, th.role.rc, k)
      case Held => Blocked
      case To(g', at, rc) => Moved(g', Thread(Reader(at, rc), NoCall), None)
    else Blocked
  }

  datatype Action = Run(t: Tid, k: Choice) | Tick | NewThread

  function Born(ths: seq<Thread>, b: Option<Thread>): seq<Thread> {
    match b case None => ths case Some(th) => ths + [th]
  }

  predicate NextBy(s: State, a: Action, s': State) {
    match a
    case Run(t, k) =>
      t < |s.threads| &&
      (match ThreadStep(s.g, t, s.threads[t], k, |s.threads|)
       case Blocked => false
       case Moved(g, th, born) => s' == State(g, Born(s.threads[t := th], born)))
    case Tick => s' == s.(g := s.g.(now := s.g.now + 1))
    case NewThread => s' == s.(threads := s.threads + [Thread(App, NoCall)])
  }

  ghost predicate NextState(s: State, s': State) {
    exists a :: NextBy(s, a, s')
  }

  predicate InitShared(g: Shared) {
    && g.state == Idle && g.conn == None && !g.done && !g.terminal && !g.finished
    && g.readerTid == None && g.locks == map[] && g.asleep == {} && g.conns == []
    && g.h.trace == [] && g.h.told == Silent
    && g.h.runs == 0 && !g.h.pending && !g.h.endSent
    && g.h.dialled == None && g.h.ack == None
    && g.h.starter == None && g.h.winner == None && g.h.reader == None && g.h.watchdog == None
  }

  /** Any number of application threads, none of them inside a call. */
  predicate Init(s: State) {
    InitShared(s.g) && forall t :: 0 <= t < |s.threads| ==> s.threads[t] == Thread(App, NoCall)
  }

  ghost predicate StepAt(ss: seq<State>, i: nat)
    requires i + 1 < |ss|
  {
    NextState(ss[i], ss[i + 1])
  }

  ghost predicate Behaviour(ss: seq<State>) {
    && |ss| > 0
    && Init(ss[0])
    && forall i :: 0 <= i < |ss| - 1 ==> StepAt(ss, i)
  }
}
