/** The condition-variable protocol of WaitForReadLoopOrClose. */
module SessionWait {
  import opened Basics
  import opened Session
  import opened SessionInvariant
  import opened SessionSteps
  import opened SessionReach

  /** No lost wake-up: whoever is asleep in the timed wait finds both flags
      still false, and whoever is asleep in the unbounded wait finds `done`
      still false, unless the reader is about to notify. */
  lemma NoLostWakeup(ss: seq<State>, i: nat, t: Tid)
    requires Behaviour(ss) && i < |ss| && t < |ss[i].threads| && t in ss[i].g.asleep
    ensures ss[i].threads[t].op.InWait?
    ensures var g, wt := ss[i].g, ss[i].threads[t].op.wt;
            (wt.WtSleep? && (g.done || g.terminal)) || (wt.WtFinalSleep? && g.done) ==>
              && g.h.reader.Some? && g.h.reader.value < |ss[i].threads|
              && var r := ss[i].threads[g.h.reader.value].role;
                 r.Reader? && (r.at.RDoneNotify? || (r.at.RMarkNotify? && !g.done))
  {
    Reachable(ss, i);
    assert LocalInv(ss[i].g, t, ss[i].threads[t]);
    if ss[i].g.h.reader.Some? {
      var r := ss[i].g.h.reader.value;
      assert LocalInv(ss[i].g, r, ss[i].threads[r]);
    }
  }

  function ThreadAt(s: State, t: Tid): Option<Thread> {
    if t < |s.threads| then Some(s.threads[t]) else None
  }

  /** How often a thread itself moves between two positions of a run. */
  function Moves(ss: seq<State>, i: nat, j: nat, t: Tid): nat
    requires i <= j < |ss|
  {
    if i == j then 0
    else Moves(ss, i, j - 1, t) + if ThreadAt(ss[j], t) == ThreadAt(ss[j - 1], t) then 0 else 1
  }

  /** The reader's notification, after the flag it announces has been stored. */
  predicate Notifies(s: State, s': State) {
    var r := s.g.h.reader;
    && r.Some? && r.value < |s.threads| && r.value < |s'.threads|
    && var th := s.threads[r.value];
       th.role.Reader? && (th.role.at.RMarkNotify? || th.role.at.RDoneNotify?) && s'.threads[r.value] != th
  }

  lemma NotifyStep(s: State, a: Action, s': State)
    requires Inv(s) && NextBy(s, a, s') && Notifies(s, s')
    ensures s'.g.asleep == {} && !s'.g.h.pending && s'.g.done == s.g.done && s'.g.terminal == s.g.terminal
  {
    hide StartStep, WriteStep, StopStep, WaitStep;
    var r := s.g.h.reader.value;
    assert LocalInv(s.g, r, s.threads[r]);
    if a.Run? && a.t != r {
      OtherThread(s, a, s', r);
    }
  }

  lemma OtherThread(s: State, a: Action, s': State, t: Tid)
    requires NextBy(s, a, s') && t < |s.threads| && (a.Run? ==> a.t != t)
    ensures ThreadAt(s', t) == ThreadAt(s, t)
  {
    hide ThreadStep;
  }

  /** Nobody puts another thread to sleep. */
  lemma AwakeStep(s: State, a: Action, s': State, t: Tid)
    requires Inv(s) && Inv(s') && NextBy(s, a, s') && t < |s.threads|
    requires t !in s.g.asleep && ThreadAt(s', t) == ThreadAt(s, t)
    ensures t !in s'.g.asleep
  {
    hide StartStep, WriteStep, StopStep, ReaderStep;
    if a.Run? {
      var th := s.threads[a.t];
      assert LocalInv(s.g, a.t, th);
      if th.op != NoCall {
        OwnOp(s.g, a.t, th, a.k, |s.threads|);
        assert LocalInv(s'.g, t, s'.threads[t]);
      } else if th.role.Reader? && !a.k.Call? {
        OwnReader(s.g, a.t, th.role.at, th.role.rc, a.k);
        assert LocalInv(s'.g, t, s'.threads[t]);
      }
    }
  }

  /** A notification reaches everyone: in every run, a thread that was asleep when
      the reader notified has been taken out of the wait set, and no step of any
      other thread puts it back before it has run. */
  lemma {:induction false} NotifyWakesAll(ss: seq<State>, i: nat, j: nat, t: Tid)
    requires Behaviour(ss) && i < j < |ss| && Notifies(ss[i], ss[i + 1]) && t in ss[i].g.asleep
    requires Moves(ss, i + 1, j, t) == 0
    ensures t < |ss[j].threads| && t !in ss[j].g.asleep && ThreadAt(ss[j], t) == ThreadAt(ss[i + 1], t)
  {
    hide Inv, NextBy, Notifies;
    Reachable(ss, j - 1);
    Reachable(ss, j);
    assert StepAt(ss, j - 1);
    var a :| NextBy(ss[j - 1], a, ss[j]);
    if j == i + 1 {
      NotifyStep(ss[i], a, ss[j]);
      SleepersExist(ss[i], t);
      ThreadsStay(ss[i], a, ss[j]);
    } else {
      NotifyWakesAll(ss, i, j - 1, t);
      ThreadsStay(ss[j - 1], a, ss[j]);
      AwakeStep(ss[j - 1], a, ss[j], t);
    }
  }

  lemma SleepersExist(s: State, t: Tid)
    requires Inv(s) && t in s.g.asleep
    ensures t < |s.threads|
  {
  }

  lemma ThreadsStay(s: State, a: Action, s': State)
    requires NextBy(s, a, s')
    ensures |s.threads| <= |s'.threads|
  {
    hide ThreadStep;
  }

  // ------------------------------------------------- terminal means to the end

  /** The waiter has not decided to give up. */
  predicate Undecided(wt: WaitPc) {
    !wt.WtCloseLock? && !wt.WtClose? && !wt.WtGrace? && !wt.WtGraceSleep? && !wt.WtGraceRelock? && !wt.WtOver?
  }

  /** The one step that gives up: past the deadline, neither flag set. */
  lemma GivesUpOnlyLate(g: Shared, t: Tid, last: bool, wt: WaitPc)
    requires WaitInv(g, t, false, last, wt) && Undecided(wt) && WaitStep(g, t, last, wt).Next?
    ensures var op := WaitStep(g, t, last, wt).op;
            (op.InWait? && !Undecided(op.wt) ==> wt.WtTimeout? && g.now >= wt.due && !g.done && !g.terminal) &&
            (!op.InWait? ==> g.done)
  {
  }

  predicate Waiting(s: State, t: Tid) {
    t < |s.threads| && s.threads[t].op.InWait?
  }

  predicate Staying(s: State, t: Tid) {
    Waiting(s, t) && s.g.terminal && Undecided(s.threads[t].op.wt)
  }

  /** In a run where the terminal flag is up while the waiter is undecided, and
      the waiter is still in its wait at every later position up to `j`, it is
      undecided there too. */
  lemma {:induction false} StaysUndecided(ss: seq<State>, i: nat, j: nat, t: Tid)
    requires Behaviour(ss) && i <= j < |ss| && Staying(ss[i], t)
    requires forall k :: i <= k <= j ==> Waiting(ss[k], t)
    ensures Staying(ss[j], t)
  {
    if i < j {
      StaysUndecided(ss, i, j - 1, t);
      UndecidedStep(ss, j - 1, t);
    }
  }

  lemma UndecidedStep(ss: seq<State>, i: nat, t: Tid)
    requires Behaviour(ss) && i + 1 < |ss| && Staying(ss[i], t)
    ensures if Waiting(ss[i + 1], t) then Staying(ss[i + 1], t) else ss[i].g.done
  {
    Reachable(ss, i);
    assert StepAt(ss, i);
    var a :| NextBy(ss[i], a, ss[i + 1]);
    var s, s' := ss[i], ss[i + 1];
    assert LocalInv(s.g, t, s.threads[t]);
    if a.Run? {
      assert LocalInv(s.g, a.t, s.threads[a.t]);
      TerminalStays(s, a.t, a.k);
      if a.t == t {
        GivesUpOnlyLate(s.g, t, s.threads[t].op.last, s.threads[t].op.wt);
      }
    }
  }

  lemma TerminalStays(s: State, t: Tid, k: Choice)
    requires Inv(s) && t < |s.threads| && s.g.terminal
    requires ThreadStep(s.g, t, s.threads[t], k, |s.threads|).Moved?
    ensures ThreadStep(s.g, t, s.threads[t], k, |s.threads|).g.terminal
  {
    var th := s.threads[t];
    assert LocalInv(s.g, t, th);
    if th.op != NoCall {
      OwnOp(s.g, t, th, k, |s.threads|);
    } else if th.role.Reader? && !k.Call? {
      OwnReader(s.g, t, th.role.at, th.role.rc, k);
    }
  }

  /** If the terminal response was recorded before the waiter decided to give
      up, the waiter returns only after `done`, that is after every callback. */
  lemma TerminalWaitsForDone(ss: seq<State>, i: nat, j: nat, t: Tid)
    requires Behaviour(ss) && i <= j && j + 1 < |ss| && Staying(ss[i], t)
    requires (forall k :: i <= k <= j ==> Waiting(ss[k], t)) && !Waiting(ss[j + 1], t)
    ensures ss[j].g.done
  {
    StaysUndecided(ss, i, j, t);
    UndecidedStep(ss, j, t);
  }

  // ------------------------------------------------------------- the deadline

  predicate Timed(wt: WaitPc) {
    wt.WtCheck? || wt.WtSleep? || wt.WtRelock? || wt.WtTimeout?
  }

  /** No wake-up, spurious or not, moves the deadline. */
  lemma DeadlineFixed(g: Shared, t: Tid, last: bool, wt: WaitPc)
    requires WaitStep(g, t, last, wt).Next?
    ensures var op := WaitStep(g, t, last, wt).op;
            && (op.InWait? && Timed(op.wt) ==>
                  if Timed(wt) then op.wt.due == wt.due else wt.WtEnter? && op.wt.due == g.now + g.stopTimeout)
            && (op.InWait? && op.wt.WtGraceSleep? ==> op.wt.due == g.now + 300)
  {
  }

  /** Own steps a waiter has left once its deadline has passed. */
  function StepsLeft(wt: WaitPc): nat {
    match wt
    case WtCheck(_) => 11
    case WtSleep(_) => 10
    case WtRelock(_) => 9
    case WtTimeout(_) => 8
    case WtCloseLock(_) => 7
    case WtClose(_) => 6
    case WtGrace(_) => 5
    case WtGraceSleep(_) => 4
    case WtGraceRelock(_) => 3
    case WtOver => 2
    case _ => 12
  }

  /** Past the deadline, with no terminal response recorded, every own step of
      the waiter brings it closer to its return, whatever woke it. */
  lemma GivesUp(g: Shared, t: Tid, last: bool, wt: WaitPc)
    requires WaitStep(g, t, last, wt).Next? && !g.terminal
    requires Timed(wt) ==> g.now >= wt.due
    requires Timed(wt) || !Undecided(wt)
    ensures var op := WaitStep(g, t, last, wt).op;
            op.InWait? ==> StepsLeft(op.wt) < StepsLeft(wt) && (Timed(op.wt) || !Undecided(op.wt))
  {
  }

  /** A waiter past its deadline, or one that has decided to give up. */
  predicate Late(s: State, t: Tid)
    requires Waiting(s, t)
  {
    var wt := s.threads[t].op.wt;
    (Timed(wt) ==> s.g.now >= wt.due) && (Timed(wt) || !Undecided(wt))
  }

  /** Only a tick moves the clock. */
  lemma TickOnly(s: State, a: Action, s': State)
    requires Inv(s) && NextBy(s, a, s')
    ensures s'.g.now == s.g.now + if a.Tick? then 1 else 0
  {
    hide StartStep, WriteStep, StopStep, WaitStep, ReaderStep;
    if a.Run? {
      var th := s.threads[a.t];
      assert LocalInv(s.g, a.t, th);
      if th.op != NoCall {
        OwnOp(s.g, a.t, th, a.k, |s.threads|);
      } else if th.role.Reader? && !a.k.Call? {
        OwnReader(s.g, a.t, th.role.at, th.role.rc, a.k);
      }
    }
  }

  lemma LateStep(s: State, a: Action, s': State, t: Tid)
    requires Inv(s) && NextBy(s, a, s') && Waiting(s, t) && Waiting(s', t) && Late(s, t) && !s.g.terminal
    ensures Late(s', t)
    ensures StepsLeft(s'.threads[t].op.wt) + (if s'.threads[t] == s.threads[t] then 0 else 1) <=
            StepsLeft(s.threads[t].op.wt)
  {
    TickOnly(s, a, s');
    if a.Run? && a.t == t {
      GivesUp(s.g, t, s.threads[t].op.last, s.threads[t].op.wt);
      DeadlineFixed(s.g, t, s.threads[t].op.last, s.threads[t].op.wt);
    }
  }

  /** In every run, under any pattern of spurious wake-ups: once a waiter is past
      its deadline and as long as no terminal response is recorded, it takes at
      most twelve more steps of its own before it returns. */
  lemma {:induction false} WaiterGivesUp(ss: seq<State>, i: nat, j: nat, t: Tid)
    requires Behaviour(ss) && i <= j < |ss|
    requires forall k :: i <= k <= j ==> Waiting(ss[k], t) && !ss[k].g.terminal
    requires Late(ss[i], t)
    ensures Late(ss[j], t)
    ensures Moves(ss, i, j, t) + StepsLeft(ss[j].threads[t].op.wt) <= StepsLeft(ss[i].threads[t].op.wt) <= 12
  {
    hide Inv, NextBy, Late;
    if i < j {
      WaiterGivesUp(ss, i, j - 1, t);
      Reachable(ss, j - 1);
      assert StepAt(ss, j - 1);
      var a :| NextBy(ss[j - 1], a, ss[j]);
      LateStep(ss[j - 1], a, ss[j], t);
    }
  }

  // ----------------------------------------------------------- the clock time

  /** Ticks between two positions at which the thread could not have moved because
      the mutex it wants is held. */
  function Blocked(ss: seq<State>, i: nat, j: nat, t: Tid): nat
    requires i <= j < |ss|
  {
    if i == j then 0
    else Blocked(ss, i, j - 1, t) + if Stuck(ss[j - 1], t) && ss[j].g.now > ss[j - 1].g.now then 1 else 0
  }

  predicate Stuck(s: State, t: Tid) {
    && t < |s.threads| && OpWants(s.threads[t].op).Some?
    && !Free(s.g, OpWants(s.threads[t].op).value)
  }

  /** Where a waiter may let time pass: asleep, until its sleep is over. */
  predicate Resting(s: State, t: Tid) {
    && Waiting(s, t)
    && match s.threads[t].op.wt
       case WtSleep(due) => s.g.now < due
       case WtGraceSleep(due) => s.g.now < due
       case _ => false
  }

  /** The latest time at which the waiter can return, unless a mutex delays it. */
  function Limit(s: State, t: Tid): nat
    requires Waiting(s, t)
  {
    LimitAt(s.g.now, s.threads[t].op.wt)
  }

  function LimitAt(now: nat, wt: WaitPc): nat {
    match wt
    case WtCheck(due) => Later(now, due) + GRACE
    case WtSleep(due) => Later(now, due) + GRACE
    case WtRelock(due) => Later(now, due) + GRACE
    case WtTimeout(due) => Later(now, due) + GRACE
    case WtGraceSleep(due) => Later(now, due)
    case WtGraceRelock(_) => now
    case WtOver => now
    case _ => now + GRACE
  }

  function Later(a: nat, b: nat): nat { if a < b then b else a }

  /** Time passes only while the waiter sleeps or is blocked on a mutex. */
  predicate Attentive(s: State, s': State, t: Tid) {
    s'.g.now > s.g.now ==> Resting(s, t) || Stuck(s, t)
  }

  predicate Decided(s: State, t: Tid)
    requires Waiting(s, t)
  {
    var wt := s.threads[t].op.wt; Timed(wt) || !Undecided(wt)
  }

  /** The waiter's own step. */
  lemma LimitOwn(g: Shared, t: Tid, last: bool, wt: WaitPc)
    requires WaitInv(g, t, false, last, wt) && !g.terminal && (Timed(wt) || !Undecided(wt))
    requires WaitStep(g, t, last, wt).Next? && WaitStep(g, t, last, wt).op.InWait?
    ensures var to := WaitStep(g, t, last, wt).op.wt;
            (Timed(to) || !Undecided(to)) && LimitAt(g.now, to) <= LimitAt(g.now, wt)
  {
    hide CloseConn;
    match wt {
      case WtCheck(due) => case WtSleep(due) => case WtRelock(due) => case WtTimeout(due) =>
      case WtCloseLock(due) => case WtClose(due) => case WtGrace(due) => case WtGraceSleep(due) =>
      case _ =>
    }
  }

  lemma LimitStep(s: State, a: Action, s': State, t: Tid)
    requires Inv(s) && NextBy(s, a, s') && Attentive(s, s', t)
    requires Waiting(s, t) && Waiting(s', t) && Decided(s, t) && !s.g.terminal
    ensures Decided(s', t)
    ensures Limit(s', t) <= Limit(s, t) + if Stuck(s, t) && s'.g.now > s.g.now then 1 else 0
  {
    hide StartStep, WriteStep, StopStep, WaitStep, ReaderStep, SharedInv, HistoryInv, Ids, WaitInv;
    hide HoldsExactly, StartInv, WriteInv, StopInv, ReaderInv;
    TickOnly(s, a, s');
    if a.Run? && a.t == t {
      var th := s.threads[t];
      WaiterInv(s, t);
      LimitOwn(s.g, t, th.op.last, th.op.wt);
    } else {
      OtherThread(s, a, s', t);
    }
  }

  lemma WaiterInv(s: State, t: Tid)
    requires Inv(s) && Waiting(s, t)
    ensures WaitInv(s.g, t, false, s.threads[t].op.last, s.threads[t].op.wt)
  {
    hide HoldsExactly, SharedInv, HistoryInv, Ids;
    assert LocalInv(s.g, t, s.threads[t]);
  }

  /** In every run, under any pattern of spurious wake-ups, in which the clock does
      not run on while the waiter could move: with no terminal response recorded
      the waiter is back by its deadline and the grace period, and the time it was
      blocked on mutexes. */
  lemma {:induction false} WaiterReturnsInTime(ss: seq<State>, i: nat, j: nat, t: Tid)
    requires Behaviour(ss) && i <= j < |ss|
    requires forall k :: i <= k <= j ==> Waiting(ss[k], t) && !ss[k].g.terminal
    requires forall k :: i <= k < j ==> Attentive(ss[k], ss[k + 1], t)
    requires Waiting(ss[i], t) && Timed(ss[i].threads[t].op.wt) && ss[i].g.now <= ss[i].threads[t].op.wt.due
    ensures ss[j].g.now <= ss[i].threads[t].op.wt.due + 300 + Blocked(ss, i, j, t)
    ensures j + 1 < |ss| && !Waiting(ss[j + 1], t) ==> ss[j + 1].g.now == ss[j].g.now
  {
    LimitKept(ss, i, j, t);
    if j + 1 < |ss| {
      Reachable(ss, j);
      assert StepAt(ss, j);
      var a :| NextBy(ss[j], a, ss[j + 1]);
      TickOnly(ss[j], a, ss[j + 1]);
    }
  }

  lemma {:induction false} LimitKept(ss: seq<State>, i: nat, j: nat, t: Tid)
    requires Behaviour(ss) && i <= j < |ss|
    requires forall k :: i <= k <= j ==> Waiting(ss[k], t) && !ss[k].g.terminal
    requires forall k :: i <= k < j ==> Attentive(ss[k], ss[k + 1], t)
    requires Decided(ss[i], t)
    ensures Decided(ss[j], t)
    ensures ss[j].g.now <= Limit(ss[j], t) <= Limit(ss[i], t) + Blocked(ss, i, j, t)
  {
    hide Inv, NextBy, Attentive, Decided, Stuck;
    if i < j {
      LimitKept(ss, i, j - 1, t);
      Reachable(ss, j - 1);
      assert StepAt(ss, j - 1);
      var a :| NextBy(ss[j - 1], a, ss[j]);
      LimitStep(ss[j - 1], a, ss[j], t);
    }
  }
}
