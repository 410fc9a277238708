/** ScopedSigpipeSuppressor: around each TLS call SIGPIPE is blocked, and on the way
    out a SIGPIPE the call raised is swallowed. */
module Sigpipe {

  /** The calling thread's signal state. */
  class Thread {
    var blocked: bool     // SIGPIPE is in the signal mask
    var pending: bool     // raised while blocked
    var killed: bool      // delivered: by default that ends the host process

    constructor (blocked: bool, pending: bool)
      ensures this.blocked == blocked && this.pending == pending && !killed
    {
      this.blocked, this.pending, this.killed := blocked, pending, false;
    }

    /** The kernel raises SIGPIPE on a write to a dead peer. */
    method Raise()
      modifies this
      ensures blocked == old(blocked)
      ensures if old(blocked) then pending && killed == old(killed) else killed && pending == old(pending)
    {
      if blocked {
        pending := true;
      } else {
        killed := true;
      }
    }

    /** pthread_sigmask: a pending signal is delivered once it is unblocked. */
    method SetMask(block: bool)
      modifies this
      ensures blocked == block
      ensures pending == (old(pending) && block) && killed == (old(killed) || (old(pending) && !block))
    {
      blocked := block;
      if !block && pending {
        pending, killed := false, true;
      }
    }
  }

  class Suppressor {
    const thread: Thread
    const wasPending: bool
    const oldMask: bool

    constructor (t: Thread)
      modifies t
      ensures thread == t && wasPending == old(t.pending) && oldMask == old(t.blocked)
      ensures t.blocked && t.pending == old(t.pending) && t.killed == old(t.killed)
    {
      thread, wasPending, oldMask := t, t.pending, t.blocked;
      new;
      t.SetMask(true);
    }

    /** The destructor. */
    method Leave()
      requires thread.blocked
      modifies thread
      ensures thread.blocked == oldMask
      ensures wasPending && oldMask ==> thread.pending == old(thread.pending) && thread.killed == old(thread.killed)
      ensures !wasPending ==> !thread.pending && thread.killed == old(thread.killed)
    {
      if !wasPending && thread.pending {
        thread.pending := false;  // sigtimedwait
      }
      thread.SetMask(oldMask);
    }
  }

  /** What happens inside a scope: writes, some to a dead peer, and nested scopes. */
  datatype Code = Write(dead: bool) | Scope(body: seq<Code>)

  /** However scopes nest and whatever the calls inside do, a scope leaves the mask
      and the pending signals as it found them and the host alive.  (A signal that
      is pending is blocked: otherwise it would have been delivered already.) */
  method RunScope(t: Thread, body: seq<Code>)
    requires t.pending ==> t.blocked
    modifies t
    ensures t.blocked == old(t.blocked) && t.pending == old(t.pending) && t.killed == old(t.killed)
    decreases body, 1
  {
    var scope := new Suppressor(t);
    RunBody(t, body);
    scope.Leave();
  }

  method RunBody(t: Thread, body: seq<Code>)
    requires t.blocked
    modifies t
    ensures t.blocked && (old(t.pending) ==> t.pending) && t.killed == old(t.killed)
    decreases body, 0
  {
    for i := 0 to |body|
      invariant t.blocked && (old(t.pending) ==> t.pending) && t.killed == old(t.killed)
    {
      match body[i] {
        case Write(dead) =>
          if dead {
            t.Raise();
          }
        case Scope(inner) =>
          RunScope(t, inner);
      }
    }
  }
}
