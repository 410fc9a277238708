/** WaitForResultWithInterval: ask for the task's status, then sleep, until the
    task is done or the deadline has passed.  What the server answers and how long
    a request and a sleep really take are functions of the round. */
module Polling {
  import opened Basics

  datatype Answer = Success | Failed | Unfinished(status: int) | Throws

  datatype Round = Round(answer: Answer, request: nat, sleep: nat)

  /** sleep_for may oversleep, never wake early. */
  ghost predicate SleepsAtLeast(rounds: nat -> Round, interval: nat) {
    forall i: nat :: rounds(i).sleep >= interval
  }

  datatype Ending = Returned | ServerError | TimedOut(status: int) | Rethrown

  /** The time at which the i-th request goes out. */
  function Clock(rounds: nat -> Round, start: int, i: nat): int {
    if i == 0 then start else Clock(rounds, start, i - 1) + rounds(i - 1).request + rounds(i - 1).sleep
  }

  function Answered(rounds: nat -> Round, start: int, i: nat): int {
    Clock(rounds, start, i) + rounds(i).request
  }

  /** How the i-th round ends the loop, if it does. */
  function EndAt(rounds: nat -> Round, start: int, deadline: int, i: nat): Option<Ending> {
    match rounds(i).answer
    case Success => Some(Returned)
    case Failed => Some(ServerError)
    case Throws => Some(Rethrown)
    case Unfinished(status) => if Answered(rounds, start, i) > deadline then Some(TimedOut(status)) else None
  }

  /** No round before the n-th ends the loop. */
  ghost predicate GoesOn(rounds: nat -> Round, start: int, deadline: int, n: nat) {
    forall i: nat :: i < n ==> EndAt(rounds, start, deadline, i) == None
  }

  /** The loop ends with the first round that ends it. */
  method WaitForResultWithInterval(rounds: nat -> Round, start: int, interval: nat, timeout: int)
    returns (end: Ending, queries: nat)
    requires interval > 0 && SleepsAtLeast(rounds, interval)
    ensures queries > 0 && EndAt(rounds, start, start + timeout, queries - 1) == Some(end)
    ensures GoesOn(rounds, start, start + timeout, queries - 1)
    ensures queries <= if timeout < 0 then 1 else timeout / interval + 2
    ensures match rounds(queries - 1).answer
            case Success => end == Returned
            case Failed => end == ServerError
            case Throws => end == Rethrown
            case Unfinished(status) => end == TimedOut(status) && Answered(rounds, start, queries - 1) > start + timeout
  {
    var now := start;
    var deadline := now + timeout;
    queries := 0;
    while true
      invariant now == Clock(rounds, start, queries)
      invariant GoesOn(rounds, start, deadline, queries)
      decreases if now <= deadline then deadline - now + 1 else 0
    {
      QueryBound(rounds, start, interval, timeout, queries);
      var round := rounds(queries);
      now := now + round.request;
      queries := queries + 1;
      match round.answer {
        case Success => return Returned, queries;
        case Failed => return ServerError, queries;
        case Throws => return Rethrown, queries;
        case Unfinished(status) =>
          if now > deadline {
            return TimedOut(status), queries;
          }
      }
      now := now + round.sleep;
    }
  }

  lemma {:induction false} ClockGrows(rounds: nat -> Round, start: int, interval: nat, i: nat)
    requires SleepsAtLeast(rounds, interval)
    ensures Clock(rounds, start, i) >= start + i * interval
  {
    if i > 0 {
      ClockGrows(rounds, start, interval, i - 1);
      assert i * interval == (i - 1) * interval + interval;
    }
  }

  lemma QuotientBound(i: nat, interval: nat, timeout: nat)
    requires interval > 0 && i * interval <= timeout
    ensures i <= timeout / interval
  {
    var q := timeout / interval;
    if i > q {
      Grows(q + 1, i, interval);
    }
  }

  lemma Grows(a: nat, b: nat, interval: nat)
    requires a <= b
    ensures a * interval <= b * interval
  {
  }

  /** Rounds that do not end the loop are few. */
  lemma QueryBound(rounds: nat -> Round, start: int, interval: nat, timeout: int, n: nat)
    requires interval > 0 && SleepsAtLeast(rounds, interval)
    requires GoesOn(rounds, start, start + timeout, n)
    ensures n <= if timeout < 0 then 0 else timeout / interval + 1
  {
    if n > 0 {
      ClockGrows(rounds, start, interval, n - 1);
      assert EndAt(rounds, start, start + timeout, n - 1) == None;
      assert (n - 1) * interval >= 0;
      QuotientBound(n - 1, interval, timeout);
    }
  }

  lemma {:induction false} ExactClock(rounds: nat -> Round, start: int, interval: nat, i: nat)
    requires forall j: nat :: rounds(j).request == 0 && rounds(j).sleep == interval
    ensures Clock(rounds, start, i) == start + i * interval
  {
    if i > 0 {
      ExactClock(rounds, start, interval, i - 1);
      assert i * interval == (i - 1) * interval + interval;
    }
  }

  /** The bound is the best there is: a server that never finishes and answers at
      once is asked exactly timeout / interval + 2 times. */
  lemma BoundReached(rounds: nat -> Round, start: int, interval: nat, timeout: nat, n: nat)
    requires interval > 0
    requires forall j: nat :: rounds(j).request == 0 && rounds(j).sleep == interval
    requires forall j: nat :: rounds(j).answer == Unfinished(0)
    ensures EndAt(rounds, start, start + timeout, n) == None <==> n <= timeout / interval
  {
    ExactClock(rounds, start, interval, n);
    var q := timeout / interval;
    assert rounds(n).answer == Unfinished(0);
    if n <= q {
      Grows(n, q, interval);
    } else {
      Grows(q + 1, n, interval);
      assert (q + 1) * interval == q * interval + interval;
    }
  }
}
