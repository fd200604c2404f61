/** Waiting for the per-thread lock: `acquire` of services/agent/src/queue/lock.py, in milliseconds. */
module LockWait {

  const FIRST_POLL: real := 50.0
  const MAX_POLL: real := 1000.0

  function Min(x: real, y: real): real {
    if x < y then x else y
  }

  /** The sleep after the n-th try. */
  function PollAfter(n: nat): (p: real)
    ensures FIRST_POLL <= p <= MAX_POLL
  {
    if n == 0 then FIRST_POLL else Min(PollAfter(n - 1) * 2.0, MAX_POLL)
  }

  /** The sleeps double from 50 ms up to a second. */
  lemma SleepsDouble(n: nat)
    ensures PollAfter(0) == 50.0 && PollAfter(1) == 100.0 && PollAfter(2) == 200.0
    ensures PollAfter(3) == 400.0 && PollAfter(4) == 800.0
    ensures n >= 5 ==> PollAfter(n) == 1000.0
  {
    assert PollAfter(2) == 200.0;
    assert PollAfter(4) == 800.0;
    if n > 5 { SleepsDouble(n - 1); }
  }

  /** When the reply to the n-th try is there: each try follows a sleep of no more than what is left,
      which may overrun. */
  function Replied(wait: real, call: nat -> real, late: nat -> real, n: nat): real {
    if n == 0 then call(0)
    else
      var last := Replied(wait, call, late, n - 1);
      last + Min(PollAfter(n - 1), wait - last) + late(n - 1) + call(n)
  }

  /** The first `n` tries all found the key taken, each before the wait was over. */
  ghost predicate KeptWaiting(wait: real, taken: nat -> bool, call: nat -> real, late: nat -> real, n: nat) {
    forall k: nat | k < n :: taken(k) && Replied(wait, call, late, k) < wait
  }

  /** Every reply but the first comes a poll later than the one before it, or once the wait is over,
      and is late by no more than its own sleep and call. */
  lemma {:induction false} RepliesAreSpaced(wait: real, taken: nat -> bool, call: nat -> real, late: nat -> real,
                                            n: nat)
    requires forall k :: call(k) >= 0.0 && late(k) >= 0.0
    requires KeptWaiting(wait, taken, call, late, n)
    ensures Replied(wait, call, late, n) >= Min(wait, FIRST_POLL * (n as real))
    ensures n >= 1 ==> Replied(wait, call, late, n) <= wait + late(n - 1) + call(n)
    ensures n >= 2 ==> FIRST_POLL * ((n - 1) as real) < wait
    ensures n < MostTries(wait)
  {
    if n > 0 { RepliesAreSpaced(wait, taken, call, late, n - 1); }
  }

  lemma OneMoreTaken(wait: real, taken: nat -> bool, call: nat -> real, late: nat -> real, n: nat)
    requires KeptWaiting(wait, taken, call, late, n) && taken(n) && Replied(wait, call, late, n) < wait
    ensures KeptWaiting(wait, taken, call, late, n + 1)
  {
  }

  lemma NextReply(wait: real, call: nat -> real, late: nat -> real, n: nat, last: real)
    requires last == Replied(wait, call, late, n)
    ensures PollAfter(n + 1) == Min(PollAfter(n) * 2.0, MAX_POLL)
    ensures Replied(wait, call, late, n + 1) == last + Min(PollAfter(n), wait - last) + late(n) + call(n + 1)
  {
  }

  /** Before the n-th try, `elapsed` since the start and with `poll` to sleep after it. */
  ghost predicate Trying(wait: real, taken: nat -> bool, call: nat -> real, late: nat -> real, n: nat,
                         elapsed: real, poll: real) {
    && KeptWaiting(wait, taken, call, late, n)
    && elapsed + call(n) == Replied(wait, call, late, n) && poll == PollAfter(n)
  }

  lemma TriesAgain(wait: real, taken: nat -> bool, call: nat -> real, late: nat -> real, n: nat,
                   elapsed: real, poll: real)
    requires Trying(wait, taken, call, late, n, elapsed, poll) && taken(n) && elapsed + call(n) < wait
    ensures
      var last := elapsed + call(n);
      Trying(wait, taken, call, late, n + 1, last + Min(poll, wait - last) + late(n), Min(poll * 2.0, MAX_POLL))
  {
    OneMoreTaken(wait, taken, call, late, n);
    NextReply(wait, call, late, n, elapsed + call(n));
  }

  function MostTries(wait: real): nat {
    if wait <= 0.0 then 2 else (wait / FIRST_POLL).Floor + 3
  }

  /** `acquire`: `taken(n)` is whether the n-th try finds the key taken, `call(n)` how long it takes
      and `late(n)` by how much the sleep after it overruns, in milliseconds. It gives up only at a
      reply after the full wait, overruns it by no more than its last call and sleep, and always ends. */
  method AcquireWithin(wait: real, taken: nat -> bool, call: nat -> real, late: nat -> real)
    returns (ok: bool, tries: nat, elapsed: real)
    requires forall n :: call(n) >= 0.0 && late(n) >= 0.0
    ensures tries > 0 && elapsed == Replied(wait, call, late, tries - 1)
    ensures ok == !taken(tries - 1) && (!ok ==> elapsed >= wait)
    ensures KeptWaiting(wait, taken, call, late, tries - 1)
    ensures tries >= 2 ==> elapsed <= wait + late(tries - 2) + call(tries - 1)
    ensures tries >= 3 ==> FIRST_POLL * ((tries - 2) as real) < wait
  {
    elapsed, tries, ok := 0.0, 0, false;
    var poll := FIRST_POLL;
    while true
      invariant Trying(wait, taken, call, late, tries, elapsed, poll)
      decreases MostTries(wait) - tries
    {
      RepliesAreSpaced(wait, taken, call, late, tries);
      ghost var before := elapsed;
      elapsed := elapsed + call(tries);
      tries := tries + 1;
      if !taken(tries - 1) {
        return true, tries, elapsed;
      }
      var left := wait - elapsed;
      if left <= 0.0 {
        return false, tries, elapsed;
      }
      TriesAgain(wait, taken, call, late, tries - 1, before, poll);
      elapsed := elapsed + Min(poll, left) + late(tries - 1);
      poll := Min(poll * 2.0, MAX_POLL);
    }
  }
}
