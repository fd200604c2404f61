/** The per-thread lock (services/agent/src/queue/lock.py): a key with a time to live, taken by
    whoever finds it free, refreshed every third of the TTL while held.

    Time is real. `wake` bounds how late the refresher wakes up and `call` how long a call takes, which
    takes effect on the server somewhere between its start and its reply. */
module ThreadLock {

  datatype Key = Free | Held(token: nat, until: real)

  /** Where a job stands: its body runs while `Holding`. `ok` is when its last successful call
      reached the server, `end` when its last call returned, `misses` how many refreshes have
      failed since `ok`. */
  datatype Phase = Holding(ok: real, end: real, misses: nat) | Lost | Releasing | Gone

  datatype Timing = Timing(ttl: real, wake: real, call: real)

  datatype World = World(now: real, key: Key, jobs: map<nat, Phase>)

  /** Who holds the key at `now`, if anyone: an entry past its time is gone. */
  predicate HeldBy(w: World, token: nat) {
    w.key.Held? && w.key.token == token && w.now < w.key.until
  }

  predicate IsFree(w: World) {
    w.key.Free? || w.now >= w.key.until
  }

  // ---------- The server's scripts ----------

  /** SET NX PX. */
  function TryAcquire(w: World, token: nat, ttl: real): (World, bool) {
    if IsFree(w) then (w.(key := Held(token, w.now + ttl)), true) else (w, false)
  }

  /** Compare and PEXPIRE. */
  function Refresh(w: World, token: nat, ttl: real): (World, bool) {
    if HeldBy(w, token) then (w.(key := Held(token, w.now + ttl)), true) else (w, false)
  }

  /** Compare and DEL. */
  function Release(w: World, token: nat): (World, bool) {
    if HeldBy(w, token) then (w.(key := Free), true) else (w, false)
  }

  // ---------- Runs ----------

  datatype Action =
    | Pass(until: real)
    // `acquire` reaches the server now and returns at `end`.
    | Acquire(token: nat, end: real)
    // The refresher's call reaches the server now and returns at `end`; `failed` when it raises,
    // `applied` when it had taken effect all the same.
    | Tick(token: nat, end: real, failed: bool, applied: bool)
    // The body ends, and later the release reaches the server.
    | Finish(token: nat)
    | LetGo(token: nat)
    | Crash(token: nat)

  /** When the refresher's next call must have returned at the latest. */
  function Deadline(p: Phase, t: Timing): real
    requires p.Holding?
  {
    p.end + t.ttl / 3.0 + t.wake + t.call
  }

  ghost predicate Can(w: World, a: Action, t: Timing) {
    match a
    case Pass(until) =>
      w.now <= until && forall j | j in w.jobs && w.jobs[j].Holding? :: until <= Deadline(w.jobs[j], t)
    case Acquire(token, end) => token !in w.jobs && w.now <= end <= w.now + t.call
    case Tick(token, end, failed, applied) =>
      && token in w.jobs && w.jobs[token].Holding?
      // It starts within `wake` of its time, and not before.
      && w.jobs[token].end + t.ttl / 3.0 <= w.now <= end <= Deadline(w.jobs[token], t)
      && end <= w.now + t.call
      // No two refreshes in a row fail.
      && (failed ==> w.jobs[token].misses == 0)
    case Finish(token) => token in w.jobs && (w.jobs[token].Holding? || w.jobs[token].Lost?)
    case LetGo(token) => token in w.jobs && w.jobs[token].Releasing?
    case Crash(token) => token in w.jobs
  }

  ghost function Step(w: World, a: Action, t: Timing): World
    requires Can(w, a, t)
  {
    match a
    case Pass(until) => w.(now := until)
    case Acquire(token, end) =>
      var (s, ok) := TryAcquire(w, token, t.ttl);
      if ok then s.(jobs := w.jobs[token := Holding(w.now, end, 0)]) else s
    case Tick(token, end, failed, applied) =>
      var p, (s, ok) := w.jobs[token], Refresh(w, token, t.ttl);
      if failed then (if applied then s else w).(jobs := w.jobs[token := p.(end := end, misses := p.misses + 1)])
      else s.(jobs := w.jobs[token := if ok then Holding(w.now, end, 0) else Lost])
    case Finish(token) => w.(jobs := w.jobs[token := Releasing])
    case LetGo(token) => Release(w, token).0.(jobs := w.jobs[token := Gone])
    case Crash(token) => w.(jobs := w.jobs[token := Gone])
  }

  ghost predicate Runs(w: World, acts: seq<Action>, t: Timing)
    decreases |acts|
  {
    acts == [] || (Can(w, acts[0], t) && Runs(Step(w, acts[0], t), acts[1..], t))
  }

  ghost function After(w: World, acts: seq<Action>, t: Timing): World
    requires Runs(w, acts, t)
    decreases |acts|
  {
    if acts == [] then w else After(Step(w, acts[0], t), acts[1..], t)
  }

  const START := World(0.0, Free, map[])

  // ---------- Mutual exclusion ----------

  /** The timing that two refreshes, the first of them failed, and the acquire before them can bear. */
  predicate InTime(t: Timing) {
    0.0 <= t.wake && 0.0 <= t.call && 6.0 * t.wake + 9.0 * t.call < t.ttl
  }

  ghost predicate Safe(w: World, token: nat, p: Phase, t: Timing) {
    p.Holding? ==>
      && w.key.Held? && w.key.token == token && p.ok + t.ttl <= w.key.until
      && w.now <= Deadline(p, t)
      && p.ok <= p.end
      && p.misses <= 1
      && p.end <= p.ok + t.call + (if p.misses == 1 then t.ttl / 3.0 + t.wake + t.call else 0.0)
  }

  ghost predicate Inv(w: World, t: Timing) {
    (forall j | j in w.jobs :: Safe(w, j, w.jobs[j], t)) && (forall j | j in w.jobs :: !w.jobs[j].Lost?)
  }

  lemma HolderKeepsKey(w: World, token: nat, p: Phase, t: Timing)
    requires InTime(t) && p.Holding? && Safe(w, token, p, t)
    ensures HeldBy(w, token)
  {
  }

  lemma InvStep(w: World, a: Action, t: Timing)
    requires InTime(t) && Inv(w, t) && Can(w, a, t)
    ensures Inv(Step(w, a, t), t)
  {
    var s := Step(w, a, t);
    forall j | j in w.jobs && w.jobs[j].Holding? ensures HeldBy(w, j) {
      HolderKeepsKey(w, j, w.jobs[j], t);
    }
    forall j | j in s.jobs ensures Safe(s, j, s.jobs[j], t) && !s.jobs[j].Lost? {
      if j in w.jobs { assert Safe(w, j, w.jobs[j], t); }
    }
  }

  lemma {:induction false} InvRun(w: World, acts: seq<Action>, t: Timing)
    requires InTime(t) && Inv(w, t) && Runs(w, acts, t)
    ensures Inv(After(w, acts, t), t)
    decreases |acts|
  {
    if acts != [] {
      InvStep(w, acts[0], t);
      InvRun(Step(w, acts[0], t), acts[1..], t);
    }
  }

  /** In every run within the timing promised the key never lapses while a body runs, no refresh
      finds it lost, and no two bodies run at once. */
  lemma BodiesNeverOverlap(acts: seq<Action>, t: Timing, i: nat, j: nat)
    requires InTime(t) && Runs(START, acts, t)
    requires
      var w := After(START, acts, t);
      i in w.jobs && j in w.jobs && w.jobs[i].Holding? && w.jobs[j].Holding?
    ensures i == j && HeldBy(After(START, acts, t), i)
    ensures forall k | k in After(START, acts, t).jobs :: !After(START, acts, t).jobs[k].Lost?
  {
    InvRun(START, acts, t);
    var w := After(START, acts, t);
    HolderKeepsKey(w, i, w.jobs[i], t);
    HolderKeepsKey(w, j, w.jobs[j], t);
  }

  /** Taking a key that nobody holds at that time holds it for the TTL; else nothing happens. */
  lemma FreeKeyIsTaken(w: World, token: nat, ttl: real)
    ensures
      var (s, ok) := TryAcquire(w, token, ttl);
      && (ok <==> w.key.Free? || w.key.until <= w.now)
      && s == (if ok then w.(key := Held(token, w.now + ttl)) else w)
  {
  }

  /** Its holder prolongs it by a refresh and frees it by a release. */
  lemma HolderDecides(w: World, token: nat, ttl: real)
    requires w.key.Held? && w.key.token == token && w.now < w.key.until
    ensures Refresh(w, token, ttl) == (w.(key := Held(token, w.now + ttl)), true)
    ensures Release(w, token) == (w.(key := Free), true)
  {
  }

  /** Refresh and release with a token that does not hold the key change nothing. */
  lemma StrangersChangeNothing(w: World, token: nat, ttl: real)
    requires w.key.Free? || w.key.token != token || w.key.until <= w.now
    ensures Refresh(w, token, ttl) == (w, false) && Release(w, token) == (w, false)
  {
  }

  lemma RunFirst(w: World, a: Action, rest: seq<Action>, t: Timing)
    requires Can(w, a, t) && Runs(Step(w, a, t), rest, t)
    ensures Runs(w, [a] + rest, t) && After(w, [a] + rest, t) == After(Step(w, a, t), rest, t)
  {
    assert ([a] + rest)[1..] == rest;
  }

  /** One late acquire and one late refresh let the key lapse when the TTL is as short as that. */
  lemma OneRoundLapses(t: Timing) returns (acts: seq<Action>)
    requires 0.0 < t.ttl <= t.ttl / 3.0 + t.wake + 2.0 * t.call && 0.0 <= t.call
    ensures Runs(START, acts, t) && BothHold(After(START, acts, t))
  {
    var a := Step(START, Acquire(1, t.call), t);
    var b := Step(a, Pass(t.ttl), t);
    RunFirst(b, Acquire(2, t.ttl), [], t);
    acts := [Acquire(2, t.ttl)] + [];
    RunFirst(a, Pass(t.ttl), acts, t);
    acts := [Pass(t.ttl)] + acts;
    RunFirst(START, Acquire(1, t.call), acts, t);
    acts := [Acquire(1, t.call)] + acts;
  }

  /** Else one late acquire, one failed refresh and one late refresh do. */
  lemma TwoRoundsLapse(t: Timing) returns (acts: seq<Action>)
    requires 0.0 <= t.wake && 0.0 <= t.call
    requires t.ttl / 3.0 + t.wake + 2.0 * t.call < t.ttl <= 6.0 * t.wake + 9.0 * t.call
    ensures Runs(START, acts, t) && BothHold(After(START, acts, t))
  {
    var missed := t.ttl / 3.0 + t.wake + 2.0 * t.call;
    var a := Step(START, Acquire(1, t.call), t);
    var b := Step(a, Pass(missed), t);
    var c := Step(b, Tick(1, missed, true, false), t);
    var e := Step(c, Pass(t.ttl), t);
    RunFirst(e, Acquire(2, t.ttl), [], t);
    acts := [Acquire(2, t.ttl)] + [];
    RunFirst(c, Pass(t.ttl), acts, t);
    acts := [Pass(t.ttl)] + acts;
    RunFirst(b, Tick(1, missed, true, false), acts, t);
    acts := [Tick(1, missed, true, false)] + acts;
    RunFirst(a, Pass(missed), acts, t);
    acts := [Pass(missed)] + acts;
    RunFirst(START, Acquire(1, t.call), acts, t);
    acts := [Acquire(1, t.call)] + acts;
  }

  ghost predicate BothHold(w: World) {
    1 in w.jobs && 2 in w.jobs && w.jobs[1].Holding? && w.jobs[2].Holding?
  }

  /** With any later timing the key can lapse under a body, and two bodies run. */
  lemma LaterTimingOverlaps(t: Timing) returns (acts: seq<Action>)
    requires 0.0 <= t.wake && 0.0 <= t.call && 0.0 < t.ttl <= 6.0 * t.wake + 9.0 * t.call
    ensures Runs(START, acts, t) && BothHold(After(START, acts, t))
  {
    if t.ttl <= t.ttl / 3.0 + t.wake + 2.0 * t.call {
      acts := OneRoundLapses(t);
    } else {
      acts := TwoRoundsLapse(t);
    }
  }

  /** Two bodies can run at once. */
  ghost predicate Overlaps(acts: seq<Action>, t: Timing) {
    && Runs(START, acts, t)
    && var w := After(START, acts, t);
       exists i, j :: i in w.jobs && j in w.jobs && i != j && w.jobs[i].Holding? && w.jobs[j].Holding?
  }

  /** The lock excludes exactly when six wake-up delays and nine calls fit into the TTL. */
  lemma ExcludesExactly(t: Timing)
    requires 0.0 < t.ttl && 0.0 <= t.wake && 0.0 <= t.call
    ensures (forall acts :: !Overlaps(acts, t)) <==> 6.0 * t.wake + 9.0 * t.call < t.ttl
  {
    if 6.0 * t.wake + 9.0 * t.call < t.ttl {
      forall acts | Runs(START, acts, t) ensures !Overlaps(acts, t) {
        var w := After(START, acts, t);
        forall i, j | i in w.jobs && j in w.jobs && w.jobs[i].Holding? && w.jobs[j].Holding? ensures i == j {
          BodiesNeverOverlap(acts, t, i, j);
        }
      }
    } else {
      var acts := LaterTimingOverlaps(t);
      assert Overlaps(acts, t);
    }
  }

  /** Delays and calls that each stay below a ninth of the TTL are not enough. */
  lemma EachBelowANinthIsNotEnough(ttl: real) returns (t: Timing, acts: seq<Action>)
    requires 0.0 < ttl
    ensures t.ttl == ttl && 9.0 * t.wake < ttl && 9.0 * t.call < ttl && Overlaps(acts, t)
  {
    t := Timing(ttl, ttl / 10.0, ttl / 10.0);
    acts := LaterTimingOverlaps(t);
  }
}
