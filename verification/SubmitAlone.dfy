/** Runs of services/api/src/queue/submit.py put together, and the run of a request nobody
    interferes with. */
module SubmitAlone {
  import opened Submission
  import opened SubmissionSafety

  lemma {:induction false} RunsJoin(w: World, x: seq<Action>, y: seq<Action>)
    requires Runs(w, x) && Runs(After(w, x), y)
    ensures Runs(w, x + y) && After(w, x + y) == After(After(w, x), y)
    decreases |x|
  {
    if x == [] {
      assert x + y == y;
    } else {
      assert (x + y)[1..] == x[1..] + y;
      RunsJoin(Step(w, x[0]), x[1..], y);
    }
  }

  lemma OneStep(w: World, acts: seq<Action>, a: Action)
    requires Runs(w, acts) && Can(After(w, acts), a)
    ensures Runs(w, acts + [a]) && After(w, acts + [a]) == Step(After(w, acts), a)
  {
    assert [a][1..] == [];
    assert Runs(After(w, acts), [a]);
    RunsJoin(w, acts, [a]);
  }

  /** Nothing failed, expired or was given up. */
  ghost predicate Smooth(acts: seq<Action>) {
    forall a | a in acts :: a.Arrive? || a.Call? || a.Delivered? || a.Start? || a.Win?
  }

  /** The actions after the first `n` are those of one request, from its arrival on. */
  ghost predicate Alone(acts: seq<Action>, n: nat, id: nat, key: nat) {
    forall k | n <= k < |acts| :: (acts[k].Arrive? && acts[k].id == id && acts[k].key == key) || acts[k] == Call(id)
  }

  ghost predicate Fresh(w: World, id: nat, key: nat, thread: nat, job: nat) {
    Can(w, Arrive(id, key, thread, job)) && Free(w, key)
  }

  /** No record stands under the key, or the job it names has failed or is gone. */
  ghost predicate Free(w: World, key: nat) {
    key in w.records && w.records[key] in w.status ==> w.status[w.records[key]].Failed?
  }

  ghost function With(v: World, id: nat, c: Client, pc: Pc): World {
    v.(clients := v.clients[id := c.(pc := pc)])
  }

  ghost function Current(v: World, key: nat, thread: nat): Watched {
    Watched(Version(v.recordVersion, key), Version(v.threadVersion, thread))
  }

  /** Whether the job the thread's pointer names is queued or running. */
  ghost predicate PointerLive(w: World, thread: nat) {
    && thread in w.threadJobs && w.threadJobs[thread] in w.status
    && (w.status[w.threadJobs[thread]].Queued? || w.status[w.threadJobs[thread]].Running?)
  }

  lemma Twice<V>(m: map<nat, V>, id: nat, x: V, y: V)
    ensures m[id := x][id := y] == m[id := y]
  {
  }

  /** The record is read and, if there is one, the status of its job: nothing to attach to. */
  lemma AloneReads(v: World, id: nat, c: Client, pc: Pc, status: Pc, next: Pc)
    requires Free(v, c.key)
    requires
      || (pc == Look && next == Watch && (c.key in v.records ==> status == LookStatus(v.records[c.key])))
      || (pc.Get? && next == GetPrevious(pc.w) && (c.key in v.records ==> status == GetStatus(pc.w, v.records[c.key])))
    ensures
      if c.key in v.records then
        && Called(With(v, id, c, pc), id) == With(v, id, c, status)
        && Called(With(v, id, c, status), id) == With(v, id, c, next)
      else Called(With(v, id, c, pc), id) == With(v, id, c, next)
  {
    Twice(v.clients, id, c.(pc := pc), c.(pc := status));
    Twice(v.clients, id, c.(pc := status), c.(pc := next));
    Twice(v.clients, id, c.(pc := pc), c.(pc := next));
  }

  lemma AloneWatches(v: World, id: nat, c: Client)
    ensures Called(With(v, id, c, Watch), id) == With(v, id, c, Get(Current(v, c.key, c.thread)))
  {
    Twice(v.clients, id, c.(pc := Watch), c.(pc := Get(Current(v, c.key, c.thread))));
  }

  lemma AloneReadsPointer(v: World, id: nat, c: Client, seen: Watched)
    ensures
      var before := With(v, id, c, GetPrevious(seen));
      if c.thread in v.threadJobs then
        && var status := With(v, id, c, GetPreviousStatus(seen, v.threadJobs[c.thread]));
        && Called(before, id) == status
        && Called(status, id) == With(v, id, c, Exec(seen, PointerLive(v, c.thread)))
      else Called(before, id) == With(v, id, c, Exec(seen, false))
  {
    if c.thread in v.threadJobs {
      var status := GetPreviousStatus(seen, v.threadJobs[c.thread]);
      Twice(v.clients, id, c.(pc := GetPrevious(seen)), c.(pc := status));
      Twice(v.clients, id, c.(pc := status), c.(pc := Exec(seen, PointerLive(v, c.thread))));
    } else {
      Twice(v.clients, id, c.(pc := GetPrevious(seen)), c.(pc := Exec(seen, false)));
    }
  }

  lemma CallNext(w: World, acts: seq<Action>, id: nat, s: World)
    requires Runs(w, acts) && Can(After(w, acts), Call(id)) && Called(After(w, acts), id) == s
    ensures Runs(w, acts + [Call(id)]) && After(w, acts + [Call(id)]) == s
  {
    OneStep(w, acts, Call(id));
  }

  lemma FirstReads(w: World, acts: seq<Action>, id: nat, key: nat, thread: nat, job: nat) returns (more: seq<Action>)
    requires Runs(w, acts) && Fresh(After(w, acts), id, key, thread, job)
    ensures Runs(w, more) && acts <= more && Alone(more, |acts|, id, key)
    ensures
      var v := After(w, acts);
      After(w, more) == With(v, id, Client(key, thread, job, Look), GetPrevious(Current(v, key, thread)))
  {
    var v, c := After(w, acts), Client(key, thread, job, Look);
    var seen := Current(v, key, thread);
    OneStep(w, acts, Arrive(id, key, thread, job));
    more := acts + [Arrive(id, key, thread, job)];
    more := ReadsRecord(w, acts, more, v, id, c, Look, Watch);
    AloneWatches(v, id, c);
    CallNext(w, more, id, With(v, id, c, Get(seen)));
    more := more + [Call(id)];
    more := ReadsRecord(w, acts, more, v, id, c, Get(seen), GetPrevious(seen));
  }

  lemma ReadsRecord(w: World, acts: seq<Action>, sofar: seq<Action>, v: World, id: nat, c: Client, pc: Pc, next: Pc)
    returns (more: seq<Action>)
    requires Runs(w, sofar) && After(w, sofar) == With(v, id, c, pc) && acts <= sofar && Alone(sofar, |acts|, id, c.key)
    requires Free(v, c.key) && ((pc == Look && next == Watch) || (pc.Get? && next == GetPrevious(pc.w)))
    ensures Runs(w, more) && After(w, more) == With(v, id, c, next) && acts <= more && Alone(more, |acts|, id, c.key)
  {
    more := sofar;
    if c.key in v.records {
      var found := v.records[c.key];
      var status := if pc == Look then LookStatus(found) else GetStatus(pc.w, found);
      AloneReads(v, id, c, pc, status, next);
      CallNext(w, more, id, With(v, id, c, status));
      more := more + [Call(id)];
    } else {
      AloneReads(v, id, c, pc, Watch, next);
    }
    CallNext(w, more, id, With(v, id, c, next));
    more := more + [Call(id)];
  }

  /** A request alone, up to its transaction: it will say it waits exactly when the pointed job lives. */
  lemma ReadAlone(w: World, acts: seq<Action>, id: nat, key: nat, thread: nat, job: nat) returns (more: seq<Action>)
    requires Runs(w, acts) && Fresh(After(w, acts), id, key, thread, job)
    ensures Runs(w, more) && acts <= more && Alone(more, |acts|, id, key)
    ensures
      var v := After(w, acts);
      After(w, more) ==
        With(v, id, Client(key, thread, job, Look), Exec(Current(v, key, thread), PointerLive(v, thread)))
  {
    var v, c := After(w, acts), Client(key, thread, job, Look);
    var seen := Current(v, key, thread);
    more := FirstReads(w, acts, id, key, thread, job);
    AloneReadsPointer(v, id, c, seen);
    if thread in v.threadJobs {
      CallNext(w, more, id, With(v, id, c, GetPreviousStatus(seen, v.threadJobs[thread])));
      more := more + [Call(id)];
    }
    CallNext(w, more, id, With(v, id, c, Exec(seen, PointerLive(v, thread))));
    more := more + [Call(id)];
  }

  ghost function QueuedAlone(v: World, id: nat, key: nat, thread: nat, job: nat): World {
    var c := Client(key, thread, job, Waiting(job));
    Committed(v, c).(clients := Vacate(v.clients, key)[id := c])
  }

  lemma AloneCommits(v: World, id: nat, c: Client, behind: bool)
    ensures
      Called(With(v, id, c, Exec(Current(v, c.key, c.thread), behind)), id)
      == QueuedAlone(v, id, c.key, c.thread, c.job)
  {
    var s := Called(With(v, id, c, Exec(Current(v, c.key, c.thread), behind)), id);
    assert s.clients == Vacate(v.clients, c.key)[id := c.(pc := Waiting(c.job))];
  }

  /** A request nobody interferes with is queued, if no record stands under its key or the recorded job
      has failed or is gone. */
  lemma QueueAlone(w: World, acts: seq<Action>, id: nat, key: nat, thread: nat, job: nat) returns (more: seq<Action>)
    requires Runs(w, acts) && Fresh(After(w, acts), id, key, thread, job)
    ensures Runs(w, more) && acts <= more && Alone(more, |acts|, id, key)
    ensures After(w, more) == QueuedAlone(After(w, acts), id, key, thread, job)
  {
    var v, c := After(w, acts), Client(key, thread, job, Look);
    more := ReadAlone(w, acts, id, key, thread, job);
    AloneCommits(v, id, c, PointerLive(v, thread));
    CallNext(w, more, id, QueuedAlone(v, id, key, thread, job));
    more := more + [Call(id)];
  }

  lemma SmoothAlone(acts: seq<Action>, more: seq<Action>, id: nat, key: nat)
    requires Smooth(acts) && acts <= more && Alone(more, |acts|, id, key)
    ensures Smooth(more)
  {
    forall a | a in more ensures a.Arrive? || a.Call? || a.Delivered? || a.Start? || a.Win? {
      var k :| 0 <= k < |more| && more[k] == a;
      if k < |acts| { assert acts[k] in acts; }
    }
  }

  // ---------- Ids nobody has used ----------

  lemma Beyond(s: set<nat>) returns (n: nat)
    ensures forall x | x in s :: x < n
    decreases |s|
  {
    if s == {} {
      n := 0;
    } else {
      var x :| x in s;
      var m := Beyond(s - {x});
      n := if x < m then m else x + 1;
      assert forall y | y in s :: y == x || y in s - {x};
    }
  }

  /** There is always another request to come. */
  lemma SomeoneFresh(w: World, key: nat, thread: nat) returns (id: nat, job: nat)
    requires key !in w.records
    ensures Fresh(w, id, key, thread, job)
  {
    id := Beyond(w.clients.Keys);
    var used := w.status.Keys + (set c | c in w.clients :: w.clients[c].job)
      + (set i | 0 <= i < |w.queued| :: w.queued[i].job);
    job := Beyond(used);
    assert forall c | c in w.clients :: w.clients[c].job in used;
    assert forall i | 0 <= i < |w.queued| :: w.queued[i].job in used;
  }
}
