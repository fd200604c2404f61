/** What submitting once keeps, over every interleaving of clients, worker steps and expiries. */
module SubmissionSafety {
  import opened Submission

  ghost predicate WasQueued(queued: seq<Entry>, job: nat) {
    exists i :: 0 <= i < |queued| && queued[i].job == job
  }

  /** Nothing under the job's key may be queued again before this holds: the job failed, expired or
      was released for itself. */
  ghost predicate Settled(w: World, job: nat) {
    job !in w.status || w.status[job].Failed? || job in w.released
  }

  ghost predicate RecordIs(w: World, key: nat, job: nat) {
    key in w.records && w.records[key] == job
  }

  // ---------- What one world keeps of an earlier one ----------

  ghost predicate Later(w: World, s: World) {
    && w.queued <= s.queued
    && (forall j | WasQueued(w.queued, j) && Dead(w, j) :: Dead(s, j))
    && (forall j | WasQueued(w.queued, j) && !Live(w, j) :: !Live(s, j))
    && (forall k :: Version(w.recordVersion, k) <= Version(s.recordVersion, k))
    && (forall k :: Version(w.threadVersion, k) <= Version(s.threadVersion, k))
    && (forall k | Version(w.recordVersion, k) == Version(s.recordVersion, k) && k in s.records ::
          k in w.records && w.records[k] == s.records[k])
    && (forall k | Version(w.threadVersion, k) == Version(s.threadVersion, k) && k in s.threadJobs ::
          k in w.threadJobs && w.threadJobs[k] == s.threadJobs[k])
  }

  ghost predicate Seen(w: World, c: Client, seen: Watched) {
    seen.record <= Version(w.recordVersion, c.key) && seen.thread <= Version(w.threadVersion, c.thread)
  }

  /** If the record is still the one watched, nothing under it stands in the way. */
  ghost predicate RecordFree(w: World, c: Client, seen: Watched) {
    Seen(w, c, seen) &&
    (Version(w.recordVersion, c.key) == seen.record && c.key in w.records ==> Dead(w, w.records[c.key]))
  }

  /** The one job that `submit_once` looks at on a thread, the last its pointer named, is not live. */
  ghost predicate PointerIdle(w: World, thread: nat) {
    thread in w.threadJobs && w.threadJobs[thread] in w.status ==>
      !w.status[w.threadJobs[thread]].Queued? && !w.status[w.threadJobs[thread]].Running?
  }

  /** What a client's local variables say about the world. */
  ghost predicate ClientOk(w: World, c: Client) {
    match c.pc
    case LookStatus(found) => WasQueued(w.queued, found)
    case Get(seen) => Seen(w, c, seen)
    case GetStatus(seen, found) =>
      && WasQueued(w.queued, found) && Seen(w, c, seen)
      && (Version(w.recordVersion, c.key) == seen.record && c.key in w.records ==> w.records[c.key] == found)
    case GetPrevious(seen) => RecordFree(w, c, seen)
    case GetPreviousStatus(seen, previous) =>
      && RecordFree(w, c, seen)
      && (Version(w.threadVersion, c.thread) == seen.thread && c.thread in w.threadJobs ==>
          w.threadJobs[c.thread] == previous)
    case Exec(seen, behind) =>
      && RecordFree(w, c, seen)
      && (Version(w.threadVersion, c.thread) == seen.thread && !behind ==> PointerIdle(w, c.thread))
    case Waiting(queued) => WasQueued(w.queued, queued)
    case ReleaseGet(job) => WasQueued(w.queued, job)
    case ReleaseDelete(job, vacated) => WasQueued(w.queued, job) && (vacated <==> !RecordIs(w, c.key, job))
    case _ => true
  }

  ghost predicate Submitting(pc: Pc) {
    pc.Look? || pc.LookStatus? || pc.Watch? || pc.Get?
    || pc.GetStatus? || pc.GetPrevious? || pc.GetPreviousStatus? || pc.Exec?
  }

  /** No later job was queued under the same key. */
  ghost predicate Newest(queued: seq<Entry>, i: nat)
    requires i < |queued|
  {
    forall j | i < j < |queued| :: queued[j].key != queued[i].key
  }

  ghost predicate KeyOk(w: World, i: nat)
    requires i < |w.queued|
  {
    var key, job := w.queued[i].key, w.queued[i].job;
    && (RecordIs(w, key, job) ==> Newest(w.queued, i))
    && (RecordIs(w, key, job) || Settled(w, job) || job in w.stray)
  }

  ghost predicate LastOn(queued: seq<Entry>, thread: nat, i: nat)
    requires i < |queued|
  {
    queued[i].thread == thread && forall j | i < j < |queued| :: queued[j].thread != thread
  }

  /** No later job was queued on the thread. */
  ghost predicate LastJob(queued: seq<Entry>, thread: nat, job: nat) {
    exists i :: 0 <= i < |queued| && LastOn(queued, thread, i) && queued[i].job == job
  }

  ghost predicate ClientsOk(w: World) {
    && (forall x, y | x in w.clients && y in w.clients && w.clients[x].job == w.clients[y].job :: x == y)
    && (forall x | x in w.clients :: ClientOk(w, w.clients[x]))
    && (forall x | x in w.clients && Submitting(w.clients[x].pc) :: !WasQueued(w.queued, w.clients[x].job))
  }

  ghost predicate StoreOk(w: World) {
    && (forall j | j in w.status :: WasQueued(w.queued, j))
    && (forall k | k in w.records :: WasQueued(w.queued, w.records[k]))
    && (forall k | k in w.threadJobs :: LastJob(w.queued, k, w.threadJobs[k]))
    && (forall i, j | 0 <= i < j < |w.queued| :: w.queued[i].job != w.queued[j].job)
    && (forall i | 0 <= i < |w.queued| :: KeyOk(w, i))
  }

  ghost predicate Inv(w: World) {
    ClientsOk(w) && StoreOk(w)
  }

  lemma StaysQueued(q: seq<Entry>, more: seq<Entry>, job: nat)
    requires q <= more && WasQueued(q, job)
    ensures WasQueued(more, job)
  {
    var i :| 0 <= i < |q| && q[i].job == job;
    assert more[i] == q[i];
  }

  /** A client not releasing keeps its knowledge as the world moves on. */
  lemma ClientKeeps(w: World, s: World, c: Client)
    requires ClientOk(w, c) && Later(w, s) && !c.pc.ReleaseDelete?
    requires forall k | k in w.records :: WasQueued(w.queued, w.records[k])
    requires forall k | k in w.threadJobs :: WasQueued(w.queued, w.threadJobs[k])
    ensures ClientOk(s, c)
  {
    match c.pc {
      case LookStatus(found) => StaysQueued(w.queued, s.queued, found);
      case GetStatus(_, found) => StaysQueued(w.queued, s.queued, found);
      case Waiting(queued) => StaysQueued(w.queued, s.queued, queued);
      case ReleaseGet(job) => StaysQueued(w.queued, s.queued, job);
      case _ =>
    }
  }

  // ---------- Every step keeps it ----------

  lemma GoStore(w: World, id: nat, pc: Pc)
    requires StoreOk(w) && id in w.clients
    ensures StoreOk(Go(w, id, pc))
  {
    var s := Go(w, id, pc);
    forall i | 0 <= i < |s.queued| ensures KeyOk(s, i) {
      assert KeyOk(w, i);
    }
  }

  lemma InvGo(w: World, id: nat, pc: Pc)
    requires Inv(w) && id in w.clients && ClientOk(w, w.clients[id].(pc := pc))
    requires Submitting(pc) ==> Submitting(w.clients[id].pc)
    ensures Inv(Go(w, id, pc))
  {
    var s := Go(w, id, pc);
    GoStore(w, id, pc);
    forall x | x in s.clients ensures ClientOk(s, s.clients[x]) {
      assert ClientOk(w, s.clients[x]);
    }
  }

  lemma InvStatus(w: World, s: World)
    requires Inv(w) && Later(w, s)
    requires s == w.(status := s.status, won := s.won, threadJobs := s.threadJobs, threadVersion := s.threadVersion)
    requires forall j | j in s.status :: j in w.status
    requires forall k | k in s.threadJobs :: k in w.threadJobs && s.threadJobs[k] == w.threadJobs[k]
    ensures Inv(s)
  {
    forall x | x in s.clients ensures ClientOk(s, s.clients[x]) {
      if !s.clients[x].pc.ReleaseDelete? { ClientKeeps(w, s, s.clients[x]); }
    }
    forall i | 0 <= i < |s.queued| ensures KeyOk(s, i) {
      assert KeyOk(w, i) && WasQueued(w.queued, w.queued[i].job);
    }
  }

  lemma InvRemoved(w: World, key: nat, noticed: bool, s: World)
    requires Inv(w) && key in w.records
    requires s == Removed(w, key, noticed).(released := s.released, stray := s.stray)
    requires w.released <= s.released && w.stray <= s.stray
    requires w.records[key] in s.released || w.records[key] in s.stray
    ensures Inv(s)
  {
    RemovedIsLater(w, key, noticed, s);
    RemovedStore(w, key, s);
    RemovedClients(w, key, s);
  }

  lemma RemovedStore(w: World, key: nat, s: World)
    requires StoreOk(w) && key in w.records
    requires s.queued == w.queued && s.records == w.records - {key}
      && s.status == w.status && s.threadJobs == w.threadJobs
    requires w.released <= s.released && w.stray <= s.stray
    requires w.records[key] in s.released || w.records[key] in s.stray
    ensures StoreOk(s)
  {
    forall i | 0 <= i < |s.queued| ensures KeyOk(s, i) {
      assert KeyOk(w, i);
    }
  }

  lemma RemovedClients(w: World, key: nat, s: World)
    requires Inv(w) && Later(w, s) && s.queued == w.queued
    requires s.records == w.records - {key} && s.clients == Vacate(w.clients, key)
    ensures ClientsOk(s)
  {
    forall x | x in s.clients ensures ClientOk(s, s.clients[x]) {
      RemovedClient(w, key, s, w.clients[x]);
    }
  }

  lemma RemovedIsLater(w: World, key: nat, noticed: bool, s: World)
    requires s == Removed(w, key, noticed).(released := s.released, stray := s.stray)
    ensures Later(w, s)
  {
  }

  lemma RemovedClient(w: World, key: nat, s: World, c: Client)
    requires Later(w, s) && StoreOk(w) && ClientOk(w, c) && s.queued == w.queued
    requires s.records == w.records - {key}
    ensures
      var d := if c.key == key && c.pc.ReleaseDelete? then c.(pc := ReleaseDelete(c.pc.released, true)) else c;
      ClientOk(s, d)
  {
    if !c.pc.ReleaseDelete? { ClientKeeps(w, s, c); }
  }

  lemma InvArrive(w: World, a: Action)
    requires Inv(w) && a.Arrive? && Can(w, a)
    ensures Inv(Step(w, a))
  {
    var s := Step(w, a);
    forall x | x in s.clients ensures ClientOk(s, s.clients[x]) {
      if x != a.id { assert ClientOk(w, w.clients[x]); }
    }
    forall i | 0 <= i < |s.queued| ensures KeyOk(s, i) {
      assert KeyOk(w, i);
    }
  }

  lemma CommitIsLater(w: World, c: Client)
    requires !WasQueued(w.queued, c.job) && forall j | j in w.status :: WasQueued(w.queued, j)
    ensures Later(w, Committed(w, c))
  {
  }

  lemma InvCommit(w: World, id: nat)
    requires Inv(w) && id in w.clients && w.clients[id].pc.Exec?
    requires
      var c := w.clients[id];
      c.pc.w == Watched(Version(w.recordVersion, c.key), Version(w.threadVersion, c.thread))
    ensures Inv(Go(Committed(w, w.clients[id]), id, Waiting(w.clients[id].job)))
  {
    var c := w.clients[id];
    assert ClientOk(w, c);
    CommitIsLater(w, c);
    CommitStore(w, c);
    GoStore(Committed(w, c), id, Waiting(c.job));
    CommitClients(w, id);
  }

  /** What the record named before is dead, so replacing it breaks no promise. */
  lemma CommitStore(w: World, c: Client)
    requires StoreOk(w) && !WasQueued(w.queued, c.job) && Later(w, Committed(w, c))
    requires c.key in w.records ==> Dead(w, w.records[c.key])
    ensures StoreOk(Committed(w, c))
  {
    var s := Committed(w, c);
    assert s.queued[|w.queued|] == Entry(c.key, c.thread, c.job);
    CommitNames(w, c);
    forall i | 0 <= i < |w.queued| ensures KeyOk(s, i) {
      CommitKey(w, c, i);
    }
    LastIsNew(w.queued, Entry(c.key, c.thread, c.job));
    NewestOk(w, c);
  }

  /** The new job's own entry: the record names it and none follows. */
  lemma NewestOk(w: World, c: Client)
    ensures Committed(w, c).queued[|w.queued|] == Entry(c.key, c.thread, c.job) && KeyOk(Committed(w, c), |w.queued|)
  {
  }

  lemma LastIsNew(q: seq<Entry>, last: Entry)
    requires !WasQueued(q, last.job) && forall i, j | 0 <= i < j < |q| :: q[i].job != q[j].job
    ensures forall i, j | 0 <= i < j < |q + [last]| :: (q + [last])[i].job != (q + [last])[j].job
  {
  }

  /** Every job named after the transaction was queued. */
  lemma CommitNames(w: World, c: Client)
    requires StoreOk(w)
    ensures
      var s := Committed(w, c);
      && (forall j | j in s.status :: WasQueued(s.queued, j))
      && (forall k | k in s.records :: WasQueued(s.queued, s.records[k]))
      && forall k | k in s.threadJobs :: LastJob(s.queued, k, s.threadJobs[k])
  {
    var s := Committed(w, c);
    assert s.queued[|w.queued|] == Entry(c.key, c.thread, c.job);
    forall j | j in s.status ensures WasQueued(s.queued, j) {
      if j != c.job { StaysQueued(w.queued, s.queued, j); }
    }
    forall k | k in s.records ensures WasQueued(s.queued, s.records[k]) {
      if k != c.key { StaysQueued(w.queued, s.queued, w.records[k]); }
    }
    forall k | k in s.threadJobs ensures LastJob(s.queued, k, s.threadJobs[k]) {
      if k == c.thread { assert LastOn(s.queued, k, |w.queued|); } else { LastStays(w, c, k); }
    }
  }

  lemma LastStays(w: World, c: Client, thread: nat)
    requires thread != c.thread && thread in w.threadJobs && LastJob(w.queued, thread, w.threadJobs[thread])
    ensures LastJob(Committed(w, c).queued, thread, w.threadJobs[thread])
  {
    var s := Committed(w, c);
    var i :| 0 <= i < |w.queued| && LastOn(w.queued, thread, i) && w.queued[i].job == w.threadJobs[thread];
    assert LastOn(s.queued, thread, i);
  }

  lemma CommitKey(w: World, c: Client, i: nat)
    requires i < |w.queued| && KeyOk(w, i)
    requires !WasQueued(w.queued, c.job) && Later(w, Committed(w, c))
    requires c.key in w.records ==> Dead(w, w.records[c.key])
    ensures Committed(w, c).queued[i] == w.queued[i] && w.queued[i].job != c.job
    ensures KeyOk(Committed(w, c), i)
  {
    var s := Committed(w, c);
    assert WasQueued(w.queued, w.queued[i].job);
    assert s.queued[i] == w.queued[i];
    if w.queued[i].key != c.key && Newest(w.queued, i) {
      assert forall j | i < j < |s.queued| :: s.queued[j].key != s.queued[i].key;
    }
  }

  lemma CommitClients(w: World, id: nat)
    requires Inv(w) && id in w.clients && w.clients[id].pc.Exec? && Later(w, Committed(w, w.clients[id]))
    ensures ClientsOk(Go(Committed(w, w.clients[id]), id, Waiting(w.clients[id].job)))
  {
    var s := Go(Committed(w, w.clients[id]), id, Waiting(w.clients[id].job));
    assert forall x | x in s.clients :: x in w.clients && s.clients[x].job == w.clients[x].job;
    forall x | x in s.clients
      ensures ClientOk(s, s.clients[x]) && (Submitting(s.clients[x].pc) ==> !WasQueued(s.queued, s.clients[x].job))
    {
      if x == id { CommittedClient(w, id); } else { CommitLeaves(w, id, x); }
    }
  }

  lemma CommittedClient(w: World, id: nat)
    requires Inv(w) && id in w.clients && w.clients[id].pc.Exec?
    ensures
      var s := Go(Committed(w, w.clients[id]), id, Waiting(w.clients[id].job));
      ClientOk(s, s.clients[id]) && !Submitting(s.clients[id].pc)
  {
    var s := Committed(w, w.clients[id]);
    assert s.queued[|w.queued|] == Entry(w.clients[id].key, w.clients[id].thread, w.clients[id].job);
  }

  lemma CommitLeaves(w: World, id: nat, x: nat)
    requires Inv(w) && id in w.clients && w.clients[id].pc.Exec? && Later(w, Committed(w, w.clients[id]))
    requires x in w.clients && x != id
    ensures
      var s := Go(Committed(w, w.clients[id]), id, Waiting(w.clients[id].job));
      ClientOk(s, s.clients[x]) && (Submitting(s.clients[x].pc) ==> !WasQueued(s.queued, s.clients[x].job))
  {
    var c := w.clients[id];
    var t := Committed(w, c);
    assert Submitting(c.pc);
    CommitOther(w, c, t, w.clients[x]);
    OnlyClients(t, Go(t, id, Waiting(c.job)), t.clients[x]);
  }

  lemma OnlyClients(t: World, s: World, d: Client)
    requires ClientOk(t, d) && s == t.(clients := s.clients)
    ensures ClientOk(s, d)
  {
  }

  lemma CommitOther(w: World, c: Client, s: World, d: Client)
    requires StoreOk(w) && Later(w, s) && ClientOk(w, d) && !WasQueued(w.queued, c.job)
    requires s.records == w.records[c.key := c.job] && s.queued == w.queued + [Entry(c.key, c.thread, c.job)]
    requires d.job != c.job && (Submitting(d.pc) ==> !WasQueued(w.queued, d.job))
    ensures
      var e := if d.key == c.key && d.pc.ReleaseDelete? then d.(pc := ReleaseDelete(d.pc.released, true)) else d;
      ClientOk(s, e) && (Submitting(e.pc) ==> !WasQueued(s.queued, e.job))
  {
    CommitClient(w, c, s, d);
    if Submitting(d.pc) { NotYetQueued(w.queued, Entry(c.key, c.thread, c.job), d.job); }
  }

  lemma NotYetQueued(q: seq<Entry>, last: Entry, job: nat)
    requires !WasQueued(q, job) && last.job != job
    ensures !WasQueued(q + [last], job)
  {
  }

  lemma CommitClient(w: World, c: Client, s: World, d: Client)
    requires StoreOk(w) && Later(w, s) && ClientOk(w, d) && !WasQueued(w.queued, c.job)
    requires s.records == w.records[c.key := c.job]
    ensures
      var e := if d.key == c.key && d.pc.ReleaseDelete? then d.(pc := ReleaseDelete(d.pc.released, true)) else d;
      ClientOk(s, e)
  {
    if d.pc.ReleaseDelete? {
      StaysQueued(w.queued, s.queued, d.pc.released);
    } else {
      ClientKeeps(w, s, d);
    }
  }

  lemma InvLooking(w: World, id: nat)
    requires Inv(w) && Can(w, Call(id)) && Submitting(w.clients[id].pc) && !w.clients[id].pc.Exec?
    ensures Inv(Called(w, id))
  {
    var next := Looked(w, w.clients[id]);
    LookedIsNext(w, id);
    LookedOk(w, w.clients[id]);
    InvGo(w, id, next);
  }

  /** What a submitting client does after its read. */
  ghost function Looked(w: World, c: Client): Pc {
    match c.pc
    case Look => if c.key in w.records then LookStatus(w.records[c.key]) else Watch
    case LookStatus(found) => if Dead(w, found) then Watch else Waiting(found)
    case Watch => Get(Watched(Version(w.recordVersion, c.key), Version(w.threadVersion, c.thread)))
    case Get(seen) => if c.key in w.records then GetStatus(seen, w.records[c.key]) else GetPrevious(seen)
    case GetStatus(seen, found) => if Dead(w, found) then GetPrevious(seen) else Waiting(found)
    case GetPrevious(seen) =>
      if c.thread in w.threadJobs then GetPreviousStatus(seen, w.threadJobs[c.thread]) else Exec(seen, false)
    case GetPreviousStatus(seen, previous) => Exec(seen, Live(w, previous))
    case pc => pc
  }

  lemma LookedIsNext(w: World, id: nat)
    requires Can(w, Call(id)) && Submitting(w.clients[id].pc) && !w.clients[id].pc.Exec?
    ensures Called(w, id) == Go(w, id, Looked(w, w.clients[id]))
  {
  }

  lemma LookedOk(w: World, c: Client)
    requires StoreOk(w) && ClientOk(w, c) && Submitting(c.pc) && !c.pc.Exec?
    ensures ClientOk(w, c.(pc := Looked(w, c)))
  {
  }

  lemma InvReleasing(w: World, id: nat)
    requires Inv(w) && Can(w, Call(id)) && !Submitting(w.clients[id].pc)
    ensures Inv(Called(w, id))
  {
    var c := w.clients[id];
    assert ClientOk(w, c);
    match c.pc {
      case ReleaseGet(job) =>
        InvGo(w, id, if RecordIs(w, c.key, job) then ReleaseDelete(job, false) else Over);
      case ReleaseDelete(job, _) =>
        InvGo(w, id, Over);
        if c.key in w.records { InvRemoved(Go(w, id, Over), c.key, true, Called(w, id)); }
    }
  }

  lemma InvExec(w: World, id: nat)
    requires Inv(w) && Can(w, Call(id)) && w.clients[id].pc.Exec?
    ensures Inv(Called(w, id))
  {
    var c := w.clients[id];
    if c.pc.w == Watched(Version(w.recordVersion, c.key), Version(w.threadVersion, c.thread)) {
      InvCommit(w, id);
    } else {
      InvGo(w, id, Watch);
    }
  }

  lemma WorkerIsLater(w: World, a: Action)
    requires Can(w, a) && !a.Arrive? && !a.Call? && !a.Delivered? && !a.ExpireRecord?
    ensures Later(w, Step(w, a))
    ensures
      var s := Step(w, a);
      && s == w.(status := s.status, won := s.won, threadJobs := s.threadJobs, threadVersion := s.threadVersion)
      && (forall k | k in s.threadJobs :: k in w.threadJobs && s.threadJobs[k] == w.threadJobs[k])
    ensures forall j | j in Step(w, a).status :: j in w.status
  {
  }

  lemma InvStep(w: World, a: Action)
    requires Inv(w) && Can(w, a)
    ensures Inv(Step(w, a))
  {
    match a {
      case Arrive(_, _, _, _) => InvArrive(w, a);
      case Call(id) =>
        if w.clients[id].pc.Exec? { InvExec(w, id); }
        else if Submitting(w.clients[id].pc) { InvLooking(w, id); }
        else { InvReleasing(w, id); }
      case Delivered(id) =>
        assert ClientOk(w, w.clients[id]);
        InvGo(w, id, ReleaseGet(w.clients[id].pc.queued));
      case ExpireRecord(key, noticed) => InvRemoved(w, key, noticed, Step(w, a));
      case _ =>
        WorkerIsLater(w, a);
        InvStatus(w, Step(w, a));
    }
  }

  lemma {:induction false} InvRun(w: World, acts: seq<Action>)
    requires Inv(w) && Runs(w, acts)
    ensures Inv(After(w, acts))
    decreases |acts|
  {
    if acts != [] {
      InvStep(w, acts[0]);
      InvRun(Step(w, acts[0]), acts[1..]);
    }
  }

  // ---------- What submitting once promises ----------

  /** Of two jobs queued under one request key, the earlier had failed, expired or been released by the
      time the later was queued, for every start of a run is a run; unless another job's release took its
      record away. */
  lemma QueuedOnce(acts: seq<Action>, i: nat, j: nat)
    requires Runs(EMPTY, acts)
    requires
      var w := After(EMPTY, acts);
      i < j < |w.queued| && w.queued[i].key == w.queued[j].key
    ensures
      var w := After(EMPTY, acts);
      Settled(w, w.queued[i].job) || w.queued[i].job in w.stray
  {
    InvRun(EMPTY, acts);
    var w := After(EMPTY, acts);
    assert KeyOk(w, i);
  }

  /** A record still standing names a job that is the last queued under its key. */
  lemma RecordIsNewest(acts: seq<Action>, i: nat, j: nat)
    requires Runs(EMPTY, acts)
    requires
      var w := After(EMPTY, acts);
      && i < |w.queued| && j < |w.queued| && w.queued[i].key == w.queued[j].key
      && RecordIs(w, w.queued[i].key, w.queued[i].job)
    ensures j <= i
  {
    InvRun(EMPTY, acts);
    assert KeyOk(After(EMPTY, acts), i);
  }

  /** A thread's pointer, while it stands, names the job queued last on the thread. */
  lemma PointerIsNewest(acts: seq<Action>, thread: nat)
    requires Runs(EMPTY, acts) && thread in After(EMPTY, acts).threadJobs
    ensures LastJob(After(EMPTY, acts).queued, thread, After(EMPTY, acts).threadJobs[thread])
  {
    InvRun(EMPTY, acts);
  }
}
