/** What `behind` tells a queued turn about its thread (services/api/src/queue/submit.py): the thread's
    pointer names one job, and `submit_once` looks at that one alone. */
module BehindSafety {
  import opened Submission
  import opened SubmissionSafety
  import opened SubmitAlone

  ghost predicate LiveOn(w: World, thread: nat, i: nat) {
    && i < |w.queued| && w.queued[i].thread == thread && w.queued[i].job in w.status
    && (w.status[w.queued[i].job].Queued? || w.status[w.queued[i].job].Running?)
  }

  /** No job queued on the thread is queued or running. */
  ghost predicate Idle(w: World, thread: nat) {
    forall i :: !LiveOn(w, thread, i)
  }

  /** The client's next call queues its job, not behind. */
  ghost predicate CommitsNotBehind(w: World, id: nat) {
    && id in w.clients && w.clients[id].pc.Exec? && !w.clients[id].pc.behind
    && w.clients[id].pc.w == Current(w, w.clients[id].key, w.clients[id].thread)
  }

  lemma LastIsPointed(w: World, thread: nat, i: nat)
    requires Inv(w) && thread in w.threadJobs && i < |w.queued| && LastOn(w.queued, thread, i)
    ensures w.queued[i].job == w.threadJobs[thread]
  {
    var k :| 0 <= k < |w.queued| && LastOn(w.queued, thread, k) && w.queued[k].job == w.threadJobs[thread];
    assert k == i;
  }

  /** At the moment a turn is queued as not behind, the thread has no live job exactly when none but
      the last queued on it lives; and when its pointer has expired, nothing is known. */
  lemma NotBehindExactly(acts: seq<Action>, id: nat)
    requires Runs(EMPTY, acts) && CommitsNotBehind(After(EMPTY, acts), id)
    ensures
      var w := After(EMPTY, acts);
      var thread := w.clients[id].thread;
      && PointerIdle(w, thread)
      && (Idle(w, thread) <==>
          forall i: nat | LiveOn(w, thread, i) :: thread in w.threadJobs && LastOn(w.queued, thread, i))
  {
    InvRun(EMPTY, acts);
    var w := After(EMPTY, acts);
    var thread := w.clients[id].thread;
    assert ClientOk(w, w.clients[id]);
    forall i: nat | LiveOn(w, thread, i) && thread in w.threadJobs ensures !LastOn(w.queued, thread, i) {
      if LastOn(w.queued, thread, i) { LastIsPointed(w, thread, i); }
    }
  }

  // ---------- Over whole runs ----------

  /** While a job of a thread lives, so does the one its pointer names. */
  ghost predicate Attended(w: World) {
    forall thread, i: nat | LiveOn(w, thread, i) :: PointerLive(w, thread)
  }

  predicate Ends(a: Action, job: nat) {
    (a.MarkDone? || a.Fail? || a.GiveUp? || a.ExpireStatus?) && a.job == job
  }

  /** The pointer expires while a job of the thread lives, or the job it names ends while another on
      the thread lives. */
  ghost predicate StrandsOn(w: World, a: Action, thread: nat, i: nat) {
    && LiveOn(w, thread, i)
    && (|| (a.ExpireThread? && a.thread == thread)
        || (thread in w.threadJobs && Ends(a, w.threadJobs[thread]) && w.queued[i].job != w.threadJobs[thread]))
  }

  ghost predicate Strands(w: World, a: Action) {
    exists thread, i: nat :: StrandsOn(w, a, thread, i)
  }

  ghost predicate Attending(w: World, acts: seq<Action>)
    decreases |acts|
  {
    acts == [] || (Can(w, acts[0]) && !Strands(w, acts[0]) && Attending(Step(w, acts[0]), acts[1..]))
  }

  lemma CommitKeepsLives(w: World, c: Client, thread: nat, i: nat)
    requires StoreOk(w) && !WasQueued(w.queued, c.job)
    requires LiveOn(Committed(w, c), thread, i) && thread != c.thread
    ensures LiveOn(w, thread, i)
    ensures PointerLive(w, thread) ==> PointerLive(Committed(w, c), thread)
  {
    assert i < |w.queued| && Committed(w, c).queued[i] == w.queued[i];
    assert WasQueued(w.queued, w.queued[i].job);
  }

  lemma CommitAttends(w: World, c: Client)
    requires StoreOk(w) && !WasQueued(w.queued, c.job) && Attended(w)
    ensures Attended(Committed(w, c))
  {
    forall thread, i: nat | LiveOn(Committed(w, c), thread, i) ensures PointerLive(Committed(w, c), thread) {
      if thread != c.thread { CommitKeepsLives(w, c, thread, i); }
    }
  }

  lemma ExecAttends(w: World, id: nat)
    requires Inv(w) && Attended(w) && Can(w, Call(id)) && w.clients[id].pc.Exec?
    ensures Attended(Called(w, id))
  {
    var c := w.clients[id];
    if c.pc.w == Current(w, c.key, c.thread) {
      CommitAttends(w, c);
      SameAttends(Committed(w, c), Called(w, id));
    } else {
      SameAttends(w, Called(w, id));
    }
  }

  lemma OtherAttends(w: World, id: nat)
    requires Attended(w) && Can(w, Call(id)) && !w.clients[id].pc.Exec?
    ensures Attended(Called(w, id))
  {
    if Submitting(w.clients[id].pc) { LookedIsNext(w, id); }
    SameAttends(w, Called(w, id));
  }

  lemma SameAttends(w: World, s: World)
    requires Attended(w) && s.queued == w.queued && s.status == w.status && s.threadJobs == w.threadJobs
    ensures Attended(s)
  {
    forall thread, i: nat | LiveOn(s, thread, i) ensures PointerLive(s, thread) {
      assert LiveOn(w, thread, i);
    }
  }

  /** No action but a transaction makes a job live, and none but these take the pointer's life. */
  lemma QuietAttends(w: World, a: Action)
    requires Inv(w) && Attended(w) && Can(w, a) && !a.Call? && !Strands(w, a)
    ensures Attended(Step(w, a))
  {
    var s := Step(w, a);
    forall thread, i: nat | LiveOn(s, thread, i) ensures PointerLive(s, thread) {
      assert LiveOn(w, thread, i);
      assert !StrandsOn(w, a, thread, i);
    }
  }

  lemma AttendedStep(w: World, a: Action)
    requires Inv(w) && Attended(w) && Can(w, a) && !Strands(w, a)
    ensures Attended(Step(w, a))
  {
    if !a.Call? {
      QuietAttends(w, a);
    } else if w.clients[a.id].pc.Exec? {
      ExecAttends(w, a.id);
    } else {
      OtherAttends(w, a.id);
    }
  }

  lemma {:induction false} AttendedAlong(w: World, acts: seq<Action>)
    requires Inv(w) && Attended(w) && Attending(w, acts)
    ensures Runs(w, acts) && Inv(After(w, acts)) && Attended(After(w, acts))
    decreases |acts|
  {
    if acts != [] {
      InvStep(w, acts[0]);
      AttendedStep(w, acts[0]);
      AttendedAlong(Step(w, acts[0]), acts[1..]);
    }
  }

  lemma AttendedIsIdle(w: World, id: nat)
    requires Inv(w) && Attended(w) && CommitsNotBehind(w, id)
    ensures Idle(w, w.clients[id].thread)
  {
    assert ClientOk(w, w.clients[id]);
  }

  /** In every run without such a step a turn queued as not behind has no live job on its thread. */
  lemma NotBehindIsIdle(acts: seq<Action>, id: nat)
    requires Attending(EMPTY, acts) && Runs(EMPTY, acts) && CommitsNotBehind(After(EMPTY, acts), id)
    ensures Idle(After(EMPTY, acts), After(EMPTY, acts).clients[id].thread)
  {
    AttendedAlong(EMPTY, acts);
    AttendedIsIdle(After(EMPTY, acts), id);
  }

  // ---------- Such a step misleads a later turn ----------

  /** The client's next call queues its job as not behind, although one lives on its thread. */
  ghost predicate Misled(w: World, id: nat) {
    CommitsNotBehind(w, id) && !Idle(w, w.clients[id].thread)
  }

  ghost predicate LeadsToMisled(w: World, acts: seq<Action>) {
    Runs(w, acts) && Smooth(acts) && exists id :: Misled(After(w, acts), id)
  }

  lemma {:induction false} SmoothAttends(w: World, acts: seq<Action>)
    requires Runs(w, acts) && Smooth(acts)
    ensures Attending(w, acts)
    decreases |acts|
  {
    if acts != [] {
      assert acts[0] in acts;
      SmoothAttends(Step(w, acts[0]), acts[1..]);
    }
  }

  /** A thread with a live job whose pointer names none: the next request on it is misled. */
  lemma NextIsMisled(w: World, thread: nat) returns (acts: seq<Action>)
    requires !Idle(w, thread) && PointerIdle(w, thread)
    ensures LeadsToMisled(w, acts)
  {
    var key := Beyond(w.records.Keys);
    var id, job := SomeoneFresh(w, key, thread);
    acts := ReadAlone(w, [], id, key, thread, job);
    SmoothAlone([], acts, id, key);
    var i :| LiveOn(w, thread, i);
    var s := After(w, acts);
    assert LiveOn(s, thread, i);
    assert Misled(s, id);
  }

  lemma StrandingLeaves(w: World, a: Action, thread: nat, i: nat)
    requires Inv(w) && Can(w, a) && StrandsOn(w, a, thread, i)
    ensures !Idle(Step(w, a), thread) && PointerIdle(Step(w, a), thread)
  {
    assert LiveOn(Step(w, a), thread, i);
  }

  /** A step can lead to a turn that is queued as not behind beside a live job if and only if it is one
      of these. */
  lemma MisledExactly(acts: seq<Action>, a: Action)
    requires Attending(EMPTY, acts) && Runs(EMPTY, acts) && Can(After(EMPTY, acts), a)
    ensures
      var w := After(EMPTY, acts);
      Strands(w, a) <==> exists more :: LeadsToMisled(Step(w, a), more)
  {
    var w := After(EMPTY, acts);
    AttendedAlong(EMPTY, acts);
    var s := Step(w, a);
    if Strands(w, a) {
      var thread, i :| StrandsOn(w, a, thread, i);
      StrandingLeaves(w, a, thread, i);
      var more := NextIsMisled(s, thread);
      assert LeadsToMisled(s, more);
    } else {
      InvStep(w, a);
      AttendedStep(w, a);
      forall more | Runs(s, more) && Smooth(more) ensures !LeadsToMisled(s, more) {
        SmoothAttends(s, more);
        AttendedAlong(s, more);
        var end := After(s, more);
        forall id | CommitsNotBehind(end, id) ensures Idle(end, end.clients[id].thread) { AttendedIsIdle(end, id); }
      }
    }
  }

  // ---------- A run ----------

  ghost predicate FirstRuns(w: World) {
    && w.queued == [Entry(1, 1, 1)] && w.threadJobs == map[1 := 1] && w.status == map[1 := Running]
    && w.records.Keys == {1} && w.clients.Keys == {1} && w.clients[1].job == 1 && w.won == {}
  }

  lemma FirstStarts() returns (acts: seq<Action>)
    ensures Runs(EMPTY, acts) && FirstRuns(After(EMPTY, acts))
  {
    acts := QueueAlone(EMPTY, [], 1, 1, 1, 1);
    OneStep(EMPTY, acts, Start(1));
    acts := acts + [Start(1)];
  }

  /** Job 1 runs, and job 2, sent on the same thread, stands at `second`. */
  ghost predicate SecondStands(w: World, second: Status) {
    && w.queued == [Entry(1, 1, 1), Entry(2, 1, 2)] && w.threadJobs == map[1 := 2]
    && w.status == map[1 := Running, 2 := second] && w.records.Keys == {1, 2} && w.clients.Keys == {1, 2}
    && w.clients[1].job == 1 && w.clients[2].job == 2 && w.won == {}
  }

  lemma SecondQueues(w: World)
    requires FirstRuns(w)
    ensures Fresh(w, 2, 2, 1, 2) && SecondStands(QueuedAlone(w, 2, 2, 1, 2), Queued)
  {
    var q := QueuedAlone(w, 2, 2, 1, 2);
    assert q.queued == [Entry(1, 1, 1), Entry(2, 1, 2)] && q.threadJobs == map[1 := 2];
    assert q.clients.Keys == {1, 2};
    assert q.status == map[1 := Running, 2 := Queued];
  }

  /** It is started, waits for the thread's lock in vain and fails. */
  lemma SecondFails(q: World)
    requires SecondStands(q, Queued)
    ensures
      && Can(q, Start(2)) && Can(Step(q, Start(2)), Fail(2))
      && SecondStands(Step(Step(q, Start(2)), Fail(2)), Failed)
  {
    assert Step(Step(q, Start(2)), Fail(2)).status == map[1 := Running, 2 := Failed];
  }

  lemma ThirdReads(w: World)
    requires SecondStands(w, Failed)
    ensures Fresh(w, 3, 3, 1, 3) && !PointerLive(w, 1) && LiveOn(w, 1, 0)
  {
  }

  lemma ThirdIsMisled(w: World, c: Client)
    requires c == Client(3, 1, 3, Look) && LiveOn(w, 1, 0)
    ensures
      var s := With(w, 3, c, Exec(Current(w, 3, 1), false));
      Misled(s, 3) && Can(s, Call(3)) && Step(s, Call(3)).queued == w.queued + [Entry(3, 1, 3)]
  {
    assert LiveOn(With(w, 3, c, Exec(Current(w, 3, 1), false)), 1, 0);
  }

  /** The next request on the thread is queued as not behind, while job 1 still runs. */
  lemma NotBehindBesideALiveJob() returns (acts: seq<Action>)
    ensures Runs(EMPTY, acts) && Misled(After(EMPTY, acts), 3)
    ensures
      var w := After(EMPTY, acts);
      && w.clients[3].thread == 1 && w.queued == [Entry(1, 1, 1), Entry(2, 1, 2)]
      && 1 in w.status && w.status[1] == Running
      && Step(w, Call(3)).queued == w.queued + [Entry(3, 1, 3)]
  {
    acts := FirstStarts();
    SecondQueues(After(EMPTY, acts));
    acts := QueueAlone(EMPTY, acts, 2, 2, 1, 2);
    SecondFails(After(EMPTY, acts));
    OneStep(EMPTY, acts, Start(2));
    acts := acts + [Start(2)];
    OneStep(EMPTY, acts, Fail(2));
    acts := acts + [Fail(2)];
    var w := After(EMPTY, acts);
    ThirdReads(w);
    acts := ReadAlone(EMPTY, acts, 3, 3, 1, 3);
    ThirdIsMisled(w, Client(3, 1, 3, Look));
  }
}
