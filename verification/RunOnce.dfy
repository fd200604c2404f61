/** How often a job's run starts when its entry may be reclaimed from a live worker: exactly which
    reclaims are dangerous (services/agent/src/worker/handler.py, queue/reclaim.py). */
module RunOnce {
  import opened Wrappers
  import opened JobProtocol

  /** A task that has not yet marked the job running. */
  predicate Early(t: Task) { t.pc.ReadStatus? || t.pc.MarkRunning? }

  /** A reclaim whose new task would read a job still queued, beside a live task about to run it. */
  ghost predicate Untimely(r: Record, a: Action, max: nat) {
    && a.Reclaim? && a.kept && r.valid && r.status.Queued? && r.deliveries < max
    && exists id :: id in r.tasks && Early(r.tasks[id])
  }

  /** A run in which live entries may be reclaimed, only not that early. */
  ghost predicate Timely(r: Record, acts: seq<Action>, max: nat)
    decreases |acts|
  {
    acts == []
    || (Can(r, acts[0], false) && !Untimely(r, acts[0], max) && Timely(Step(r, acts[0], max), acts[1..], max))
  }

  lemma {:induction false} TimelyRuns(r: Record, acts: seq<Action>, max: nat)
    requires Timely(r, acts, max)
    ensures Runs(r, acts, max, false)
    decreases |acts|
  {
    if acts != [] { TimelyRuns(Step(r, acts[0], max), acts[1..], max); }
  }

  /** While nobody reclaims an entry that a live task handles, no reclaim is untimely. */
  lemma {:induction false} ExclusiveIsTimely(r: Record, acts: seq<Action>, max: nat)
    requires Runs(r, acts, max, true)
    ensures Timely(r, acts, max)
    decreases |acts|
  {
    if acts != [] { ExclusiveIsTimely(Step(r, acts[0], max), acts[1..], max); }
  }

  ghost predicate OneEarly(r: Record) {
    forall x, y | x in r.tasks && y in r.tasks && Early(r.tasks[x]) && Early(r.tasks[y]) :: x == y
  }

  ghost predicate OneMarks(r: Record) {
    && (forall x, y | x in r.tasks && y in r.tasks
        && r.tasks[x].pc.MarkRunning? && r.tasks[y].pc.MarkRunning? :: x == y)
    && (forall x | x in r.tasks && r.tasks[x].pc.MarkRunning? :: r.starts == 0)
  }

  ghost predicate OnceInv(r: Record) {
    && (r.place.Unread? ==> r.tasks == map[])
    && (forall x | x in r.tasks && Early(r.tasks[x]) :: r.valid)
    && (r.status.Queued? ==> r.starts == 0 && OneEarly(r))
    && OneMarks(r) && r.starts <= 1
  }

  lemma TakeKeepsOnce(r: Record, a: Action, max: nat)
    requires OnceInv(r) && Can(r, a, false) && !Untimely(r, a, max) && (a.Deliver? || a.Reclaim?)
    ensures OnceInv(Step(r, a, max))
  {
    var s := Step(r, a, max);
    if r.status.Queued? && a.kept && Early(s.tasks[a.id]) {
      assert forall x | x in r.tasks :: !Early(r.tasks[x]);
    }
  }

  ghost predicate OthersAlike(r: Record, s: Record, id: nat) {
    forall x | x in s.tasks && x != id :: x in r.tasks && s.tasks[x] == r.tasks[x]
  }

  lemma NoEarlierKeepsOnce(r: Record, s: Record, id: nat)
    requires OnceInv(r) && OthersAlike(r, s, id) && (id in s.tasks ==> !Early(s.tasks[id]))
    requires s.starts == r.starts && s.valid == r.valid && (s.status.Queued? ==> r.status.Queued?)
    requires !s.place.Unread?
    ensures OnceInv(s)
  {
  }

  lemma LateCall(r: Record, id: nat, lost: bool, max: nat)
    requires Can(r, Call(id, lost), false) && !Early(r.tasks[id])
    ensures
      var s := Step(r, Call(id, lost), max);
      && OthersAlike(r, s, id) && (id in s.tasks ==> !Early(s.tasks[id]))
      && s.starts == r.starts && s.valid == r.valid && (s.status.Queued? ==> r.status.Queued?)
      && (s.place.Unread? ==> r.place.Unread?)
  {
  }

  /** A call by a task that is not early leaves the early ones alone, and the status is queued only if
      it was. */
  lemma LateCallKeepsOnce(r: Record, id: nat, lost: bool, max: nat)
    requires OnceInv(r) && Can(r, Call(id, lost), false) && !Early(r.tasks[id])
    ensures OnceInv(Step(r, Call(id, lost), max))
  {
    LateCall(r, id, lost, max);
    NoEarlierKeepsOnce(r, Step(r, Call(id, lost), max), id);
  }

  lemma ReadKeepsOnce(r: Record, id: nat, lost: bool, max: nat)
    requires OnceInv(r) && Can(r, Call(id, lost), false) && r.tasks[id].pc.ReadStatus?
    ensures OnceInv(Step(r, Call(id, lost), max))
  {
    var s := Step(r, Call(id, lost), max);
    assert s.starts == r.starts && s.status == r.status;
    assert id in s.tasks && Early(s.tasks[id]) ==> r.status.Queued?;
    assert forall x | x in s.tasks && x != id :: x in r.tasks && s.tasks[x] == r.tasks[x];
  }

  lemma MarkKeepsOnce(r: Record, id: nat, lost: bool, max: nat)
    requires OnceInv(r) && Can(r, Call(id, lost), false) && r.tasks[id].pc.MarkRunning?
    ensures OnceInv(Step(r, Call(id, lost), max))
  {
    var s := Step(r, Call(id, lost), max);
    assert s.status.Running? && (id in s.tasks ==> s.tasks[id].pc.Executing?);
    assert forall x | x in s.tasks && x != id :: x in r.tasks && s.tasks[x] == r.tasks[x];
  }

  lemma CallKeepsOnce(r: Record, id: nat, lost: bool, max: nat)
    requires OnceInv(r) && Can(r, Call(id, lost), false)
    ensures OnceInv(Step(r, Call(id, lost), max))
  {
    match r.tasks[id].pc {
      case ReadStatus => ReadKeepsOnce(r, id, lost, max);
      case MarkRunning => MarkKeepsOnce(r, id, lost, max);
      case _ => LateCallKeepsOnce(r, id, lost, max);
    }
  }

  lemma StepKeepsOnce(r: Record, a: Action, max: nat)
    requires OnceInv(r) && Can(r, a, false) && !Untimely(r, a, max)
    ensures OnceInv(Step(r, a, max))
  {
    match a {
      case Deliver(_, _) => TakeKeepsOnce(r, a, max);
      case Reclaim(_, _) => TakeKeepsOnce(r, a, max);
      case Call(id, lost) => CallKeepsOnce(r, id, lost, max);
      case _ =>
    }
  }

  lemma {:induction false} OnceAlong(r: Record, acts: seq<Action>, max: nat)
    requires OnceInv(r) && Timely(r, acts, max)
    ensures Runs(r, acts, max, false) && OnceInv(After(r, acts, max))
    decreases |acts|
  {
    if acts != [] {
      StepKeepsOnce(r, acts[0], max);
      OnceAlong(Step(r, acts[0], max), acts[1..], max);
    }
  }

  /** However deliveries interleave, workers die and replies are lost, and even if live entries are
      reclaimed: as long as no reclaim is untimely the run of a job starts at most once. */
  lemma StartsAtMostOnce(valid: bool, acts: seq<Action>, max: nat)
    requires Timely(Submitted(valid), acts, max)
    ensures Runs(Submitted(valid), acts, max, false)
    ensures After(Submitted(valid), acts, max).starts <= 1
  {
    OnceAlong(Submitted(valid), acts, max);
  }

  // ---------- An untimely reclaim can start it twice ----------

  lemma Prepend(r: Record, a: Action, acts: seq<Action>, max: nat, exclusive: bool)
    requires Can(r, a, exclusive)
    requires Runs(Step(r, a, max), acts, max, exclusive) && Runs(Step(r, a, max), acts, max, false)
    ensures Runs(r, [a] + acts, max, exclusive) && Runs(r, [a] + acts, max, false)
    ensures After(r, [a] + acts, max) == After(Step(r, a, max), acts, max)
  {
    assert ([a] + acts)[1..] == acts;
  }

  lemma PrependTimely(r: Record, a: Action, acts: seq<Action>, max: nat)
    requires Can(r, a, false) && !Untimely(r, a, max) && Timely(Step(r, a, max), acts, max)
    ensures Timely(r, [a] + acts, max) && Runs(r, [a] + acts, max, false)
    ensures Runs(Step(r, a, max), acts, max, false) && After(r, [a] + acts, max) == After(Step(r, a, max), acts, max)
  {
    assert ([a] + acts)[1..] == acts;
    TimelyRuns(Step(r, a, max), acts, max);
  }

  /** Two tasks about to mark the job running both run it. */
  lemma BothMark(r: Record, x: nat, y: nat, max: nat) returns (acts: seq<Action>)
    requires x != y && x in r.tasks && y in r.tasks && r.tasks[x].pc.MarkRunning? && r.tasks[y].pc.MarkRunning?
    ensures Timely(r, acts, max) && Runs(r, acts, max, false) && After(r, acts, max).starts == r.starts + 2
  {
    var s := Step(r, Call(x, false), max);
    PrependTimely(s, Call(y, false), [], max);
    acts := [Call(y, false)] + [];
    PrependTimely(r, Call(x, false), acts, max);
    acts := [Call(x, false)] + acts;
  }

  lemma ReadsQueued(r: Record, x: nat, y: nat, max: nat)
    requires x in r.tasks && y in r.tasks && x != y && r.tasks[x].pc.ReadStatus? && r.status.Queued?
    ensures
      var s := Step(r, Call(x, false), max);
      && x in s.tasks && s.tasks[x].pc.MarkRunning? && y in s.tasks && s.tasks[y] == r.tasks[y]
      && s.status == r.status && s.starts == r.starts
  {
  }

  /** Two early tasks on a queued job both run it. */
  lemma BothRun(r: Record, x: nat, y: nat, max: nat) returns (acts: seq<Action>)
    requires x != y && x in r.tasks && y in r.tasks
      && Early(r.tasks[x]) && r.tasks[y].pc.ReadStatus? && r.status.Queued?
    ensures Timely(r, acts, max) && Runs(r, acts, max, false) && After(r, acts, max).starts == r.starts + 2
  {
    ReadsQueued(r, y, x, max);
    var s := Step(r, Call(y, false), max);
    if r.tasks[x].pc.MarkRunning? {
      acts := BothMark(s, x, y, max);
    } else {
      ReadsQueued(s, x, y, max);
      acts := BothMark(Step(s, Call(x, false), max), x, y, max);
      PrependTimely(s, Call(x, false), acts, max);
      acts := [Call(x, false)] + acts;
    }
    PrependTimely(r, Call(y, false), acts, max);
    acts := [Call(y, false)] + acts;
  }

  /** A run from `r` without further untimely reclaims, at whose end the job has started twice. */
  ghost predicate LeadsToTwo(r: Record, acts: seq<Action>, max: nat) {
    Timely(r, acts, max) && Runs(r, acts, max, false) && After(r, acts, max).starts > 1
  }

  /** A reclaim can lead to a second start exactly when it is untimely: the entry is valid, queued and
      within its deliveries, and a live task has not yet marked it running. */
  lemma SecondStartExactly(valid: bool, acts: seq<Action>, id: nat, kept: bool, max: nat)
    requires Timely(Submitted(valid), acts, max) && Runs(Submitted(valid), acts, max, false)
    requires Can(After(Submitted(valid), acts, max), Reclaim(id, kept), false)
    ensures
      var r, a := After(Submitted(valid), acts, max), Reclaim(id, kept);
      Untimely(r, a, max) <==> exists more :: LeadsToTwo(Step(r, a, max), more, max)
  {
    var r, a := After(Submitted(valid), acts, max), Reclaim(id, kept);
    OnceAlong(Submitted(valid), acts, max);
    if Untimely(r, a, max) {
      var x :| x in r.tasks && Early(r.tasks[x]);
      var more := BothRun(Step(r, a, max), x, id, max);
      assert LeadsToTwo(Step(r, a, max), more, max);
    } else {
      StepKeepsOnce(r, a, max);
      forall more | Timely(Step(r, a, max), more, max) ensures !LeadsToTwo(Step(r, a, max), more, max) {
        OnceAlong(Step(r, a, max), more, max);
      }
    }
  }
}
