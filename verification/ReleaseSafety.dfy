/** When a release takes a record that is not its own job's, over whole runs
    (services/api/src/queue/submit.py, services/api/src/api/openai/routes.py). */
module ReleaseSafety {
  import opened Interference
  import opened Submission
  import opened SubmissionSafety
  import opened SubmitAlone

  /** The release has read its job's record, and the record still stands. */
  ghost predicate Held(w: World, id: nat) {
    id in w.clients && w.clients[id].pc.ReleaseDelete? && !w.clients[id].pc.vacated
  }

  /** What takes the record under `key` from a release: its expiry, the delete of another release, or
      a transaction whose watched keys nobody has written since. */
  ghost predicate TakenBy(w: World, a: Action, id: nat, key: nat) {
    || (a.ExpireRecord? && a.key == key)
    || (a.Call? && a.id != id && a.id in w.clients && w.clients[a.id].key == key && Overwrites(w, w.clients[a.id]))
  }

  ghost predicate Overwrites(w: World, c: Client) {
    c.pc.ReleaseDelete? || (c.pc.Exec? && c.pc.w == Current(w, c.key, c.thread))
  }

  /** The action takes a record from under some release. */
  ghost predicate Takes(w: World, a: Action) {
    exists id :: Held(w, id) && TakenBy(w, a, id, w.clients[id].key)
  }

  ghost predicate Steady(w: World, acts: seq<Action>)
    decreases |acts|
  {
    acts == [] || (Can(w, acts[0]) && !Takes(w, acts[0]) && Steady(Step(w, acts[0]), acts[1..]))
  }

  // ---------- The guard is exact ----------

  /** The release by `id` had its record until this step. */
  ghost predicate Vacates(w: World, a: Action, id: nat)
    requires Can(w, a)
  {
    && Held(w, id) && id in Step(w, a).clients
    && Step(w, a).clients[id].pc == ReleaseDelete(w.clients[id].pc.released, true)
  }

  /** The job has failed, or its status has expired. */
  predicate Gone(w: World, job: nat) {
    job in w.status ==> w.status[job].Failed?
  }

  lemma ExecVacates(w: World, other: nat, id: nat)
    requires Inv(w) && Can(w, Call(other)) && w.clients[other].pc.Exec? && Held(w, id)
    ensures Vacates(w, Call(other), id) <==> TakenBy(w, Call(other), id, w.clients[id].key)
    ensures Vacates(w, Call(other), id) ==> Gone(w, w.clients[id].pc.released)
  {
    var c := w.clients[other];
    assert ClientOk(w, w.clients[id]) && ClientOk(w, c);
    assert other != id;
  }

  lemma ReadLeaves(w: World, other: nat, id: nat)
    requires Can(w, Call(other)) && w.clients[other].pc.ReleaseGet?
    ensures !Vacates(w, Call(other), id)
  {
  }

  lemma DeleteVacates(w: World, other: nat, id: nat)
    requires Can(w, Call(other)) && w.clients[other].pc.ReleaseDelete?
    requires Held(w, id) && RecordIs(w, w.clients[id].key, w.clients[id].pc.released)
    ensures Vacates(w, Call(other), id) <==> other != id && w.clients[other].key == w.clients[id].key
  {
  }

  lemma LookVacates(w: World, other: nat, id: nat)
    requires Can(w, Call(other)) && Submitting(w.clients[other].pc) && !w.clients[other].pc.Exec?
    ensures !Vacates(w, Call(other), id)
  {
    LookedIsNext(w, other);
  }

  lemma QuietVacates(w: World, a: Action, id: nat)
    requires Can(w, a) && !a.Call? && Held(w, id)
    ensures Vacates(w, a, id) <==> TakenBy(w, a, id, w.clients[id].key)
  {
  }

  lemma VacatesExactly(w: World, a: Action, id: nat)
    requires Inv(w) && Can(w, a)
    ensures Vacates(w, a, id) <==> Held(w, id) && TakenBy(w, a, id, w.clients[id].key)
    ensures Vacates(w, a, id) && a.Call? && w.clients[a.id].pc.Exec? ==> Gone(w, w.clients[id].pc.released)
  {
    if Held(w, id) {
      if !a.Call? {
        QuietVacates(w, a, id);
      } else if w.clients[a.id].pc.Exec? {
        ExecVacates(w, a.id, id);
      } else if Submitting(w.clients[a.id].pc) {
        LookVacates(w, a.id, id);
      } else {
        assert ClientOk(w, w.clients[id]);
        if w.clients[a.id].pc.ReleaseGet? { ReadLeaves(w, a.id, id); } else { DeleteVacates(w, a.id, id); }
      }
    }
  }

  /** A record that a release has read is taken from under it by exactly these steps; by a submission
      only once the answered job has failed or expired. */
  lemma WhatVacates(acts: seq<Action>, a: Action, id: nat)
    requires Runs(EMPTY, acts) && Can(After(EMPTY, acts), a)
    ensures
      var w := After(EMPTY, acts);
      && (Vacates(w, a, id) <==> Held(w, id) && TakenBy(w, a, id, w.clients[id].key))
      && (Vacates(w, a, id) && a.Call? && w.clients[a.id].pc.Exec? ==> Gone(w, w.clients[id].pc.released))
  {
    InvRun(EMPTY, acts);
    VacatesExactly(After(EMPTY, acts), a, id);
  }

  // ---------- Without such a step no release takes another job's record ----------

  ghost predicate SteadyInv(w: World) {
    && Inv(w) && w.stray == {}
    && forall x | x in w.clients && w.clients[x].pc.ReleaseDelete? :: !w.clients[x].pc.vacated
  }

  lemma OnlyArrivals(w: World, a: Action, x: nat)
    requires Can(w, a) && x !in w.clients
    ensures x in Step(w, a).clients ==> Step(w, a).clients[x].pc.Look?
  {
    if a.Call? { CallKeepsClients(w, a.id); }
  }

  lemma ActorReads(w: World, a: Action)
    requires Can(w, a) && (a.Call? || a.Delivered?) && a.id in Step(w, a).clients
    ensures Step(w, a).clients[a.id].pc.ReleaseDelete? ==> !Step(w, a).clients[a.id].pc.vacated
  {
    if a.Call? { CallLeadsTo(w, a.id); }
  }

  lemma StillHeld(w: World, a: Action, x: nat)
    requires SteadyInv(w) && Can(w, a) && !Takes(w, a) && x in Step(w, a).clients
    ensures Step(w, a).clients[x].pc.ReleaseDelete? ==> !Step(w, a).clients[x].pc.vacated
  {
    if x !in w.clients {
      OnlyArrivals(w, a, x);
    } else if Foreign(a, x) {
      ForeignLeaves(w, a, x);
      VacatesExactly(w, a, x);
    } else {
      ActorReads(w, a);
    }
  }

  lemma StraySame(w: World, a: Action)
    requires SteadyInv(w) && Can(w, a)
    ensures Step(w, a).stray == {}
  {
    if a.Call? {
      var c := w.clients[a.id];
      if Submitting(c.pc) && !c.pc.Exec? {
        LookedIsNext(w, a.id);
      } else if c.pc.ReleaseDelete? {
        assert ClientOk(w, c);
      }
    }
  }

  lemma SteadyStep(w: World, a: Action)
    requires SteadyInv(w) && Can(w, a) && !Takes(w, a)
    ensures SteadyInv(Step(w, a))
  {
    InvStep(w, a);
    StraySame(w, a);
    var s := Step(w, a);
    forall x | x in s.clients && s.clients[x].pc.ReleaseDelete? ensures !s.clients[x].pc.vacated {
      StillHeld(w, a, x);
    }
  }

  lemma {:induction false} SteadyAlong(w: World, acts: seq<Action>)
    requires SteadyInv(w) && Steady(w, acts)
    ensures Runs(w, acts) && SteadyInv(After(w, acts))
    decreases |acts|
  {
    if acts != [] {
      SteadyStep(w, acts[0]);
      SteadyAlong(Step(w, acts[0]), acts[1..]);
    }
  }

  /** In every run without such a step no release ever takes another job's record, and the record a
      client is about to delete is still that of the job it was answered. */
  lemma ReleaseTakesOnlyItsOwn(acts: seq<Action>)
    requires Steady(EMPTY, acts)
    ensures Runs(EMPTY, acts)
    ensures
      var w := After(EMPTY, acts);
      && w.stray == {}
      && forall id | id in w.clients && w.clients[id].pc.ReleaseDelete? ::
         RecordIs(w, w.clients[id].key, w.clients[id].pc.released)
  {
    SteadyAlong(EMPTY, acts);
    var w := After(EMPTY, acts);
    forall id | id in w.clients && w.clients[id].pc.ReleaseDelete?
      ensures RecordIs(w, w.clients[id].key, w.clients[id].pc.released)
    {
      assert ClientOk(w, w.clients[id]);
    }
  }

  /** There, of two jobs queued under one request key, the earlier had failed, expired or been
      released. */
  lemma QueuedOnceWhileSteady(acts: seq<Action>, i: nat, j: nat)
    requires Steady(EMPTY, acts) && Runs(EMPTY, acts)
    requires
      var w := After(EMPTY, acts);
      i < j < |w.queued| && w.queued[i].key == w.queued[j].key
    ensures Settled(After(EMPTY, acts), After(EMPTY, acts).queued[i].job)
  {
    ReleaseTakesOnlyItsOwn(acts);
    QueuedOnce(acts, i, j);
  }

  // ---------- Such a step can make a release take another job's record ----------

  ghost predicate NoneHeld(w: World, key: nat) {
    forall x | Held(w, x) :: w.clients[x].key != key
  }

  /** A request that submits under a key whose record no release holds. */
  ghost predicate Submits(w: World, id: nat, key: nat) {
    id in w.clients ==> w.clients[id].key == key && (Submitting(w.clients[id].pc) || w.clients[id].pc.Waiting?)
  }

  lemma NextIsQuiet(w: World, a: Action, id: nat, key: nat)
    requires Can(w, a) && NoneHeld(w, key) && Submits(w, id, key)
    requires (a.Arrive? && a.id == id && a.key == key) || a == Call(id)
    ensures !Takes(w, a)
    ensures NoneHeld(Step(w, a), key) && Submits(Step(w, a), id, key)
  {
    var s := Step(w, a);
    forall x | Held(s, x) ensures s.clients[x].key != key {
      if x != id {
        if x in w.clients { ForeignLeaves(w, a, x); } else { OnlyArrivals(w, a, x); }
      } else if a.Call? {
        CallLeadsTo(w, id);
      }
    }
    if a.Call? {
      OwnCall(w, id);
      SubmitsOn(w, id);
    }
  }

  lemma SubmitsOn(w: World, id: nat)
    requires Can(w, Call(id)) && Submitting(w.clients[id].pc)
    ensures id in Called(w, id).clients
    ensures Submitting(Called(w, id).clients[id].pc) || Called(w, id).clients[id].pc.Waiting?
  {
    if !w.clients[id].pc.Exec? { LookedIsNext(w, id); }
  }

  lemma {:induction false} AloneIsSteady(w: World, acts: seq<Action>, id: nat, key: nat)
    requires Runs(w, acts) && Alone(acts, 0, id, key) && NoneHeld(w, key) && Submits(w, id, key)
    ensures Steady(w, acts) && NoneHeld(After(w, acts), key)
    decreases |acts|
  {
    if acts != [] {
      NextIsQuiet(w, acts[0], id, key);
      AloneIsSteady(Step(w, acts[0]), acts[1..], id, key);
    }
  }

  lemma {:induction false} SteadyOneMore(w: World, acts: seq<Action>, a: Action)
    requires Runs(w, acts) && Steady(w, acts) && Can(After(w, acts), a) && !Takes(After(w, acts), a)
    ensures Steady(w, acts + [a]) && Runs(w, acts + [a]) && After(w, acts + [a]) == Step(After(w, acts), a)
    decreases |acts|
  {
    if acts == [] {
      assert [a][1..] == [];
      assert acts + [a] == [a];
    } else {
      assert (acts + [a])[1..] == acts[1..] + [a];
      SteadyOneMore(Step(w, acts[0]), acts[1..], a);
    }
  }

  /** A run on from `w`, without failures, expiries or further such steps, in which a release takes
      another job's record. */
  ghost predicate LeadsToStray(w: World, acts: seq<Action>) {
    Runs(w, acts) && Smooth(acts) && Steady(w, acts) && After(w, acts).stray != {}
  }

  /** The release is out of date: its record is gone, or another's stands in its place. */
  ghost predicate OutOfDate(w: World, id: nat, key: nat) {
    && id in w.clients && w.clients[id].key == key && w.clients[id].pc.ReleaseDelete?
    && NoneHeld(w, key) && WasQueued(w.queued, w.clients[id].pc.released)
    && (key in w.records ==> w.records[key] != w.clients[id].pc.released)
  }

  lemma DeleteStrays(w: World, id: nat, key: nat)
    requires OutOfDate(w, id, key) && key in w.records
    ensures Can(w, Call(id)) && !Takes(w, Call(id)) && Step(w, Call(id)).stray != {}
  {
    assert w.records[key] in Step(w, Call(id)).stray;
  }

  lemma OutOfDateStrays(w: World, id: nat, key: nat) returns (acts: seq<Action>)
    requires OutOfDate(w, id, key)
    ensures LeadsToStray(w, acts)
  {
    if key in w.records {
      DeleteStrays(w, id, key);
      SteadyOneMore(w, [], Call(id));
      acts := [] + [Call(id)];
    } else {
      var other, job := SomeoneFresh(w, key, 0);
      var queue := QueueAlone(w, [], other, key, 0, job);
      AloneIsSteady(w, queue, other, key);
      SmoothAlone([], queue, other, key);
      var s := After(w, queue);
      NewRecord(w, other, id, key, job);
      DeleteStrays(s, id, key);
      SteadyOneMore(w, queue, Call(id));
      acts := queue + [Call(id)];
    }
  }

  lemma NewRecord(w: World, other: nat, id: nat, key: nat, job: nat)
    requires OutOfDate(w, id, key) && Fresh(w, other, key, 0, job)
    requires NoneHeld(QueuedAlone(w, other, key, 0, job), key)
    ensures
      var s := QueuedAlone(w, other, key, 0, job);
      OutOfDate(s, id, key) && key in s.records
  {
    var s := QueuedAlone(w, other, key, 0, job);
    assert w.clients[id].pc.vacated;
    assert s.clients[id] == w.clients[id];
    StaysQueued(w.queued, s.queued, w.clients[id].pc.released);
  }

  lemma NoneHeldAfter(w: World, a: Action, id: nat)
    requires Can(w, a) && Held(w, id) && TakenBy(w, a, id, w.clients[id].key)
    requires RecordIs(w, w.clients[id].key, w.clients[id].pc.released)
    ensures NoneHeld(Step(w, a), w.clients[id].key)
  {
  }

  /** After the step the release it hit is out of date. */
  lemma TakingLeaves(w: World, a: Action, id: nat)
    requires Inv(w) && Can(w, a) && Vacates(w, a, id)
    ensures OutOfDate(Step(w, a), id, w.clients[id].key)
  {
    var s, c := Step(w, a), w.clients[id];
    VacatesExactly(w, a, id);
    assert ClientOk(w, c);
    NoneHeldAfter(w, a, id);
    InvStep(w, a);
    assert s.clients[id].key == c.key by { ForeignLeaves(w, a, id); }
    assert ClientOk(s, s.clients[id]);
  }

  /** A step can make a release take another job's record if and only if it takes a record from under a
      release that has read it. */
  lemma TakenExactly(acts: seq<Action>, a: Action)
    requires Steady(EMPTY, acts) && Runs(EMPTY, acts) && Can(After(EMPTY, acts), a)
    ensures
      var w := After(EMPTY, acts);
      Takes(w, a) <==> exists more :: LeadsToStray(Step(w, a), more)
  {
    var w := After(EMPTY, acts);
    SteadyAlong(EMPTY, acts);
    if Takes(w, a) {
      var id :| Held(w, id) && TakenBy(w, a, id, w.clients[id].key);
      VacatesExactly(w, a, id);
      TakingLeaves(w, a, id);
      var more := OutOfDateStrays(Step(w, a), id, w.clients[id].key);
      assert LeadsToStray(Step(w, a), more);
    } else {
      SteadyStep(w, a);
      forall more | Steady(Step(w, a), more) ensures !LeadsToStray(Step(w, a), more) {
        SteadyAlong(Step(w, a), more);
      }
    }
  }

  // ---------- A simple way to keep clear of it ----------

  /** No two clients are about to delete the same request's record. */
  ghost predicate Apart(w: World) {
    forall x, y | x in w.clients && y in w.clients && w.clients[x].key == w.clients[y].key
      && w.clients[x].pc.ReleaseDelete? && w.clients[y].pc.ReleaseDelete? :: x == y
  }

  predicate Ordinary(a: Action) { !a.ExpireRecord? && !a.ExpireStatus? && !a.GiveUp? }

  ghost predicate Calm(w: World, acts: seq<Action>)
    decreases |acts|
  {
    acts == []
    || (Can(w, acts[0]) && Ordinary(acts[0]) && Apart(Step(w, acts[0])) && Calm(Step(w, acts[0]), acts[1..]))
  }

  /** A release is of a job that won, and such a job is running or done. */
  ghost predicate Winning(w: World) {
    && (forall j | j in w.won :: j in w.status && (w.status[j].Running? || w.status[j].Done?))
    && (forall x | x in w.clients && w.clients[x].pc.ReleaseGet? :: w.clients[x].pc.answered in w.won)
    && (forall x | x in w.clients && w.clients[x].pc.ReleaseDelete? :: w.clients[x].pc.released in w.won)
  }

  ghost predicate CalmInv(w: World) {
    SteadyInv(w) && Apart(w) && Winning(w)
  }

  lemma CallOnWon(w: World, id: nat)
    requires Can(w, Call(id))
    ensures
      var c, s := w.clients[id], Called(w, id);
      && s.won == w.won
      && (s.status == w.status || (c.pc.Exec? && s.status == w.status[c.job := Queued]))
  {
    var pc := w.clients[id].pc;
    if Submitting(pc) && !pc.Exec? { LookedIsNext(w, id); }
  }

  lemma WonStaysLive(w: World, a: Action)
    requires Inv(w) && Winning(w) && Can(w, a) && Ordinary(a)
    ensures
      var s := Step(w, a);
      w.won <= s.won && forall j | j in s.won :: j in s.status && (s.status[j].Running? || s.status[j].Done?)
  {
    if a.Call? {
      var c := w.clients[a.id];
      CallOnWon(w, a.id);
      if c.pc.Exec? {
        assert !WasQueued(w.queued, c.job);
        assert c.job !in w.won;
      }
    }
  }

  lemma ReleaserWins(w: World, a: Action, x: nat)
    requires Winning(w) && Can(w, a) && x in Step(w, a).clients
    ensures
      var pc := Step(w, a).clients[x].pc;
      (pc.ReleaseGet? ==> pc.answered in w.won) && (pc.ReleaseDelete? ==> pc.released in w.won)
  {
    if x !in w.clients {
      OnlyArrivals(w, a, x);
    } else if Foreign(a, x) {
      ForeignLeaves(w, a, x);
    } else if a.Call? {
      CallLeadsTo(w, x);
    }
  }

  lemma WinningStep(w: World, a: Action)
    requires Inv(w) && Winning(w) && Can(w, a) && Ordinary(a)
    ensures Winning(Step(w, a))
  {
    WonStaysLive(w, a);
    var s := Step(w, a);
    forall x | x in s.clients
      ensures s.clients[x].pc.ReleaseGet? ==> s.clients[x].pc.answered in s.won
      ensures s.clients[x].pc.ReleaseDelete? ==> s.clients[x].pc.released in s.won
    {
      ReleaserWins(w, a, x);
    }
  }

  lemma NothingTakes(w: World, a: Action)
    requires CalmInv(w) && Can(w, a) && Ordinary(a)
    ensures !Takes(w, a)
  {
    forall id | Held(w, id) ensures !TakenBy(w, a, id, w.clients[id].key) {
      assert !Gone(w, w.clients[id].pc.released);
      VacatesExactly(w, a, id);
    }
  }

  /** In a run in which nothing expires, no finished job is given up and no two clients are about to
      delete the same record, no step takes a record from under a release. */
  lemma {:induction false} CalmIsSteady(w: World, acts: seq<Action>)
    requires CalmInv(w) && Calm(w, acts)
    ensures Steady(w, acts)
    decreases |acts|
  {
    if acts != [] {
      NothingTakes(w, acts[0]);
      SteadyStep(w, acts[0]);
      WinningStep(w, acts[0]);
      CalmIsSteady(Step(w, acts[0]), acts[1..]);
    }
  }

  /** In such a run of two jobs queued under one request key the earlier had failed or been released. */
  lemma QueuedOnceInCalm(acts: seq<Action>, i: nat, j: nat)
    requires Calm(EMPTY, acts) && Runs(EMPTY, acts)
    requires
      var w := After(EMPTY, acts);
      i < j < |w.queued| && w.queued[i].key == w.queued[j].key
    ensures Steady(EMPTY, acts) && Settled(After(EMPTY, acts), After(EMPTY, acts).queued[i].job)
  {
    CalmIsSteady(EMPTY, acts);
    QueuedOnceWhileSteady(acts, i, j);
  }
}
