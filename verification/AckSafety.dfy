/** What an acked entry promises when entries may be reclaimed from live tasks
    (services/agent/src/queue/consumer.py, services/agent/src/worker/handler.py). */
module AckSafety {
  import opened JobProtocol
  import opened JobSafety
  import opened RunOnce
  import opened Wrappers

  /** On the dead list, or finished with its outcome told. */
  ghost predicate Accounted(r: Record) {
    r.parked > 0 || (r.valid && Finished(r.status) && HasOutcome(r.log))
  }

  /** A task that gives up a job delivered too often. */
  predicate GivingUp(pc: Pc) {
    (pc.Publish? && pc.dead) || (pc.MarkFinished? && pc.afterDead) || pc.Park?
  }

  ghost predicate TooOften(r: Record, max: nat) {
    && (forall x | x in r.tasks && GivingUp(r.tasks[x].pc) :: r.deliveries > max)
    && (r.parked > 0 ==> r.deliveries > max)
  }

  /** Next to a task about to mark the job running there are only tasks that give it up. */
  ghost predicate MarksAlone(r: Record, max: nat) {
    forall x | x in r.tasks && r.tasks[x].pc.MarkRunning? ::
      && !r.place.Acked? && (r.status.Queued? || r.deliveries > max)
      && forall y | y in r.tasks && y != x :: GivingUp(r.tasks[y].pc)
  }

  ghost predicate Acking(r: Record) {
    r.place.Acked? || exists x :: x in r.tasks && r.tasks[x].pc.Ack?
  }

  ghost predicate NotParked(r: Record, max: nat) {
    && MarksAlone(r, max)
    && (r.status.Queued? ==> forall x | x in r.tasks :: Early(r.tasks[x]) || GivingUp(r.tasks[x].pc))
    && (Acking(r) ==> Finished(r.status))
  }

  ghost predicate AckInv(r: Record, max: nat) {
    && OnceInv(r)
    && (if r.valid then TooOften(r, max) && (r.parked == 0 ==> NotParked(r, max))
        else (forall x | x in r.tasks :: r.tasks[x].pc.Park? || r.tasks[x].pc.Ack?) && (Acking(r) ==> r.parked > 0))
  }

  lemma TakeKeepsAck(r: Record, a: Action, max: nat)
    requires AckInv(r, max) && Can(r, a, false) && !Untimely(r, a, max) && (a.Deliver? || a.Reclaim?)
    ensures AckInv(Step(r, a, max), max)
  {
    TakeKeepsOnce(r, a, max);
    var s := Step(r, a, max);
    if Acking(s) {
      var x :| x in s.tasks && s.tasks[x].pc.Ack?;
      assert x in r.tasks;
      assert Acking(r);
    }
    assert forall x | x in r.tasks && r.tasks[x].pc.MarkRunning? :: Early(r.tasks[x]);
  }

  lemma InvalidCall(r: Record, id: nat, lost: bool, max: nat)
    requires AckInv(r, max) && !r.valid && Can(r, Call(id, lost), false)
    ensures AckInv(Step(r, Call(id, lost), max), max)
  {
    CallKeepsOnce(r, id, lost, max);
    var s := Step(r, Call(id, lost), max);
    if r.tasks[id].pc.Ack? { assert Acking(r); }
    if Acking(s) && !s.place.Acked? {
      var x :| x in s.tasks && s.tasks[x].pc.Ack?;
      if x != id { assert Acking(r); }
    }
  }

  lemma CallKeepsTooOften(r: Record, id: nat, lost: bool, max: nat)
    requires TooOften(r, max) && r.valid && Can(r, Call(id, lost), false)
    ensures TooOften(Step(r, Call(id, lost), max), max)
  {
  }

  lemma CallKeepsMarksAlone(r: Record, id: nat, lost: bool, max: nat)
    requires AckInv(r, max) && r.valid && r.parked == 0 && Can(r, Call(id, lost), false) && !r.tasks[id].pc.Park?
    ensures MarksAlone(Step(r, Call(id, lost), max), max)
  {
    if r.tasks[id].pc.ReadStatus? {
      assert Acking(r) ==> Finished(r.status);
    } else if r.tasks[id].pc.Ack? {
      assert Acking(r);
    }
  }

  lemma CallKeepsAcking(r: Record, id: nat, lost: bool, max: nat)
    requires AckInv(r, max) && r.valid && r.parked == 0 && Can(r, Call(id, lost), false) && !r.tasks[id].pc.Park?
    ensures
      var s := Step(r, Call(id, lost), max);
      Acking(s) ==> Finished(s.status)
  {
    var s := Step(r, Call(id, lost), max);
    if Acking(s) {
      if r.tasks[id].pc.Ack? || s.place.Acked? {
        assert Acking(r);
      } else {
        var x :| x in s.tasks && s.tasks[x].pc.Ack?;
        if x != id { assert Acking(r); }
      }
    }
  }

  lemma CallKeepsAck(r: Record, id: nat, lost: bool, max: nat)
    requires AckInv(r, max) && Can(r, Call(id, lost), false)
    ensures AckInv(Step(r, Call(id, lost), max), max)
  {
    if !r.valid {
      InvalidCall(r, id, lost, max);
    } else {
      CallKeepsOnce(r, id, lost, max);
      CallKeepsTooOften(r, id, lost, max);
      if r.parked == 0 && !r.tasks[id].pc.Park? {
        CallKeepsMarksAlone(r, id, lost, max);
        CallKeepsAcking(r, id, lost, max);
      }
    }
  }

  /** A task that only runs, ends or dies. */
  lemma OwnKeepsAck(r: Record, a: Action, max: nat)
    requires AckInv(r, max) && Can(r, a, false) && (a.Emit? || a.Conclude? || a.Die?)
    ensures AckInv(Step(r, a, max), max)
  {
    var s := Step(r, a, max);
    if Acking(s) {
      if !s.place.Acked? {
        var x :| x in s.tasks && s.tasks[x].pc.Ack?;
        assert x in r.tasks && r.tasks[x].pc.Ack?;
      }
      assert Acking(r);
    }
  }

  lemma StepKeepsAck(r: Record, a: Action, max: nat)
    requires AckInv(r, max) && Can(r, a, false) && !Untimely(r, a, max)
    ensures AckInv(Step(r, a, max), max)
  {
    match a {
      case Deliver(_, _) => TakeKeepsAck(r, a, max);
      case Reclaim(_, _) => TakeKeepsAck(r, a, max);
      case Call(id, lost) => CallKeepsAck(r, id, lost, max);
      case _ => OwnKeepsAck(r, a, max);
    }
  }

  lemma {:induction false} AckAlong(r: Record, acts: seq<Action>, max: nat)
    requires AckInv(r, max) && Timely(r, acts, max)
    ensures Runs(r, acts, max, false) && AckInv(After(r, acts, max), max)
    decreases |acts|
  {
    if acts != [] {
      StepKeepsAck(r, acts[0], max);
      AckAlong(Step(r, acts[0], max), acts[1..], max);
    }
  }

  /** Even if live entries are reclaimed: as long as no reclaim is untimely, an acked entry is on
      `jobs:dead`, or its job is finished and its outcome told. */
  lemma AckedIsAccountedFor(valid: bool, acts: seq<Action>, max: nat)
    requires Timely(Submitted(valid), acts, max)
    ensures Runs(Submitted(valid), acts, max, false)
    ensures
      var r := After(Submitted(valid), acts, max);
      r.place.Acked? ==> Accounted(r)
  {
    AckAlong(Submitted(valid), acts, max);
    OutcomeFirstAlong(Submitted(valid), acts, max);
    var r := After(Submitted(valid), acts, max);
    assert r.place.Acked? ==> Acking(r);
    if Finished(r.status) { FinishedHasOutcome(r); }
  }

  // ---------- An untimely reclaim can ack a job left running ----------

  lemma RunsToAck(r: Record, x: nat, y: nat, max: nat) returns (acts: seq<Action>)
    requires x != y && x in r.tasks && y in r.tasks
    requires r.tasks[x].pc.MarkRunning? && r.tasks[y].pc == Publish(DoneEvent, false)
    ensures Timely(r, acts, max) && Runs(r, acts, max, false)
    ensures
      var s := After(r, acts, max);
      s.place.Acked? && s.status.Running? && s.parked == r.parked
  {
    var s1 := Step(r, Call(y, false), max);
    var s2 := Step(s1, Call(y, false), max);
    var s3 := Step(s2, Call(y, false), max);
    PrependTimely(s3, Call(x, true), [], max);
    acts := [Call(x, true)] + [];
    PrependTimely(s2, Call(y, false), acts, max);
    acts := [Call(y, false)] + acts;
    PrependTimely(s1, Call(y, false), acts, max);
    acts := [Call(y, false)] + acts;
    PrependTimely(r, Call(y, false), acts, max);
    acts := [Call(y, false)] + acts;
  }

  /** Of two tasks about to mark the job running one runs it to the ack, and then the other marks it
      running and dies. */
  lemma LeftRunning(r: Record, x: nat, y: nat, max: nat) returns (acts: seq<Action>)
    requires x != y && x in r.tasks && y in r.tasks && r.tasks[x].pc.MarkRunning? && r.tasks[y].pc.MarkRunning?
    ensures Timely(r, acts, max) && Runs(r, acts, max, false)
    ensures
      var s := After(r, acts, max);
      s.place.Acked? && s.status.Running? && s.parked == r.parked
  {
    var s1 := Step(r, Call(y, false), max);
    var s2 := Step(s1, Conclude(y, DoneEvent), max);
    acts := RunsToAck(s2, x, y, max);
    PrependTimely(s1, Conclude(y, DoneEvent), acts, max);
    acts := [Conclude(y, DoneEvent)] + acts;
    PrependTimely(r, Call(y, false), acts, max);
    acts := [Call(y, false)] + acts;
  }

  /** Two early tasks on a queued job come to that. */
  lemma EarlyLeftRunning(r: Record, x: nat, y: nat, max: nat) returns (acts: seq<Action>)
    requires x != y && x in r.tasks && y in r.tasks
      && Early(r.tasks[x]) && r.tasks[y].pc.ReadStatus? && r.status.Queued?
    ensures Timely(r, acts, max) && Runs(r, acts, max, false)
    ensures
      var s := After(r, acts, max);
      s.place.Acked? && s.status.Running? && s.parked == r.parked
  {
    ReadsQueued(r, y, x, max);
    var s := Step(r, Call(y, false), max);
    if r.tasks[x].pc.MarkRunning? {
      acts := LeftRunning(s, x, y, max);
    } else {
      ReadsQueued(s, x, y, max);
      acts := LeftRunning(Step(s, Call(x, false), max), x, y, max);
      PrependTimely(s, Call(x, false), acts, max);
      acts := [Call(x, false)] + acts;
    }
    PrependTimely(r, Call(y, false), acts, max);
    acts := [Call(y, false)] + acts;
  }

  ghost predicate LeadsToUnaccounted(r: Record, acts: seq<Action>, max: nat) {
    && Timely(r, acts, max) && Runs(r, acts, max, false)
    && After(r, acts, max).place.Acked? && !Accounted(After(r, acts, max))
  }

  /** A reclaim can lead to an acked entry whose job is neither finished nor on `jobs:dead` exactly when
      it is untimely. */
  lemma UnaccountedExactly(valid: bool, acts: seq<Action>, id: nat, kept: bool, max: nat)
    requires Timely(Submitted(valid), acts, max) && Runs(Submitted(valid), acts, max, false)
    requires Can(After(Submitted(valid), acts, max), Reclaim(id, kept), false)
    ensures
      var r, a := After(Submitted(valid), acts, max), Reclaim(id, kept);
      Untimely(r, a, max) <==> exists more :: LeadsToUnaccounted(Step(r, a, max), more, max)
  {
    var r, a := After(Submitted(valid), acts, max), Reclaim(id, kept);
    AckAlong(Submitted(valid), acts, max);
    OutcomeFirstAlong(Submitted(valid), acts, max);
    var s := Step(r, a, max);
    if Untimely(r, a, max) {
      var x :| x in r.tasks && Early(r.tasks[x]);
      var more := EarlyLeftRunning(s, x, id, max);
      assert LeadsToUnaccounted(s, more, max);
    } else {
      StepKeepsAck(r, a, max);
      OutcomeFirstStep(r, a, max);
      forall more | Timely(s, more, max) ensures !LeadsToUnaccounted(s, more, max) {
        AckAlong(s, more, max);
        OutcomeFirstAlong(s, more, max);
        var end := After(s, more, max);
        assert end.place.Acked? ==> Acking(end);
        if Finished(end.status) { FinishedHasOutcome(end); }
      }
    }
  }
}
