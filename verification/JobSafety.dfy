/** What the job protocol keeps over every interleaving, crash and lost reply. */
module JobSafety {
  import opened JobProtocol
  import opened RunOnce
  import opened Wrappers

  ghost predicate HasOutcome(log: seq<Event>) {
    exists i :: 0 <= i < |log| && Terminal(log[i])
  }

  /** Every event but the last is no outcome. */
  ghost predicate OutcomeOnlyLast(log: seq<Event>) {
    forall i :: 0 <= i < |log| - 1 ==> !Terminal(log[i])
  }

  ghost predicate EndsWith(log: seq<Event>, e: Event) {
    log != [] && log[|log| - 1] == e
  }

  /** What holds of a record while a task on it is at `t`. */
  ghost predicate TaskInv(r: Record, t: Task, max: nat) {
    && r.place.Pending? && t.count == r.deliveries
    && match t.pc
       case ReadStatus => r.valid && r.deliveries <= max
       case MarkRunning => r.valid && r.deliveries <= max && r.status.Queued?
       case Executing => r.valid && r.deliveries <= max && r.status.Running? && r.starts == 1 && !HasOutcome(r.log)
       case Publish(outcome, dead) =>
         && r.valid && Terminal(outcome)
         && (if dead then r.deliveries > max && outcome == ABANDONED
             else r.deliveries <= max && r.status.Running? && !HasOutcome(r.log))
       case MarkFinished(outcome, dead) =>
         && r.valid && HasOutcome(r.log) && Terminal(outcome)
         && (if dead then r.deliveries > max && outcome == ABANDONED
             else r.deliveries <= max && r.status.Running? && EndsWith(r.log, outcome))
       case ReadLog => r.valid && r.deliveries <= max && r.status.Running?
       case Park => if r.valid then r.deliveries > max && Finished(r.status) else true
       case Ack => if r.valid then Finished(r.status) else r.parked > 0
  }

  ghost predicate Inv(r: Record, max: nat) {
    && (forall x, y | x in r.tasks && y in r.tasks :: x == y)
    && (forall x | x in r.tasks :: TaskInv(r, r.tasks[x], max))
    && (r.place.Unread? ==> r.tasks == map[] && r.deliveries == 0)
    && (r.place.Acked? ==> r.tasks == map[] && if r.valid then Finished(r.status) else r.parked > 0)
    && r.starts <= 1
    && (r.status.Queued? ==> r.starts == 0 && (r.deliveries <= max ==> r.log == []))
    && (!r.valid ==> r.status.Queued? && r.log == [])
    && (Finished(r.status) ==> HasOutcome(r.log))
    && (r.deliveries <= max ==>
          && OutcomeOnlyLast(r.log)
          && (Finished(r.status) ==> r.log != [] && r.status == StatusFor(r.log[|r.log| - 1])))
  }

  lemma LogGrows(log: seq<Event>, e: Event)
    ensures HasOutcome(log) ==> HasOutcome(log + [e])
    ensures Terminal(e) ==> HasOutcome(log + [e])
    ensures HasOutcome(log + [e]) ==> HasOutcome(log) || Terminal(e)
    ensures !HasOutcome(log) ==> OutcomeOnlyLast(log + [e])
  {
    var more := log + [e];
    assert more[|log|] == e;
    assert forall i | 0 <= i < |log| :: more[i] == log[i];
  }

  lemma InvTake(r: Record, id: nat, kept: bool, max: nat)
    requires Inv(r, max) && !r.place.Acked? && r.tasks == map[]
    ensures Inv(Started(r, id, kept, max), max)
  {
  }

  lemma InvEmit(r: Record, id: nat, max: nat)
    requires Inv(r, max) && id in r.tasks && r.tasks[id].pc.Executing?
    ensures Inv(r.(log := r.log + [Token]), max)
  {
    LogGrows(r.log, Token);
    assert TaskInv(r, r.tasks[id], max);
  }

  /** The broker's side of a call keeps what the task's next step needs. */
  lemma InvEffect(r: Record, t: Task, max: nat)
    requires Inv(r, max) && TaskInv(r, t, max) && !t.pc.Executing?
    ensures
      var s := Effect(r, t.pc).(tasks := map[]);
      && Inv(s, max)
      && var next := NextPc(r, t.pc);
         next.Some? ==> 
           TaskInv(s.(starts := if next.value.Executing? then s.starts + 1 else s.starts), t.(pc := next.value), max)
  {
    if t.pc.Publish? { LogGrows(r.log, t.pc.outcome); }
  }

  lemma InvDie(r: Record, id: nat, max: nat)
    requires Inv(r, max) && id in r.tasks
    ensures r.tasks - {id} == map[] && Inv(r.(tasks := map[]), max)
  {
    assert forall x | x in r.tasks :: x == id;
  }

  lemma InvCall(r: Record, id: nat, lost: bool, max: nat)
    requires Inv(r, max) && Can(r, Call(id, lost), true)
    ensures Inv(Step(r, Call(id, lost), max), max)
  {
    var t, s := r.tasks[id], Step(r, Call(id, lost), max);
    var next, e := NextPc(r, t.pc), Effect(r, t.pc);
    assert TaskInv(r, t, max);
    InvEffect(r, t, max);
    InvDie(r, id, max);
    if lost || next.None? {
      assert s == e.(tasks := map[]);
    } else {
      assert s.tasks.Keys == {id};
      OneTask(e.(tasks := map[]), s, id, t.(pc := next.value), max);
    }
  }

  lemma OneTask(r: Record, s: Record, id: nat, t: Task, max: nat)
    requires Inv(r, max) && s.starts <= 1 && (s.status.Queued? ==> s.starts == 0)
    requires s == r.(tasks := s.tasks, starts := s.starts) && s.tasks.Keys == {id} && s.tasks[id] == t
    requires TaskInv(r.(starts := s.starts), t, max)
    ensures Inv(s, max)
  {
    assert TaskInv(s, t, max);
  }

  lemma InvStep(r: Record, a: Action, max: nat)
    requires Inv(r, max) && Can(r, a, true)
    ensures Inv(Step(r, a, max), max)
  {
    match a {
      case Deliver(id, kept) => InvTake(r, id, kept, max);
      case Reclaim(id, kept) => InvTake(r, id, kept, max);
      case Call(id, lost) => InvCall(r, id, lost, max);
      case Emit(id) => InvEmit(r, id, max);
      case Conclude(id, outcome) =>
        InvDie(r, id, max);
        assert TaskInv(r, r.tasks[id], max);
        OneTask(r.(tasks := map[]), Step(r, a, max), id, r.tasks[id].(pc := Publish(outcome, false)), max);
      case Die(id) => InvDie(r, id, max);
    }
  }

  lemma {:induction false} InvRun(r: Record, acts: seq<Action>, max: nat)
    requires Inv(r, max) && Runs(r, acts, max, true)
    ensures Runs(r, acts, max, false) && Inv(After(r, acts, max), max)
    decreases |acts|
  {
    if acts != [] {
      InvStep(r, acts[0], max);
      InvRun(Step(r, acts[0], max), acts[1..], max);
    }
  }

  // ---------- Every run, from submission on ----------

  lemma InvSubmitted(valid: bool, max: nat)
    ensures Inv(Submitted(valid), max)
  {
  }

  /** However deliveries interleave, workers die and replies are lost, the run of a job starts at
      most once while no live task's entry is reclaimed; `RunOnce` has the exact condition. */
  lemma RunsAtMostOnce(valid: bool, acts: seq<Action>, max: nat)
    requires Runs(Submitted(valid), acts, max, true)
    ensures Runs(Submitted(valid), acts, max, false)
    ensures After(Submitted(valid), acts, max).starts <= 1
  {
    ExclusiveIsTimely(Submitted(valid), acts, max);
    StartsAtMostOnce(valid, acts, max);
  }

  /** An entry leaves the pending list only with its outcome told and its status finished, or, when
      its payload is no job, once it is on `jobs:dead`. */
  lemma AckedIsAccountedFor(valid: bool, acts: seq<Action>, max: nat)
    requires Runs(Submitted(valid), acts, max, true)
    ensures Runs(Submitted(valid), acts, max, false)
    ensures
      var r := After(Submitted(valid), acts, max);
      r.place.Acked? ==> if valid then Finished(r.status) && HasOutcome(r.log) else r.parked > 0
    ensures
      var r := After(Submitted(valid), acts, max);
      Finished(r.status) ==> HasOutcome(r.log)
  {
    InvSubmitted(valid, max);
    InvRun(Submitted(valid), acts, max);
    ValidStays(Submitted(valid), acts, max);
  }

  lemma {:induction false} ValidStays(r: Record, acts: seq<Action>, max: nat)
    requires Runs(r, acts, max, false)
    ensures After(r, acts, max).valid == r.valid
    decreases |acts|
  {
    if acts != [] { ValidStays(Step(r, acts[0], max), acts[1..], max); }
  }

  /** Until a delivery exceeds the maximum, the log holds at most one outcome, last, and a finished
      status says which: done exactly when it is `done`, failed exactly when it is an error. */
  lemma OneOutcomeUntilAbandoned(valid: bool, acts: seq<Action>, max: nat)
    requires Runs(Submitted(valid), acts, max, true)
    ensures Runs(Submitted(valid), acts, max, false)
    ensures
      var r := After(Submitted(valid), acts, max);
      r.deliveries <= max ==>
        && OutcomeOnlyLast(r.log)
        && (Finished(r.status) ==>
              && r.log != [] && (r.status.Done? <==> r.log[|r.log| - 1].DoneEvent?)
              && (r.status.Failed? <==> r.log[|r.log| - 1].ErrorEvent?))
  {
    InvSubmitted(valid, max);
    InvRun(Submitted(valid), acts, max);
  }

  function Rank(s: Status): nat {
    match s case Queued => 0 case Running => 1 case _ => 2
  }

  /** The status moves from queued to running to finished and then stays, except that giving a job
      up marks it failed whatever is there: a finished status changes exactly when `dead` marks a job
      that was done. */
  lemma StatusMovesForward(r: Record, a: Action, max: nat)
    requires Inv(r, max) && Can(r, a, true)
    ensures
      var abandons := a.Call? && r.tasks[a.id].pc.MarkFinished? && r.tasks[a.id].pc.afterDead;
      var s := Step(r, a, max).status;
      && Rank(r.status) <= Rank(s)
      && (Finished(r.status) ==> (s != r.status <==> abandons && r.status.Done?))
      && (abandons ==> r.deliveries > max && s.Failed?)
  {
    if a.Call? { assert TaskInv(r, r.tasks[a.id], max); }
  }

  /** Nothing is ever removed from the log, so the first outcome stays the first. */
  lemma {:induction false} LogOnlyGrows(r: Record, acts: seq<Action>, max: nat)
    requires Runs(r, acts, max, false)
    ensures r.log <= After(r, acts, max).log
    decreases |acts|
  {
    if acts != [] { LogOnlyGrows(Step(r, acts[0], max), acts[1..], max); }
  }

  // ---------- The outcome comes first in every run ----------

  ghost predicate HasError(log: seq<Event>) {
    exists e :: e in log && e.ErrorEvent?
  }

  /** What holds even where entries are reclaimed from live tasks: a job is marked only as an outcome on
      its log says. */
  ghost predicate OutcomeFirst(r: Record) {
    && (r.status.Done? ==> DoneEvent in r.log)
    && (r.status.Failed? ==> HasError(r.log))
    && (forall x | x in r.tasks && r.tasks[x].pc.MarkFinished? ::
          Terminal(r.tasks[x].pc.marked) && r.tasks[x].pc.marked in r.log)
    && (forall x | x in r.tasks && r.tasks[x].pc.Publish? :: Terminal(r.tasks[x].pc.outcome))
  }

  lemma OnLog(log: seq<Event>, e: Event)
    requires e in log && Terminal(e)
    ensures HasOutcome(log) && (e.ErrorEvent? ==> HasError(log))
  {
    var i :| 0 <= i < |log| && log[i] == e;
    assert Terminal(log[i]);
  }

  lemma FinishedHasOutcome(r: Record)
    requires OutcomeFirst(r) && Finished(r.status)
    ensures HasOutcome(r.log)
  {
    if r.status.Done? {
      OnLog(r.log, DoneEvent);
    } else {
      var e :| e in r.log && e.ErrorEvent?;
      OnLog(r.log, e);
    }
  }

  lemma LongerLogKeeps(r: Record, e: Event)
    requires OutcomeFirst(r)
    ensures OutcomeFirst(r.(log := r.log + [e]))
  {
    if HasError(r.log) {
      var x :| x in r.log && x.ErrorEvent?;
      assert x in r.log + [e];
    }
  }

  /** The effect of a task's call, and what the task knows after it. */
  lemma OutcomeFirstEffect(r: Record, id: nat)
    requires OutcomeFirst(r) && id in r.tasks
    ensures
      var pc := r.tasks[id].pc;
      var s, next := Effect(r, pc), NextPc(r, pc);
      && OutcomeFirst(s)
      && (next.Some? && next.value.MarkFinished? ==> Terminal(next.value.marked) && next.value.marked in s.log)
      && (next.Some? && next.value.Publish? ==> Terminal(next.value.outcome))
  {
    var pc := r.tasks[id].pc;
    if pc.Publish? {
      LongerLogKeeps(r, pc.outcome);
    } else if pc.MarkFinished? {
      OnLog(r.log, pc.marked);
    }
  }

  lemma OutcomeFirstStep(r: Record, a: Action, max: nat)
    requires OutcomeFirst(r) && Can(r, a, false)
    ensures OutcomeFirst(Step(r, a, max))
  {
    match a {
      case Call(id, lost) => OutcomeFirstEffect(r, id);
      case Emit(_) => LongerLogKeeps(r, Token);
      case _ =>
    }
  }

  lemma {:induction false} OutcomeFirstAlong(r: Record, acts: seq<Action>, max: nat)
    requires OutcomeFirst(r) && Runs(r, acts, max, false)
    ensures OutcomeFirst(After(r, acts, max))
    decreases |acts|
  {
    if acts != [] {
      OutcomeFirstStep(r, acts[0], max);
      OutcomeFirstAlong(Step(r, acts[0], max), acts[1..], max);
    }
  }

  /** In every run, reclaims of live entries included, a job marked done has `done` on its log, and one
      marked failed an error. */
  lemma StatusIsTold(valid: bool, acts: seq<Action>, max: nat)
    requires Runs(Submitted(valid), acts, max, false)
    ensures
      var r := After(Submitted(valid), acts, max);
      && (r.status.Done? ==> DoneEvent in r.log)
      && (r.status.Failed? ==> exists e :: e in r.log && e.ErrorEvent?)
  {
    OutcomeFirstAlong(Submitted(valid), acts, max);
  }

  // ---------- Nothing is stuck ----------

  /** A task alone on its record, with no call failing, brings the entry to an end. */
  lemma {:induction false} TaskCompletes(r: Record, id: nat, max: nat, fuel: nat) returns (acts: seq<Action>)
    requires Inv(r, max) && r.tasks.Keys == {id} && Distance(r.tasks[id].pc) <= fuel
    ensures Runs(r, acts, max, true) && Runs(r, acts, max, false) && After(r, acts, max).place.Acked?
    decreases fuel
  {
    var a := Onward(id, r.tasks[id].pc);
    NearerTheEnd(r, id, max);
    InvStep(r, a, max);
    if r.tasks[id].pc.Ack? {
      Prepend(r, a, [], max, true);
      acts := [a] + [];
    } else {
      var rest := TaskCompletes(Step(r, a, max), id, max, fuel - 1);
      Prepend(r, a, rest, max, true);
      acts := [a] + rest;
    }
  }

  /** A task's own next step, with no call failing. */
  function Onward(id: nat, pc: Pc): Action {
    if pc.Executing? then Conclude(id, DoneEvent) else Call(id, false)
  }

  lemma NearerTheEnd(r: Record, id: nat, max: nat)
    requires Inv(r, max) && r.tasks.Keys == {id}
    ensures
      var pc := r.tasks[id].pc;
      && Can(r, Onward(id, pc), true) && Can(r, Onward(id, pc), false)
      && var s := Step(r, Onward(id, pc), max);
         && (if pc.Ack? then s.place.Acked? else s.tasks.Keys == {id} && Distance(s.tasks[id].pc) < Distance(pc))
  {
    assert TaskInv(r, r.tasks[id], max);
  }

  /** How many steps a task is from its end, at most. */
  function Distance(pc: Pc): nat {
    match pc
    case Ack => 1
    case Park => 2
    case MarkFinished(_, _) => 3
    case Publish(_, _) => 4
    case Executing => 5
    case ReadLog => 5
    case MarkRunning => 6
    case ReadStatus => 7
  }

  /** No job is lost: whatever happened before, once no task is left on an entry that was not
      acked, one more delivery without failures brings it to an end. */
  lemma NeverStuck(valid: bool, acts: seq<Action>, max: nat) returns (more: seq<Action>)
    requires Runs(Submitted(valid), acts, max, true) && Runs(Submitted(valid), acts, max, false)
    requires
      var r := After(Submitted(valid), acts, max);
      r.tasks == map[] && !r.place.Acked?
    ensures
      var r := After(Submitted(valid), acts, max);
      Runs(r, more, max, true) && Runs(r, more, max, false) && After(r, more, max).place.Acked?
  {
    var r := After(Submitted(valid), acts, max);
    InvSubmitted(valid, max);
    InvRun(Submitted(valid), acts, max);
    var take := if r.place.Unread? then Deliver(0, true) else Reclaim(0, true);
    InvStep(r, take, max);
    var s := Step(r, take, max);
    assert s.tasks.Keys == {0};
    var rest := TaskCompletes(s, 0, max, 7);
    Prepend(r, take, rest, max, true);
    more := [take] + rest;
  }

  // ---------- Where the promises end ----------

  /** Without the keep-alive's promise a job can run twice: the entry is reclaimed while its first
      task has read the status but not yet marked it. */
  lemma ReclaimedAliveRunsTwice() returns (acts: seq<Action>)
    ensures Runs(Submitted(true), acts, 5, false) && After(Submitted(true), acts, 5).starts == 2
  {
    var r1 := Step(Submitted(true), Deliver(0, true), 5);
    var r2 := Step(r1, Call(0, false), 5);
    var r3 := Step(r2, Reclaim(1, true), 5);
    var r4 := Step(r3, Call(1, false), 5);
    var r5 := Step(r4, Call(0, false), 5);
    Prepend(r5, Call(1, false), [], 5, false);
    Prepend(r4, Call(0, false), [Call(1, false)] + [], 5, false);
    Prepend(r3, Call(1, false), [Call(0, false)] + ([Call(1, false)] + []), 5, false);
    Prepend(r2, Reclaim(1, true), [Call(1, false)] + ([Call(0, false)] + ([Call(1, false)] + [])), 5, false);
    acts := [Reclaim(1, true)] + ([Call(1, false)] + ([Call(0, false)] + ([Call(1, false)] + [])));
    Prepend(r1, Call(0, false), acts, 5, false);
    acts := [Call(0, false)] + acts;
    Prepend(Submitted(true), Deliver(0, true), acts, 5, false);
    acts := [Deliver(0, true)] + acts;
  }

  /** The job has run and is marked done; its entry is not acked yet. */
  ghost function DoneNotAcked(): Record {
    Record(true, Pending, 1, Done, [DoneEvent], 0, map[0 := Task(1, Ack)], 1)
  }

  lemma OneDeliveryTooMany() returns (acts: seq<Action>)
    ensures Runs(DoneNotAcked(), acts, 1, true) && Runs(DoneNotAcked(), acts, 1, false)
    ensures
      var r := After(DoneNotAcked(), acts, 1);
      r.status.Failed? && r.log == [DoneEvent, ABANDONED]
  {
    var orphan := Record(true, Pending, 1, Done, [DoneEvent], 0, map[], 1);
    var again := orphan.(deliveries := 2, tasks := map[1 := Task(2, Publish(ABANDONED, true))]);
    var told := again.(log := [DoneEvent, ABANDONED], tasks := map[1 := Task(2, MarkFinished(ABANDONED, true))]);
    assert Step(DoneNotAcked(), Die(0), 1) == orphan;
    assert Step(orphan, Reclaim(1, true), 1) == again;
    assert Step(again, Call(1, false), 1) == told;
    Prepend(told, Call(1, false), [], 1, true);
    acts := [Call(1, false)] + [];
    Prepend(again, Call(1, false), acts, 1, true);
    acts := [Call(1, false)] + acts;
    Prepend(orphan, Reclaim(1, true), acts, 1, true);
    acts := [Reclaim(1, true)] + acts;
    Prepend(DoneNotAcked(), Die(0), acts, 1, true);
    acts := [Die(0)] + acts;
  }

  /** Giving up can overwrite success: the worker dies between marking the job done and acking it,
      and the next delivery is one too many. The status ends failed although the first outcome on
      the log, where readers stop, is `done`. */
  lemma GivingUpOverwritesDone() returns (acts: seq<Action>)
    ensures Runs(Submitted(true), acts, 1, true) && Runs(Submitted(true), acts, 1, false)
    ensures
      var r := After(Submitted(true), acts, 1);
      r.status.Failed? && r.log == [DoneEvent, ABANDONED]
  {
    var read := Step(Submitted(true), Deliver(0, true), 1);
    var mark := Step(read, Call(0, false), 1);
    var execute := Step(mark, Call(0, false), 1);
    var publish := Step(execute, Conclude(0, DoneEvent), 1);
    var markDone := Step(publish, Call(0, false), 1);
    assert Step(markDone, Call(0, false), 1) == DoneNotAcked();
    acts := OneDeliveryTooMany();
    Prepend(markDone, Call(0, false), acts, 1, true);
    acts := [Call(0, false)] + acts;
    Prepend(publish, Call(0, false), acts, 1, true);
    acts := [Call(0, false)] + acts;
    Prepend(execute, Conclude(0, DoneEvent), acts, 1, true);
    acts := [Conclude(0, DoneEvent)] + acts;
    Prepend(mark, Call(0, false), acts, 1, true);
    acts := [Call(0, false)] + acts;
    Prepend(read, Call(0, false), acts, 1, true);
    acts := [Call(0, false)] + acts;
    Prepend(Submitted(true), Deliver(0, true), acts, 1, true);
    acts := [Deliver(0, true)] + acts;
  }
}
