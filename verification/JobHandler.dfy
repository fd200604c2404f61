/** The handler's own code, run against a broker whose calls may fail, follows the protocol:
    services/agent/src/worker/handler.py and `Consumer.handle` of queue/consumer.py. */
module JobHandler {
  import opened JobProtocol
  import opened JobSafety
  import opened RunOnce
  import opened Wrappers

  /** How a broker call ends: as asked, done but unknown to the caller, or not at all. */
  datatype Fault = Works | Lost | Fails

  /** The run itself: the events it publishes, then its outcome; none when the worker dies. */
  datatype Script = Script(emits: nat, outcome: Option<Event>)

  /** What a call that ends so does to the task `id`. */
  function Met(id: nat, fault: Fault): Action {
    if fault.Fails? then Die(id) else Call(id, fault.Lost?)
  }

  /** An action of the task itself. */
  predicate By(a: Action, id: nat) {
    (a.Call? || a.Emit? || a.Conclude? || a.Die?) && a.id == id
  }

  /** The run goes on from `before` by actions of the task `id` alone. */
  ghost predicate Continues(before: seq<Action>, acts: seq<Action>, id: nat) {
    before <= acts && forall i | |before| <= i < |acts| :: By(acts[i], id)
  }

  lemma {:induction false} RunsOneMore(r: Record, acts: seq<Action>, a: Action, max: nat)
    requires Runs(r, acts, max, true) && Runs(r, acts, max, false) && Can(After(r, acts, max), a, true)
    ensures Runs(r, acts + [a], max, true) && Runs(r, acts + [a], max, false)
    ensures After(r, acts + [a], max) == Step(After(r, acts, max), a, max)
    decreases |acts|
  {
    if acts == [] {
      Prepend(r, a, [], max, true);
      assert [a] + [] == acts + [a];
    } else {
      assert (acts + [a])[1..] == acts[1..] + [a];
      RunsOneMore(Step(r, acts[0], max), acts[1..], a, max);
    }
  }

  /** One job's keys: its status, its event log, and where its stream entry stands. The ghost
      record is the protocol's view, and `acts` the run that leads to it. */
  class Broker {
    const max: nat
    const valid: bool
    var status: Status
    var log: seq<Event>
    var parked: nat
    var acked: bool
    ghost var record: Record
    ghost var acts: seq<Action>

    ghost predicate Valid()
      reads this
    {
      && Runs(Submitted(valid), acts, max, true) && Runs(Submitted(valid), acts, max, false)
      && After(Submitted(valid), acts, max) == record && Inv(record, max) && record.valid == valid
      && status == record.status && log == record.log && parked == record.parked
      && acked == record.place.Acked?
    }

    /** The task handling this delivery is about to do `pc`. */
    ghost predicate Doing(id: nat, pc: Pc)
      reads this
    {
      id in record.tasks && record.tasks[id].pc == pc
    }

    ghost method Record(a: Action)
      requires Runs(Submitted(valid), acts, max, true) && Runs(Submitted(valid), acts, max, false)
      requires After(Submitted(valid), acts, max) == record && Inv(record, max) && Can(record, a, true)
      modifies this`record, this`acts
      ensures Runs(Submitted(valid), acts, max, true) && Runs(Submitted(valid), acts, max, false)
      ensures After(Submitted(valid), acts, max) == record && Inv(record, max)
      ensures record == Step(old(record), a, max) && acts == old(acts) + [a]
    {
      RunsOneMore(Submitted(valid), acts, a, max);
      InvStep(record, a, max);
      acts, record := acts + [a], Step(record, a, max);
    }

    constructor (valid: bool, max: nat)
      ensures Valid() && acts == [] && this.valid == valid && this.max == max
    {
      this.valid, this.max := valid, max;
      status, log, parked, acked := Queued, [], 0, false;
      record, acts := Submitted(valid), [];
      new;
      InvSubmitted(valid, max);
    }

    /** The ghost side of a call by task `id`, once its effect, if any, is in the fields. */
    ghost method Called(id: nat, fault: Fault)
      requires Runs(Submitted(valid), acts, max, true) && Runs(Submitted(valid), acts, max, false)
      requires After(Submitted(valid), acts, max) == record && Inv(record, max) && record.valid == valid
      requires id in record.tasks && !record.tasks[id].pc.Executing?
      requires
        var r := if fault.Fails? then record else Effect(record, record.tasks[id].pc);
        status == r.status && log == r.log && parked == r.parked && acked == r.place.Acked?
      modifies this`record, this`acts
      ensures Valid() && acts == old(acts) + [Met(id, fault)] && record == Step(old(record), Met(id, fault), max)
    {
      Record(Met(id, fault));
    }

    method StatusOf(ghost id: nat, fault: Fault) returns (ok: bool, s: Status)
      requires Valid() && Doing(id, ReadStatus)
      modifies this
      ensures Valid() && ok == fault.Works? && s == old(status)
      ensures acts == old(acts) + [Met(id, fault)] && record == Step(old(record), Met(id, fault), max)
    {
      ok, s := fault.Works?, status;
      Called(id, fault);
    }

    method LastTerminal(ghost id: nat, fault: Fault) returns (ok: bool, last: Option<Event>)
      requires Valid() && Doing(id, ReadLog)
      modifies this
      ensures Valid() && ok == fault.Works?
      ensures last ==
        if old(log) != [] && Terminal(old(log)[|old(log)| - 1]) then Some(old(log)[|old(log)| - 1]) else None
      ensures acts == old(acts) + [Met(id, fault)] && record == Step(old(record), Met(id, fault), max)
    {
      ok := fault.Works?;
      last := if log != [] && Terminal(log[|log| - 1]) then Some(log[|log| - 1]) else None;
      Called(id, fault);
    }

    method Mark(ghost id: nat, s: Status, fault: Fault) returns (ok: bool)
      requires Valid() && id in record.tasks
      requires
        var pc := record.tasks[id].pc;
        (pc.MarkRunning? && s == Running) || (pc.MarkFinished? && s == StatusFor(pc.marked))
      modifies this
      ensures Valid() && ok == fault.Works?
      ensures acts == old(acts) + [Met(id, fault)] && record == Step(old(record), Met(id, fault), max)
    {
      if !fault.Fails? { status := s; }
      ok := fault.Works?;
      Called(id, fault);
    }

    method Publish(ghost id: nat, e: Event, fault: Fault) returns (ok: bool)
      requires Valid() && id in record.tasks
      requires record.tasks[id].pc.Publish? && record.tasks[id].pc.outcome == e
      modifies this
      ensures Valid() && ok == fault.Works?
      ensures acts == old(acts) + [Met(id, fault)] && record == Step(old(record), Met(id, fault), max)
    {
      if !fault.Fails? { log := log + [e]; }
      ok := fault.Works?;
      Called(id, fault);
    }

    method AddDead(ghost id: nat, fault: Fault) returns (ok: bool)
      requires Valid() && Doing(id, Pc.Park)
      modifies this
      ensures Valid() && ok == fault.Works?
      ensures acts == old(acts) + [Met(id, fault)] && record == Step(old(record), Met(id, fault), max)
    {
      if !fault.Fails? { parked := parked + 1; }
      ok := fault.Works?;
      Called(id, fault);
    }

    method Acknowledge(ghost id: nat, fault: Fault) returns (ok: bool)
      requires Valid() && Doing(id, Pc.Ack)
      modifies this
      ensures Valid() && ok == fault.Works?
      ensures acts == old(acts) + [Met(id, fault)] && record == Step(old(record), Met(id, fault), max)
    {
      if !fault.Fails? { acked := true; }
      ok := fault.Works?;
      Called(id, fault);
    }

    method Emit(ghost id: nat)
      requires Valid() && Doing(id, Executing)
      modifies this
      ensures Valid() && Doing(id, Executing) && log == old(log) + [Token]
      ensures acts == old(acts) + [Action.Emit(id)] && record == Step(old(record), Action.Emit(id), max)
    {
      log := log + [Token];
      Record(Action.Emit(id));
    }
  }

  /** `n` events that are no outcome. */
  function Tokens(n: nat): seq<Event> {
    seq(n, _ => Token)
  }

  class Handler {

    /** The run itself publishes its events and comes to its outcome. */
    static method Execute(b: Broker, ghost id: nat, script: Script) returns (outcome: Option<Event>)
      requires b.Valid() && b.Doing(id, Executing)
      requires script.outcome.Some? ==> Terminal(script.outcome.value)
      modifies b
      ensures b.Valid() && outcome == script.outcome && Continues(old(b.acts), b.acts, id)
      ensures if outcome.Some? then b.Doing(id, Pc.Publish(outcome.value, false)) else id !in b.record.tasks
      ensures b.log == old(b.log) + Tokens(script.emits) && b.status == old(b.status) && b.parked == old(b.parked)
      ensures b.acked == old(b.acked) && b.record.starts == old(b.record.starts)
    {
      var i := 0;
      while i < script.emits
        invariant b.Valid() && b.Doing(id, Executing) && i <= script.emits && Continues(old(b.acts), b.acts, id)
        invariant b.log == old(b.log) + Tokens(i) && b.status == old(b.status) && b.parked == old(b.parked)
        invariant b.acked == old(b.acked) && b.record.starts == old(b.record.starts)
      {
        assert Tokens(i + 1) == Tokens(i) + [Token];
        b.Emit(id);
        i := i + 1;
      }
      outcome := script.outcome;
      if outcome.Some? {
        b.Record(Conclude(id, outcome.value));
      } else {
        b.Record(Die(id));
      }
    }

    /** From the run to its end: its events, then its outcome, are on the log before it is marked. */
    static method RunToEnd(b: Broker, ghost id: nat, script: Script, f: nat -> Fault) returns (ok: bool)
      requires b.Valid() && b.Doing(id, Executing)
      requires script.outcome.Some? ==> Terminal(script.outcome.value)
      modifies b
      ensures b.Valid() && Continues(old(b.acts), b.acts, id) && old(b.log) <= b.log
      ensures b.parked == old(b.parked) && b.acked == old(b.acked) && b.record.starts == old(b.record.starts)
      ensures if ok then b.Doing(id, Pc.Ack) else id !in b.record.tasks
      ensures (forall n :: f(n).Works?) && script.outcome.Some? ==> ok
      ensures ok ==>
        && script.outcome.Some? && b.log == old(b.log) + Tokens(script.emits) + [script.outcome.value]
        && (b.status.Done? <==> script.outcome.value.DoneEvent?)
        && (b.status.Failed? <==> script.outcome.value.ErrorEvent?)
    {
      var result := Execute(b, id, script);
      if result.None? { return false; }
      ok := Finish(b, id, result.value, false, f);
    }

    /** A finished job is left alone, one found running is not run again, and a queued one runs: it is
        marked running, its events and then its outcome are on the log, and only then it is marked
        finished. */
    static method Run(b: Broker, ghost id: nat, script: Script, f: nat -> Fault) returns (ok: bool)
      requires b.Valid() && b.Doing(id, ReadStatus)
      requires script.outcome.Some? ==> Terminal(script.outcome.value)
      modifies b
      ensures b.Valid() && Continues(old(b.acts), b.acts, id) && old(b.log) <= b.log
      ensures b.parked == old(b.parked) && b.acked == old(b.acked)
      ensures if ok then b.Doing(id, Pc.Ack) else id !in b.record.tasks
      ensures (forall n :: f(n).Works?) && script.outcome.Some? ==> ok
      ensures !old(b.status).Queued? ==> b.record.starts == old(b.record.starts)
      ensures Finished(old(b.status)) ==> b.log == old(b.log) && b.status == old(b.status)
      ensures ok && old(b.status).Running? ==> Brought(old(b.log), b.log, b.status)
      ensures ok && old(b.status).Queued? ==>
        && script.outcome.Some? && b.record.starts == old(b.record.starts) + 1
        && b.log == old(b.log) + Tokens(script.emits) + [script.outcome.value]
        && (b.status.Done? <==> script.outcome.value.DoneEvent?)
        && (b.status.Failed? <==> script.outcome.value.ErrorEvent?)
    {
      var state;
      ok, state := b.StatusOf(id, f(0));
      if !ok || Finished(state) { return; }
      if state.Running? {
        ok := Redelivered(b, id, f);
        return;
      }
      ok := b.Mark(id, Running, f(1));
      if !ok { return; }
      ok := RunToEnd(b, id, script, f);
    }

    /** A job found running is marked as the outcome on its log says, or told to be interrupted. */
    static ghost predicate Brought(before: seq<Event>, log: seq<Event>, status: Status) {
      if before != [] && Terminal(before[|before| - 1])
      then
        && log == before && (status.Done? <==> before[|before| - 1].DoneEvent?)
        && (status.Failed? <==> before[|before| - 1].ErrorEvent?)
      else log == before + [INTERRUPTED] && status.Failed?
    }

    static method Redelivered(b: Broker, ghost id: nat, f: nat -> Fault) returns (ok: bool)
      requires b.Valid() && b.Doing(id, ReadLog)
      modifies b
      ensures b.Valid() && Continues(old(b.acts), b.acts, id)
      ensures b.parked == old(b.parked) && b.acked == old(b.acked) && b.record.starts == old(b.record.starts)
      ensures if ok then b.Doing(id, Pc.Ack) && Brought(old(b.log), b.log, b.status) else id !in b.record.tasks
      ensures b.log == old(b.log) || b.log == old(b.log) + [INTERRUPTED]
      ensures (forall n :: f(n).Works?) ==> ok
    {
      var last;
      ok, last := b.LastTerminal(id, f(2));
      if !ok { return; }
      if last.Some? {
        ok := b.Mark(id, StatusFor(last.value), f(3));
        return;
      }
      ok := Finish(b, id, INTERRUPTED, false, f);
    }

    static predicate MarkedAs(s: Status, outcome: Event) {
      (s.Done? <==> outcome.DoneEvent?) && (s.Failed? <==> outcome.ErrorEvent?)
    }

    /** The outcome is published and then marked: no failure leaves it marked but not published. */
    static method Finish(b: Broker, ghost id: nat, outcome: Event, ghost dead: bool, f: nat -> Fault) returns (ok: bool)
      requires b.Valid() && b.Doing(id, Pc.Publish(outcome, dead))
      modifies b
      ensures b.Valid() && Continues(old(b.acts), b.acts, id)
      ensures b.parked == old(b.parked) && b.acked == old(b.acked) && b.record.starts == old(b.record.starts)
      ensures if ok then b.Doing(id, if dead then Pc.Park else Pc.Ack) else id !in b.record.tasks
      ensures ok ==> b.log == old(b.log) + [outcome] && MarkedAs(b.status, outcome)
      ensures || (b.log == old(b.log) && b.status == old(b.status))
              || (b.log == old(b.log) + [outcome] && (b.status == old(b.status) || MarkedAs(b.status, outcome)))
      ensures (forall n :: f(n).Works?) ==> ok
    {
      ok := b.Publish(id, outcome, f(4));
      if !ok { return; }
      ok := b.Mark(id, StatusFor(outcome), f(5));
    }

    /** On `jobs:dead` before it leaves the pending list. */
    static method DeadLetter(b: Broker, ghost id: nat, f: nat -> Fault) returns (ok: bool)
      requires b.Valid() && b.Doing(id, Pc.Park)
      modifies b
      ensures b.Valid() && id !in b.record.tasks && Continues(old(b.acts), b.acts, id)
      ensures b.log == old(b.log) && b.status == old(b.status) && b.record.starts == old(b.record.starts)
      ensures old(b.parked) <= b.parked <= old(b.parked) + 1
      ensures b.acked != old(b.acked) ==> b.parked == old(b.parked) + 1
      ensures ok ==> b.acked && b.parked == old(b.parked) + 1
      ensures (forall n :: f(n).Works?) ==> ok
    {
      ok := b.AddDead(id, f(6));
      if !ok { return; }
      ok := b.Acknowledge(id, f(7));
    }

    /** One delivery, from the claim to the ack: whatever fails on the way, the broker goes on from
        where it was by some run of the protocol; when nothing fails, the entry is acked, its job run
        if it was queued, brought up to date if it was running, given up if delivered too often. */
    static method Handle(b: Broker, ghost id: nat, count: nat, script: Script, f: nat -> Fault) returns (ok: bool)
      requires b.Valid() && b.Doing(id, FirstPc(b.valid, count, b.max))
      requires script.outcome.Some? ==> Terminal(script.outcome.value)
      modifies b
      ensures b.Valid() && id !in b.record.tasks && Continues(old(b.acts), b.acts, id) && old(b.log) <= b.log
      ensures ok ==> b.acked
      ensures (forall n :: f(n).Works?) && script.outcome.Some? ==> ok
      ensures b.record.starts > old(b.record.starts) ==> b.valid && count <= b.max && old(b.status).Queued?
      ensures !b.valid ==> b.log == old(b.log) && b.status == old(b.status)
      ensures ok && !b.valid ==> b.parked == old(b.parked) + 1
      ensures ok && b.valid && count > b.max ==>
        b.log == old(b.log) + [ABANDONED] && b.status.Failed? && b.parked == old(b.parked) + 1
      ensures ok && b.valid && count <= b.max ==>
        && b.parked == old(b.parked)
        && match old(b.status)
           case Queued =>
             && script.outcome.Some? && b.log == old(b.log) + Tokens(script.emits) + [script.outcome.value]
             && (b.status.Done? <==> script.outcome.value.DoneEvent?)
        && (b.status.Failed? <==> script.outcome.value.ErrorEvent?)
           case Running => Brought(old(b.log), b.log, b.status)
           case _ => b.log == old(b.log) && b.status == old(b.status)
    {
      if !b.valid {
        ok := DeadLetter(b, id, f);
        return;
      }
      if count > b.max {
        ok := Finish(b, id, ABANDONED, true, f);
        if !ok { return; }
        ok := DeadLetter(b, id, f);
        return;
      }
      ok := Run(b, id, script, f);
      if !ok { return; }
      ok := b.Acknowledge(id, f(8));
    }
  }
}
