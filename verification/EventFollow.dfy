/** The loop of `read` (services/api/src/queue/events.py), run beside a worker: each pass is a run of
    the reader's state machine. */
module EventFollow {
  import opened JobProtocol
  import opened JobSafety
  import opened EventReader
  import opened Wrappers

  lemma {:induction false} OneMove(s: System, ms: seq<Move>, m: Move, max: nat)
    requires Moves(s, ms, max) && CanMove(At(s, ms, max), m)
    ensures Moves(s, ms + [m], max) && At(s, ms + [m], max) == Moved(At(s, ms, max), m, max)
    decreases |ms|
  {
    if ms == [] {
      assert [m][1..] == [];
      assert ms + [m] == [m];
    } else {
      assert (ms + [m])[1..] == ms[1..] + [m];
      OneMove(Moved(s, ms[0], max), ms[1..], m, max);
    }
  }

  /** How often the reader asked for entries. */
  function Polls(ms: seq<Move>): nat {
    if ms == [] then 0 else Polls(ms[..|ms| - 1]) + if ms[|ms| - 1].Poll? then 1 else 0
  }

  /** How many calls to the broker it made. */
  function Calls(ms: seq<Move>): nat {
    if ms == [] then 0 else Calls(ms[..|ms| - 1]) + if ms[|ms| - 1].Poll? || ms[|ms| - 1].Check? then 1 else 0
  }

  /** The actions of `acts` that can happen, in turn. */
  ghost function Worked(r: Record, acts: seq<Action>, max: nat): Record {
    if acts == [] then r
    else
      var before, a := Worked(r, acts[..|acts| - 1], max), acts[|acts| - 1];
      if Can(before, a, false) then Step(before, a, max) else before
  }

  /** The job after what `worker` does before each of the first `n` calls. */
  ghost function WorkedBefore(r: Record, worker: nat -> seq<Action>, n: nat, max: nat): Record {
    if n == 0 then r else Worked(WorkedBefore(r, worker, n - 1, max), worker(n - 1), max)
  }

  /** A reader and the job it follows; `moves` leads from `from` to here. */
  class Follower {
    const max: nat
    const start: nat
    var job: Record
    var after: nat
    var finishing: bool
    var got: seq<Event>
    ghost const from: System
    ghost var pc: ReadPc
    ghost var moves: seq<Move>

    ghost predicate Valid()
      reads this
    {
      && Moves(from, moves, max) && after <= |job.log|
      && At(from, moves, max) == System(job, Reader(start, after, finishing, pc, got))
    }

    ghost method Note(m: Move)
      requires Moves(from, moves, max) && CanMove(At(from, moves, max), m)
      modifies this`moves
      ensures moves == old(moves) + [m] && Polls(moves) == Polls(old(moves)) + if m.Poll? then 1 else 0
      ensures Calls(moves) == Calls(old(moves)) + if m.Poll? || m.Check? then 1 else 0
      ensures Moves(from, moves, max) && At(from, moves, max) == Moved(At(from, old(moves), max), m, max)
    {
      OneMove(from, moves, m, max);
      moves := moves + [m];
    }

    constructor (job: Record, start: nat, max: nat)
      requires start <= |job.log|
      ensures Valid() && pc == Polling && from == System(job, Following(start)) && this.max == max
      ensures this.job == job && moves == []
    {
      this.max, this.start, this.job, after, finishing, got := max, start, job, start, false, [];
      from, pc, moves := System(job, Following(start)), Polling, [];
    }

    /** What the workers do meanwhile: the actions of `acts` that can happen. */
    method Meanwhile(acts: seq<Action>)
      requires Valid()
      modifies this`job, this`moves
      ensures Valid() && old(job.log) <= job.log && job == Worked(old(job), acts, max)
      ensures old(moves) <= moves && Polls(moves) == Polls(old(moves)) && Calls(moves) == Calls(old(moves))
    {
      for i := 0 to |acts|
        invariant Valid() && old(job.log) <= job.log && job == Worked(old(job), acts[..i], max)
        invariant old(moves) <= moves && Polls(moves) == Polls(old(moves)) && Calls(moves) == Calls(old(moves))
      {
        assert acts[..i + 1][..i] == acts[..i];
        if Can(job, acts[i], false) {
          StepKeepsLog(job, acts[i], max);
          Note(Work(acts[i]));
          job := Step(job, acts[i], max);
        }
      }
      assert acts[..|acts|] == acts;
    }

    /** `xread`: the next entries, up to a batch of them. */
    method Ask(meanwhile: seq<Action>) returns (upTo: nat)
      requires Valid() && pc == Polling
      modifies this
      ensures Valid() && after == old(after) && got == old(got) && finishing == old(finishing)
      ensures job == Worked(old(job), meanwhile, max)
      ensures upTo == if after + READ_COUNT < |job.log| then after + READ_COUNT else |job.log|
      ensures pc == if after < upTo then Yielding(upTo) else if finishing then Ended(NothingMore) else Checking
      ensures old(moves) <= moves && Polls(moves) == Polls(old(moves)) + 1 && Calls(moves) == Calls(old(moves)) + 1
    {
      Meanwhile(meanwhile);
      upTo := if after + READ_COUNT < |job.log| then after + READ_COUNT else |job.log|;
      Note(Poll);
      pc := if after < upTo then Yielding(upTo) else if finishing then Ended(NothingMore) else Checking;
    }

    method YieldOne(upTo: nat) returns (entry: Event)
      requires Valid() && pc == Yielding(upTo) && after < upTo <= |job.log|
      modifies this
      ensures Valid() && job == old(job) && entry == job.log[old(after)]
      ensures after == old(after) + 1 && got == old(got) + [entry]
      ensures pc == if Terminal(entry) then Ended(Outcome) else if after >= upTo then Polling else Yielding(upTo)
      ensures moves == old(moves) + [Yield] && Polls(moves) == Polls(old(moves)) && Calls(moves) == Calls(old(moves))
    {
      entry := job.log[after];
      Note(Yield);
      after, got := after + 1, got + [entry];
      pc := if Terminal(entry) then Ended(Outcome) else if after >= upTo then Polling else pc;
    }

    /** One batch of entries, each yielded in turn; true at an outcome, past which nothing is. */
    method YieldTo(upTo: nat) returns (ended: bool)
      requires Valid() && pc == Yielding(upTo) && after < upTo <= |job.log|
      modifies this
      ensures Valid() && job == old(job)
      ensures pc == if ended then Ended(Outcome) else Polling
      ensures old(after) < after <= upTo && got == old(got) + job.log[old(after)..after]
      ensures if ended then Terminal(job.log[after - 1]) else after == upTo && !Terminal(job.log[after - 1])
      ensures forall i | old(after) <= i < after - 1 :: !Terminal(job.log[i])
      ensures old(moves) <= moves && Polls(moves) == Polls(old(moves)) && Calls(moves) == Calls(old(moves))
    {
      while after < upTo
        invariant Valid() && job == old(job) && old(after) <= after <= upTo
        invariant pc == if after < upTo then Yielding(upTo) else Polling
        invariant got == old(got) + job.log[old(after)..after]
        invariant forall i | old(after) <= i < after :: !Terminal(job.log[i])
        invariant old(moves) <= moves && Polls(moves) == Polls(old(moves)) && Calls(moves) == Calls(old(moves))
      {
        assert job.log[old(after)..after + 1] == job.log[old(after)..after] + [job.log[after]];
        var entry := YieldOne(upTo);
        if Terminal(entry) {
          return true;
        }
      }
      return false;
    }

    /** Nothing was read: `_over` is asked. */
    method LookWhetherOver(meanwhile: seq<Action>)
      requires Valid() && pc == Checking
      modifies this
      ensures Valid() && pc == Polling && after == old(after) && got == old(got)
      ensures job == Worked(old(job), meanwhile, max)
      ensures finishing <==> Over(job, after > 0)
      ensures old(moves) <= moves && Polls(moves) == Polls(old(moves)) && Calls(moves) == Calls(old(moves)) + 1
    {
      Meanwhile(meanwhile);
      Note(Check);
      finishing := Finished(job.status) || (after > 0 && job.log == []);
      pc := Polling;
    }

    /** One pass of the loop; none when it goes on. */
    method Pass(worker: nat -> seq<Action>, calls: nat) returns (made: nat, why: Option<Why>)
      requires Valid() && pc == Polling && calls == Calls(moves)
      requires job == WorkedBefore(from.job, worker, calls, max)
      modifies this
      ensures Valid() && pc == if why.Some? then Ended(why.value) else Polling
      ensures made == Calls(moves) && job == WorkedBefore(from.job, worker, made, max)
      ensures Polls(moves) == Polls(old(moves)) + 1 && why != Some(Deadline)
    {
      var upTo := Ask(worker(calls));
      made := calls + 1;
      if after < upTo {
        var ended := YieldTo(upTo);
        why := if ended then Some(Outcome) else None;
      } else if finishing {
        why := Some(NothingMore);
      } else {
        LookWhetherOver(worker(made));
        made, why := made + 1, None;
      }
    }

    /** `rounds` is how often the clock is read before the deadline, and `worker(n)` what the workers do
        before the n-th broker call of the reader. It ends at the deadline only when it has asked that
        often. */
    method Read(rounds: nat, worker: nat -> seq<Action>) returns (why: Why)
      requires Valid() && pc == Polling && moves == []
      modifies this
      ensures Valid() && pc == Ended(why) && job == WorkedBefore(from.job, worker, Calls(moves), max)
      ensures if why.Deadline? then Polls(moves) == rounds else 0 < Polls(moves) <= rounds
    {
      var calls, n := 0, 0;
      while n < rounds
        invariant Valid() && pc == Polling && n <= rounds && n == Polls(moves) && calls == Calls(moves)
        invariant job == WorkedBefore(from.job, worker, calls, max)
      {
        var ended;
        calls, ended := Pass(worker, calls);
        if ended.Some? {
          return ended.value;
        }
        n := n + 1;
      }
      Note(TimeUp);
      pc := Ended(Deadline);
      return Deadline;
    }
  }

  /** Read to its end beside any workers, a reader that starts after any entry of the log yields the
      later entries, each once and in order, up to and with the first outcome. Short of the deadline
      it stops nowhere else, unless it resumed after an outcome. `moves` is the run of both that leads
      to the log at the end. */
  method Follow(job: Record, start: nat, max: nat, rounds: nat, worker: nat -> seq<Action>,
                ghost valid: bool, ghost acts: seq<Action>)
    returns (got: seq<Event>, why: Why, log: seq<Event>, ghost moves: seq<Move>)
    requires Runs(Submitted(valid), acts, max, false)
    requires job == After(Submitted(valid), acts, max) && start <= |job.log|
    ensures Moves(System(job, Following(start)), moves, max)
    ensures
      var end := At(System(job, Following(start)), moves, max);
      end.job.log == log && end.reader.got == got && end.reader.pc == Ended(why)
    ensures job.log <= log && start + |got| <= |log| && got == log[start..start + |got|]
    ensures why.Outcome? ==> ThroughOutcome(log, start, got)
    ensures !why.Outcome? ==> !HasOutcome(got)
    ensures why.NothingMore? ==> HasOutcome(log[..start])
    ensures log == WorkedBefore(job, worker, Calls(moves), max).log
    ensures if why.Deadline? then Polls(moves) == rounds else 0 < Polls(moves) <= rounds
  {
    var reader := new Follower(job, start, max);
    why := reader.Read(rounds, worker);
    ReadsExactly(valid, acts, start, reader.moves, max);
    got, log, moves := reader.got, reader.job.log, reader.moves;
  }
}
