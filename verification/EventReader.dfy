/** Following a job's events while the worker still appends them
    (services/api/src/queue/events.py, beside services/agent/src/worker/handler.py). */
module EventReader {
  import opened JobProtocol
  import opened JobSafety

  const READ_COUNT: nat := 100

  datatype Why = Outcome | NothingMore | Deadline

  /** What `read` does next: ask for entries, yield the batch it got up to a position, or look
      whether the job is over. */
  datatype ReadPc = Polling | Yielding(upTo: nat) | Checking | Ended(why: Why)

  /** A reader resuming after the entry at `start`; `pos` is the entry after the last one read. */
  datatype Reader = Reader(start: nat, pos: nat, finishing: bool, pc: ReadPc, got: seq<Event>)

  datatype System = System(job: Record, reader: Reader)

  datatype Move = Work(a: Action) | Poll | Yield | Check | TimeUp

  predicate CanMove(s: System, m: Move) {
    match m
    case Work(a) => Can(s.job, a, false)
    case Poll => s.reader.pc.Polling?
    case Yield => s.reader.pc.Yielding? && s.reader.pos < |s.job.log|
    case Check => s.reader.pc.Checking?
    case TimeUp => s.reader.pc.Polling?
  }

  /** `_over`: finished, or events were read and their stream is gone. */
  predicate Over(job: Record, readAny: bool) {
    Finished(job.status) || (readAny && job.log == [])
  }

  function Moved(s: System, m: Move, max: nat): System
    requires CanMove(s, m)
  {
    var rd, log := s.reader, s.job.log;
    match m
    case Work(a) => s.(job := Step(s.job, a, max))
    case Poll =>
      if rd.pos < |log| then
        s.(reader := rd.(pc := Yielding(if rd.pos + READ_COUNT < |log| then rd.pos + READ_COUNT else |log|)))
      else if rd.finishing then s.(reader := rd.(pc := Ended(NothingMore)))
      else s.(reader := rd.(pc := Checking))
    case Check => s.(reader := rd.(finishing := Over(s.job, rd.pos > 0), pc := Polling))
    case Yield =>
      var pc :=
        if Terminal(log[rd.pos]) then Ended(Outcome)
        else if rd.pos + 1 >= rd.pc.upTo then Polling
        else rd.pc;
      s.(reader := rd.(pos := rd.pos + 1, got := rd.got + [log[rd.pos]], pc := pc))
    case TimeUp => s.(reader := rd.(pc := Ended(Deadline)))
  }

  ghost predicate Moves(s: System, ms: seq<Move>, max: nat)
    decreases |ms|
  {
    ms == [] || (CanMove(s, ms[0]) && Moves(Moved(s, ms[0], max), ms[1..], max))
  }

  ghost function At(s: System, ms: seq<Move>, max: nat): System
    requires Moves(s, ms, max)
    decreases |ms|
  {
    if ms == [] then s else At(Moved(s, ms[0], max), ms[1..], max)
  }

  /** A reader just started after the entry at `start`. */
  function Following(start: nat): Reader {
    Reader(start, start, false, Polling, [])
  }

  ghost predicate ReaderInv(s: System) {
    var rd, log := s.reader, s.job.log;
    && OutcomeFirst(s.job)
    && rd.start <= rd.pos <= |log|
    && rd.got == log[rd.start..rd.pos]
    && (rd.finishing ==> HasOutcome(log))
    && (rd.pc.Yielding? ==> rd.pos < rd.pc.upTo <= |log|)
    && (match rd.pc
        case Ended(Outcome) => rd.got != [] && Terminal(rd.got[|rd.got| - 1]) && OutcomeOnlyLast(rd.got)
        case Ended(NothingMore) => !HasOutcome(rd.got) && HasOutcome(log[..rd.pos])
        case _ => !HasOutcome(rd.got))
  }

  lemma StepKeepsLog(r: Record, a: Action, max: nat)
    requires Can(r, a, false)
    ensures r.log <= Step(r, a, max).log
  {
  }

  /** A longer log reads the same where the shorter one did. */
  lemma LongerLog(log: seq<Event>, more: seq<Event>, start: nat, pos: nat)
    requires log <= more && start <= pos <= |log|
    ensures more[start..pos] == log[start..pos] && more[..pos] == log[..pos]
    ensures HasOutcome(log) ==> HasOutcome(more)
  {
    if HasOutcome(log) {
      var i :| 0 <= i < |log| && Terminal(log[i]);
      assert more[i] == log[i];
    }
  }

  lemma LongerLogKeepsReader(s: System, job: Record)
    requires ReaderInv(s) && OutcomeFirst(job) && s.job.log <= job.log
    ensures ReaderInv(s.(job := job))
  {
    LongerLog(s.job.log, job.log, s.reader.start, s.reader.pos);
  }

  lemma WorkKeepsReader(s: System, a: Action, max: nat)
    requires ReaderInv(s) && CanMove(s, Work(a))
    ensures ReaderInv(Moved(s, Work(a), max)) && s.job.log <= Moved(s, Work(a), max).job.log
  {
    OutcomeFirstStep(s.job, a, max);
    StepKeepsLog(s.job, a, max);
    LongerLogKeepsReader(s, Step(s.job, a, max));
  }

  lemma MoveKeepsReader(s: System, m: Move, max: nat)
    requires ReaderInv(s) && CanMove(s, m)
    ensures ReaderInv(Moved(s, m, max))
    ensures Moved(s, m, max).reader.start == s.reader.start && s.job.log <= Moved(s, m, max).job.log
  {
    var rd, log := s.reader, s.job.log;
    if m.Work? {
      WorkKeepsReader(s, m.a, max);
    } else if m.Yield? {
      LogGrows(rd.got, log[rd.pos]);
      assert log[rd.start..rd.pos + 1] == rd.got + [log[rd.pos]];
    } else if m.Poll? && rd.pos == |log| && rd.finishing {
      assert log[..rd.pos] == log;
    } else if m.Check? && Finished(s.job.status) {
      FinishedHasOutcome(s.job);
    }
  }

  lemma {:induction false} ReaderInvAlong(s: System, ms: seq<Move>, max: nat)
    requires ReaderInv(s) && Moves(s, ms, max)
    ensures ReaderInv(At(s, ms, max)) && At(s, ms, max).reader.start == s.reader.start
    ensures s.job.log <= At(s, ms, max).job.log
    decreases |ms|
  {
    if ms != [] {
      var next := Moved(s, ms[0], max);
      MoveKeepsReader(s, ms[0], max);
      ReaderInvAlong(next, ms[1..], max);
      StillPrefix(s.job.log, next.job.log, At(s, ms, max).job.log);
    }
  }

  lemma StillPrefix(x: seq<Event>, y: seq<Event>, z: seq<Event>)
    requires x <= y <= z
    ensures x <= z
  {
  }

  /** The entries up to the first outcome at or after `start`. */
  ghost predicate ThroughOutcome(log: seq<Event>, start: nat, got: seq<Event>) {
    && got != [] && start + |got| <= |log| && got == log[start..start + |got|]
    && Terminal(got[|got| - 1]) && OutcomeOnlyLast(got)
  }

  /** A reader that runs beside the workers and starts after any entry already on the log yields
      the later entries, each once and in order, and nothing past the first outcome. Without a
      deadline it ends with that outcome, unless it resumed after one. So it is even when a live entry
      was reclaimed and the log comes to hold two outcomes. */
  lemma ReadsExactly(valid: bool, acts: seq<Action>, start: nat, ms: seq<Move>, max: nat)
    requires Runs(Submitted(valid), acts, max, false)
    requires start <= |After(Submitted(valid), acts, max).log|
    requires Moves(System(After(Submitted(valid), acts, max), Following(start)), ms, max)
    ensures
      var end := At(System(After(Submitted(valid), acts, max), Following(start)), ms, max);
      var rd, log := end.reader, end.job.log;
      && After(Submitted(valid), acts, max).log <= log
      && start <= rd.pos <= |log| && rd.got == log[start..rd.pos]
      && (rd.pc == Ended(Outcome) ==> ThroughOutcome(log, start, rd.got))
      && (rd.pc != Ended(Outcome) ==> !HasOutcome(rd.got))
      && (rd.pc == Ended(NothingMore) ==> HasOutcome(log[..start]))
  {
    var r := After(Submitted(valid), acts, max);
    OutcomeFirstAlong(Submitted(valid), acts, max);
    var s := System(r, Following(start));
    assert r.log[start..start] == [];
    ReaderInvAlong(s, ms, max);
    var end := At(s, ms, max);
    if end.reader.pc == Ended(NothingMore) {
      var log, pos := end.job.log, end.reader.pos;
      var i :| 0 <= i < pos && Terminal(log[..pos][i]);
      forall k | start <= k < pos ensures !Terminal(log[k]) {
        assert end.reader.got[k - start] == log[k];
      }
      assert log[..start][i] == log[i];
    }
  }

  /** Entries still to read, with two more rounds of asking when there are none. */
  function Remaining(s: System): nat {
    var rd, log := s.reader, s.job.log;
    if rd.pos > |log| || rd.pc.Ended? then 0
    else
      var round :=
        match rd.pc
        case Yielding(_) => 0
        case Checking => 2
        case _ => if rd.pos == |log| then (if rd.finishing then 1 else 3) else 1;
      4 * (|log| - rd.pos) + round
  }

  /** Once the job is finished, a reader left to itself ends. */
  lemma {:induction false} ReaderEnds(s: System, max: nat, fuel: nat) returns (ms: seq<Move>)
    requires ReaderInv(s) && Finished(s.job.status) && Remaining(s) <= fuel
    ensures Moves(s, ms, max) && At(s, ms, max).reader.pc.Ended? && At(s, ms, max).job == s.job
    ensures s.reader.pc.Ended? ==> ms == []
    ensures !s.reader.pc.Ended? ==> At(s, ms, max).reader.pc.why != Deadline
    decreases fuel
  {
    if s.reader.pc.Ended? {
      ms := [];
    } else {
      var m := match s.reader.pc case Polling => Poll case Yielding(_) => Yield case _ => Check;
      MoveKeepsReader(s, m, max);
      var t := Moved(s, m, max);
      assert Remaining(t) < Remaining(s);
      var rest := ReaderEnds(t, max, fuel - 1);
      ms := [m] + rest;
      assert ms[1..] == rest;
    }
  }
}
