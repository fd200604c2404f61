/** `submit_once` and `release` as one client runs them (services/api/src/queue/submit.py), with any
    number of others at work between its broker calls. */
module SubmitClient {
  import opened Interference
  import opened Submission
  import opened SubmissionSafety
  import opened SubmitAlone
  import opened Wrappers

  lemma SamePrefix<T>(x: seq<T>, y: seq<T>, k: nat)
    requires x <= y && k <= |x|
    ensures y[..k] == x[..k]
  {
  }

  /** The broker as the client `id` meets it: before each of its calls the next batch of `others`
      happens. */
  class Connection {
    const id: nat
    const key: nat
    const thread: nat
    const job: nat
    var w: World
    var others: seq<seq<Action>>
    ghost var acts: seq<Action>

    ghost predicate Valid()
      reads this
    {
      && Runs(EMPTY, acts) && After(EMPTY, acts) == w
      && id in w.clients && w.clients[id] == Client(key, thread, job, w.clients[id].pc)
    }

    constructor (w: World, id: nat, others: seq<seq<Action>>, ghost acts: seq<Action>)
      requires Runs(EMPTY, acts) && After(EMPTY, acts) == w && id in w.clients
      ensures Valid() && this.w == w && this.id == id && this.others == others
    {
      this.w, this.id, this.others, this.acts := w, id, others, acts;
      var c := w.clients[id];
      key, thread, job := c.key, c.thread, c.job;
    }

    ghost predicate At(pc: Pc)
      reads this
    {
      Valid() && w.clients[id].pc == pc
    }

    /** The broker was in state `s` at some moment of the run, after its first `n` actions. */
    ghost predicate Passed(n: nat, s: World)
      reads this
    {
      exists k :: n <= k <= |acts| && Runs(EMPTY, acts[..k]) && After(EMPTY, acts[..k]) == s
    }

    function Seen(): Watched
      reads this
    {
      Watched(Version(w.recordVersion, key), Version(w.threadVersion, thread))
    }

    method Interfere()
      requires Valid()
      modifies this`w, this`others, this`acts
      ensures Valid() && Left(old(w.clients[id]), w.clients[id]) && old(acts) <= acts
      ensures if old(others) == [] then others == [] && w == old(w) else |others| < |old(others)|
    {
      if others == [] { return; }
      var batch := others[0];
      others := others[1..];
      for i := 0 to |batch|
        invariant Valid() && Left(old(w.clients[id]), w.clients[id]) && others == old(others)[1..]
        invariant old(acts) <= acts
      {
        if Can(w, batch[i]) && Foreign(batch[i], id) {
          ForeignLeaves(w, batch[i], id);
          OneStep(EMPTY, acts, batch[i]);
          acts, w := acts + [batch[i]], Step(w, batch[i]);
        }
      }
    }

    /** The client's next call takes effect, others having been at work before it. */
    method Takes() returns (ghost before: World)
      requires Valid() && Can(w, Call(id))
      requires Submitting(w.clients[id].pc) || w.clients[id].pc.ReleaseGet?
      modifies this`w, this`others, this`acts
      ensures Valid() && id in before.clients && before.clients[id] == old(w.clients[id])
      ensures Can(before, Call(id)) && w == Called(before, id)
      ensures old(acts) < acts && Runs(EMPTY, acts[..|acts| - 1]) && After(EMPTY, acts[..|acts| - 1]) == before
      ensures Passed(|old(acts)|, before)
      ensures if old(others) == [] then others == [] && before == old(w) else |others| < |old(others)|
    {
      Interfere();
      before := w;
      OneStep(EMPTY, acts, Call(id));
      ghost var prior := acts;
      acts, w := acts + [Call(id)], Called(w, id);
      assert acts[..|acts| - 1] == prior;
      OwnCall(before, id);
    }

    /** Nobody interferes, or one batch less is to come. */
    method WatchKeys()
      requires At(Watch)
      modifies this`w, this`others, this`acts
      ensures At(Get(Seen())) && old(acts) < acts
      ensures if old(others) == [] then others == [] else |others| < |old(others)|
    {
      var before := Takes();
      LookedIsNext(before, id);
    }

    /** `attachable`: the record is read, and then the status of the job it named: the job is found if it
        has a status, and has not failed. */
    method Attachable() returns (found: Option<nat>, ghost read: World, ghost asked: World)
      requires Valid() && (w.clients[id].pc.Look? || w.clients[id].pc.Get?)
      modifies this`w, this`others, this`acts
      ensures At(match found
                 case Some(j) => Waiting(j)
                 case None => if old(w.clients[id].pc.Look?) then Watch else GetPrevious(old(w.clients[id].pc).w))
      ensures old(acts) < acts && Passed(|old(acts)|, read) && Passed(|old(acts)|, asked) && asked.status == w.status
      ensures forall j ::
        found == Some(j) <==> RecordIs(read, key, j) && j in asked.status && !asked.status[j].Failed?
      ensures if old(others) == [] then others == [] && Seen() == old(Seen()) else |others| < |old(others)|
    {
      read := Takes();
      LookedIsNext(read, id);
      var record := if key in w.records then Some(w.records[key]) else None;
      if record.None? { return None, read, read; }
      ghost var soFar := acts;
      asked := Takes();
      LookedIsNext(asked, id);
      SamePrefix(soFar, acts, |soFar| - 1);
      return if Dead(w, record.value) then None else record, read, asked;
    }

    /** The thread's pointer is read, and then whether the job it named is still queued or running. */
    method Behind(ghost seen: Watched) returns (behind: bool, ghost read: World)
      requires At(GetPrevious(seen))
      modifies this`w, this`others, this`acts
      ensures At(Exec(seen, behind)) && old(acts) < acts && Passed(|old(acts)|, read)
      ensures behind <==>
        && thread in read.threadJobs && read.threadJobs[thread] in w.status
        && (w.status[read.threadJobs[thread]].Queued? || w.status[read.threadJobs[thread]].Running?)
      ensures if old(others) == [] then others == [] && Seen() == old(Seen()) else |others| < |old(others)|
    {
      read := Takes();
      LookedIsNext(read, id);
      var previous := if thread in w.threadJobs then Some(w.threadJobs[thread]) else None;
      if previous.None? { return false, read; }
      ghost var soFar := acts;
      var before := Takes();
      LookedIsNext(before, id);
      SamePrefix(soFar, acts, |soFar| - 1);
      return Live(w, previous.value), read;
    }

    /** MULTI ... EXEC, which takes effect in the state `before`: false when a watched key was written
        since it was watched. */
    method Execute(ghost seen: Watched, ghost behind: bool) returns (ok: bool, ghost before: World)
      requires At(Exec(seen, behind))
      modifies this`w, this`others, this`acts
      ensures At(if ok then Waiting(job) else Watch) && old(acts) < acts && Passed(|old(acts)|, before)
      ensures ok <==> seen == Current(before, key, thread)
      ensures id in before.clients && if ok then Queues(before, behind) else w == Go(before, id, Watch)
      ensures if old(others) == [] then others == [] && before == old(w) else |others| < |old(others)|
    {
      before := Takes();
      ok := w.clients[id].pc.Waiting?;
      if ok { QueuesAll(before, behind); }
    }

    /** The last call was the transaction, in the state `before` of the broker: the record and the
        thread's pointer name the new job, which is queued last; and unless the request is told that it
        waits, the job the pointer named until then was not queued or running. */
    ghost predicate Queues(before: World, behind: bool)
      reads this
    {
      && acts != [] && Runs(EMPTY, acts[..|acts| - 1]) && After(EMPTY, acts[..|acts| - 1]) == before
      && id in before.clients && before.clients[id] == Client(key, thread, job, before.clients[id].pc)
      && before.clients[id].pc == Exec(Current(before, key, thread), behind)
      && w == Called(before, id)
      && w.records == before.records[key := job] && w.threadJobs == before.threadJobs[thread := job]
      && w.status == before.status[job := Queued] && w.queued == before.queued + [Entry(key, thread, job)]
      && (PointerLive(before, thread) ==> behind)
    }

    lemma QueuesAll(before: World, behind: bool)
      requires Valid() && acts != [] && Runs(EMPTY, acts[..|acts| - 1]) && After(EMPTY, acts[..|acts| - 1]) == before
      requires id in before.clients && before.clients[id] == Client(key, thread, job, before.clients[id].pc)
      requires before.clients[id].pc.Exec? && before.clients[id].pc.behind == behind
      requires w == Called(before, id) && w.clients[id].pc.Waiting?
      ensures Queues(before, behind)
    {
      assert w == Go(Committed(before, before.clients[id]), id, Waiting(job));
      InvRun(EMPTY, acts[..|acts| - 1]);
      assert ClientOk(before, before.clients[id]);
    }

    /** `submit_once`. It tries again only when another client won the race, so it ends whenever the
        others' work does. `at` is the state in which the record named the job the request is attached
        to, or in which its own job was queued. */
    method SubmitOnce() returns (queued: nat, attached: bool, behind: bool, ghost at: World)
      requires At(Watch)
      modifies this`w, this`others, this`acts
      ensures At(Waiting(queued)) && old(acts) < acts && Passed(|old(acts)|, at)
      ensures attached ==> RecordIs(at, key, queued) && queued in w.status && !w.status[queued].Failed? && !behind
      ensures !attached ==> queued == job && Queues(at, behind)
    {
      while true
        invariant At(Watch) && old(acts) <= acts
        decreases |others|
      {
        WatchKeys();
        ghost var seen := w.clients[id].pc.w;
        var existing;
        ghost var asked;
        existing, at, asked := Attachable();
        if existing.Some? {
          return existing.value, true, false, at;
        }
        ghost var read;
        behind, read := Behind(seen);
        var ok;
        ok, at := Execute(seen, behind);
        if ok {
          return job, false, behind, at;
        }
      }
    }

    /** A request from its arrival: `attachable` first, then `submit_once`. */
    method Send() returns (queued: nat, attached: bool, behind: bool, ghost at: World)
      requires At(Look)
      modifies this`w, this`others, this`acts
      ensures At(Waiting(queued)) && old(acts) < acts && Passed(|old(acts)|, at)
      ensures attached ==> RecordIs(at, key, queued) && queued in w.status && !w.status[queued].Failed? && !behind
      ensures !attached ==> queued == job && Queues(at, behind)
    {
      var found;
      ghost var asked;
      found, at, asked := Attachable();
      if found.Some? {
        return found.value, true, false, at;
      }
      queued, attached, behind, at := SubmitOnce();
    }

    method ReadRecord(ghost answered: nat) returns (record: Option<nat>)
      requires At(ReleaseGet(answered))
      modifies this`w, this`others, this`acts
      ensures record == if key in w.records then Some(w.records[key]) else None
      ensures At(if record == Some(answered) then ReleaseDelete(answered, false) else Over) && old(acts) < acts
      ensures old(others) == [] ==> others == [] && w.records == old(w.records)
    {
      var before := Takes();
      record := if key in w.records then Some(w.records[key]) else None;
    }

    method Delete(ghost answered: nat)
      requires Valid() && w.clients[id].pc.ReleaseDelete?
      modifies this`w, this`others, this`acts
      ensures At(Over) && old(acts) < acts
      ensures old(others) == [] ==> w.records == old(w.records) - {key}
    {
      Interfere();
      OneStep(EMPTY, acts, Call(id));
      OwnDelete(w, id);
      acts, w := acts + [Call(id)], Called(w, id);
    }

    /** `release`: with nobody between its two calls it removes the answered job's record and no other. */
    method Release(answered: nat)
      requires At(ReleaseGet(answered))
      modifies this`w, this`others, this`acts
      ensures At(Over) && old(acts) < acts
      ensures old(others) == [] ==>
        w.records == if RecordIs(old(w), key, answered) then old(w.records) - {key} else old(w.records)
    {
      var record := ReadRecord(answered);
      if record == Some(answered) {
        Delete(answered);
      }
    }
  }
}
