/** Two clients attached to one job release it at once
    (services/api/src/queue/submit.py, services/api/src/api/openai/routes.py). */
module TwoReleases {
  import opened Submission
  import opened SubmissionSafety
  import opened SubmitAlone

  lemma QueueSmoothly(acts: seq<Action>, id: nat, key: nat, thread: nat, job: nat) returns (more: seq<Action>)
    requires Runs(EMPTY, acts) && Smooth(acts) && Fresh(After(EMPTY, acts), id, key, thread, job)
    ensures Runs(EMPTY, more) && Smooth(more)
    ensures After(EMPTY, more) == QueuedAlone(After(EMPTY, acts), id, key, thread, job)
  {
    more := QueueAlone(EMPTY, acts, id, key, thread, job);
    SmoothAlone(acts, more, id, key);
  }

  lemma Advance(acts: seq<Action>, a: Action, s: World, t: World) returns (more: seq<Action>)
    requires Runs(EMPTY, acts) && After(EMPTY, acts) == s && Can(s, a) && Step(s, a) == t
    ensures Runs(EMPTY, more) && After(EMPTY, more) == t
    ensures more == acts + [a]
  {
    OneStep(EMPTY, acts, a);
    more := acts + [a];
  }

  // The worlds of the story below: request 7 is sent by client 1.
  ghost const FIRST := EMPTY.(
    records := map[7 := 1], threadJobs := map[1 := 1], status := map[1 := Queued],
    recordVersion := map[7 := 1], threadVersion := map[1 := 1],
    clients := map[1 := Client(7, 1, 1, Waiting(1))], queued := [Entry(7, 1, 1)])

  ghost const ANSWERED := FIRST.(status := map[1 := Running], won := {1})

  ghost function Pair(first: Pc, second: Pc): map<nat, Client> {
    map[1 := Client(7, 1, 1, first), 2 := Client(7, 2, 2, second)]
  }

  ghost const EMPTIED := ANSWERED.(
    records := map[], recordVersion := map[7 := 2], released := {1}, clients := Pair(Over, ReleaseDelete(1, true)))

  lemma Answered() returns (acts: seq<Action>)
    ensures Runs(EMPTY, acts) && Smooth(acts) && After(EMPTY, acts) == ANSWERED
  {
    acts := QueueSmoothly([], 1, 7, 1, 1);
    assert After(EMPTY, acts) == FIRST;
    acts := Advance(acts, Start(1), FIRST, FIRST.(status := map[1 := Running]));
    acts := Advance(acts, Win(1), FIRST.(status := map[1 := Running]), ANSWERED);
  }

  /** Client 2 sends the same request and attaches to the job. */
  lemma Attached() returns (acts: seq<Action>)
    ensures Runs(EMPTY, acts) && Smooth(acts)
      && After(EMPTY, acts) == ANSWERED.(clients := Pair(Waiting(1), Waiting(1)))
  {
    acts := Answered();
    var looks, found := ANSWERED.(clients := Pair(Waiting(1), Look)),
      ANSWERED.(clients := Pair(Waiting(1), LookStatus(1)));
    acts := Advance(acts, Arrive(2, 7, 2, 2), ANSWERED, looks);
    acts := Advance(acts, Call(2), looks, found);
    acts := Advance(acts, Call(2), found, ANSWERED.(clients := Pair(Waiting(1), Waiting(1))));
  }

  lemma FirstReads() returns (acts: seq<Action>)
    ensures Runs(EMPTY, acts) && Smooth(acts)
    ensures After(EMPTY, acts) == ANSWERED.(clients := Pair(ReleaseDelete(1, false), Waiting(1)))
  {
    acts := Attached();
    var a := ANSWERED.(clients := Pair(Waiting(1), Waiting(1)));
    var b := ANSWERED.(clients := Pair(ReleaseGet(1), Waiting(1)));
    acts := Advance(acts, Delivered(1), a, b);
    acts := Advance(acts, Call(1), b, ANSWERED.(clients := Pair(ReleaseDelete(1, false), Waiting(1))));
  }

  /** Both read the answer to the end and go on to release it: both have read the record. */
  lemma BothRead() returns (acts: seq<Action>)
    ensures Runs(EMPTY, acts) && Smooth(acts)
    ensures After(EMPTY, acts) == ANSWERED.(clients := Pair(ReleaseDelete(1, false), ReleaseDelete(1, false)))
  {
    acts := FirstReads();
    var a := ANSWERED.(clients := Pair(ReleaseDelete(1, false), Waiting(1)));
    var b := ANSWERED.(clients := Pair(ReleaseDelete(1, false), ReleaseGet(1)));
    acts := Advance(acts, Delivered(2), a, b);
    acts := Advance(acts, Call(2), b, ANSWERED.(clients := Pair(ReleaseDelete(1, false), ReleaseDelete(1, false))));
  }

  lemma OneDeleted() returns (acts: seq<Action>)
    ensures Runs(EMPTY, acts) && Smooth(acts) && After(EMPTY, acts) == EMPTIED
  {
    acts := BothRead();
    var before := ANSWERED.(clients := Pair(ReleaseDelete(1, false), ReleaseDelete(1, false)));
    assert Step(before, Call(1)).clients == EMPTIED.clients;
    acts := Advance(acts, Call(1), before, EMPTIED);
  }

  /** Request 7 was queued a second time, as job 3; client 2 still has to delete, or has. */
  ghost predicate QueuedTwice(w: World, records: map<nat, nat>, stray: set<nat>, pc: Pc) {
    && w.records == records && w.stray == stray && w.won == {1} && w.released == {1} && w.threadJobs.Keys == {1, 3}
    && w.status == map[1 := Running, 3 := Queued] && w.queued == [Entry(7, 1, 1), Entry(7, 3, 3)]
    && w.clients.Keys == {1, 2, 3} && w.clients[1].job == 1 && w.clients[3].job == 3
    && w.clients[2] == Client(7, 2, 2, pc)
  }

  lemma EmptiedIsFree()
    ensures Fresh(EMPTIED, 3, 7, 3, 3)
    ensures QueuedTwice(QueuedAlone(EMPTIED, 3, 7, 3, 3), map[7 := 3], {}, ReleaseDelete(1, true))
  {
    var w := QueuedAlone(EMPTIED, 3, 7, 3, 3);
    assert w.records == map[7 := 3];
    assert w.status == map[1 := Running, 3 := Queued];
    assert w.queued == [Entry(7, 1, 1), Entry(7, 3, 3)];
  }

  lemma Requeued() returns (acts: seq<Action>)
    ensures Runs(EMPTY, acts) && Smooth(acts)
      && QueuedTwice(After(EMPTY, acts), map[7 := 3], {}, ReleaseDelete(1, true))
  {
    acts := OneDeleted();
    EmptiedIsFree();
    acts := QueueSmoothly(acts, 3, 7, 3, 3);
  }

  lemma SecondDelete(w: World)
    requires QueuedTwice(w, map[7 := 3], {}, ReleaseDelete(1, true))
    ensures Can(w, Call(2)) && QueuedTwice(Step(w, Call(2)), map[], {3}, Over)
  {
    assert w.records - {7} == map[];
  }

  lemma Taken() returns (acts: seq<Action>)
    ensures Runs(EMPTY, acts) && Smooth(acts) && QueuedTwice(After(EMPTY, acts), map[], {3}, Over)
  {
    acts := Requeued();
    SecondDelete(After(EMPTY, acts));
    OneStep(EMPTY, acts, Call(2));
    acts := acts + [Call(2)];
  }

  /** The promise of one live job per request breaks without anything failing or expiring: between
      the two deletes of one answered job's record the request is queued again, the second delete
      takes the new record, and the next attempt queues a second live job. */
  lemma TwoLiveJobsForOneRequest() returns (acts: seq<Action>)
    ensures Runs(EMPTY, acts) && Smooth(acts)
    ensures
      var w := After(EMPTY, acts);
      && w.queued == [Entry(7, 1, 1), Entry(7, 3, 3), Entry(7, 4, 4)]
      && w.status == map[1 := Running, 3 := Queued, 4 := Queued] && !Settled(w, 3) && w.stray == {3}
  {
    acts := Taken();
    acts := QueueSmoothly(acts, 4, 7, 4, 4);
  }
}
