/** What the actions of others leave of a client of services/api/src/queue/submit.py. */
module Interference {
  import opened Submission
  import opened SubmissionSafety

  /** What another client, a worker or the clock does. */
  predicate Foreign(a: Action, id: nat) {
    !((a.Call? || a.Delivered?) && a.id == id)
  }

  /** At most it takes the record a release had read. */
  ghost predicate Left(before: Client, after: Client) {
    after == before || (before.pc.ReleaseDelete? && after == before.(pc := ReleaseDelete(before.pc.released, true)))
  }

  lemma VacateLeaves(clients: map<nat, Client>, key: nat, id: nat)
    requires id in clients
    ensures id in Vacate(clients, key) && Left(clients[id], Vacate(clients, key)[id])
  {
  }

  lemma ExecLeaves(w: World, other: nat, id: nat)
    requires Can(w, Call(other)) && w.clients[other].pc.Exec? && other != id && id in w.clients
    ensures id in Called(w, other).clients && Left(w.clients[id], Called(w, other).clients[id])
  {
    VacateLeaves(w.clients, w.clients[other].key, id);
  }

  lemma ReleaseLeaves(w: World, other: nat, id: nat)
    requires Can(w, Call(other)) && w.clients[other].pc.ReleaseDelete? && other != id && id in w.clients
    ensures id in Called(w, other).clients && Left(w.clients[id], Called(w, other).clients[id])
  {
    VacateLeaves(Go(w, other, Over).clients, w.clients[other].key, id);
  }

  lemma CallLeaves(w: World, other: nat, id: nat)
    requires Can(w, Call(other)) && other != id && id in w.clients
    ensures id in Called(w, other).clients && Left(w.clients[id], Called(w, other).clients[id])
  {
    var pc := w.clients[other].pc;
    if pc.Exec? {
      ExecLeaves(w, other, id);
    } else if Submitting(pc) {
      LookedIsNext(w, other);
    } else if pc.ReleaseDelete? {
      ReleaseLeaves(w, other, id);
    }
  }

  lemma ForeignLeaves(w: World, a: Action, id: nat)
    requires Can(w, a) && Foreign(a, id) && id in w.clients
    ensures id in Step(w, a).clients && Left(w.clients[id], Step(w, a).clients[id])
  {
    match a {
      case Call(other) => CallLeaves(w, other, id);
      case ExpireRecord(key, _) => VacateLeaves(w.clients, key, id);
      case _ =>
    }
  }

  lemma OwnCall(w: World, id: nat)
    requires Can(w, Call(id)) && (Submitting(w.clients[id].pc) || w.clients[id].pc.ReleaseGet?)
    ensures
      var c, s := w.clients[id], Called(w, id);
      id in s.clients && s.clients[id] == c.(pc := s.clients[id].pc)
  {
    if Submitting(w.clients[id].pc) && !w.clients[id].pc.Exec? { LookedIsNext(w, id); }
  }

  lemma OwnDelete(w: World, id: nat)
    requires id in w.clients && w.clients[id].pc.ReleaseDelete?
    ensures
      var c, s := w.clients[id], Called(w, id);
      id in s.clients && s.clients[id] == c.(pc := Over) && s.records == w.records - {c.key}
  {
    var c := w.clients[id];
    if c.key !in w.records { assert w.records - {c.key} == w.records; }
  }

  lemma ExecKeepsClients(w: World, id: nat)
    requires Can(w, Call(id)) && w.clients[id].pc.Exec?
    ensures Called(w, id).clients.Keys == w.clients.Keys
    ensures Called(w, id).clients[id].pc.Waiting? || Called(w, id).clients[id].pc.Watch?
  {
    assert Vacate(w.clients, w.clients[id].key).Keys == w.clients.Keys;
  }

  lemma DeleteKeepsClients(w: World, id: nat)
    requires Can(w, Call(id)) && w.clients[id].pc.ReleaseDelete?
    ensures Called(w, id).clients.Keys == w.clients.Keys
  {
    assert Vacate(Go(w, id, Over).clients, w.clients[id].key).Keys == Go(w, id, Over).clients.Keys;
  }

  /** A call brings no client and takes none away. */
  lemma CallKeepsClients(w: World, id: nat)
    requires Can(w, Call(id))
    ensures Called(w, id).clients.Keys == w.clients.Keys
  {
    var pc := w.clients[id].pc;
    if pc.Exec? {
      ExecKeepsClients(w, id);
    } else if Submitting(pc) {
      LookedIsNext(w, id);
    } else if pc.ReleaseDelete? {
      DeleteKeepsClients(w, id);
    }
  }

  lemma LooksLeadTo(w: World, id: nat)
    requires Can(w, Call(id)) && Submitting(w.clients[id].pc) && !w.clients[id].pc.Exec?
    ensures
      id in Called(w, id).clients
      && !Called(w, id).clients[id].pc.ReleaseGet? && !Called(w, id).clients[id].pc.ReleaseDelete?
  {
    LookedIsNext(w, id);
  }

  lemma ReleaseGetLeadsTo(w: World, id: nat)
    requires Can(w, Call(id)) && w.clients[id].pc.ReleaseGet?
    ensures
      var next := Called(w, id).clients;
      id in next && (next[id].pc.Over? || next[id].pc == ReleaseDelete(w.clients[id].pc.answered, false))
  {
  }

  /** Only the read of a release leads to its delete. */
  lemma CallLeadsTo(w: World, id: nat)
    requires Can(w, Call(id)) && id in Called(w, id).clients
    ensures
      var pc, next := w.clients[id].pc, Called(w, id).clients[id].pc;
      (next.ReleaseGet? || next.ReleaseDelete?) ==> pc.ReleaseGet? && next == ReleaseDelete(pc.answered, false)
  {
    var pc := w.clients[id].pc;
    if pc.Exec? {
      ExecKeepsClients(w, id);
    } else if Submitting(pc) {
      LooksLeadTo(w, id);
    } else if pc.ReleaseDelete? {
      OwnDelete(w, id);
    } else {
      ReleaseGetLeadsTo(w, id);
    }
  }
}
