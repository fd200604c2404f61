/** Over every run of proposals, decisions and keyed writes: one active row per slot, supersede chains
    that are the history of the slot, and proposals that never undo a newer soul. */
module PersonaSafety {
  import opened Persona
  import opened Wrappers

  datatype Action =
    | Proposes(u: string, id: Id, text: string, now: int)
    | Approves(u: string, id: Id)
    | Rejects(u: string, id: Id)
    | Sets(u: string, key: string, value: string, id: Id, now: int)

  ghost function Step(t: Table, a: Action): Table {
    match a
    case Proposes(u, id, text, now) => Propose(t, u, id, text, now)
    case Approves(u, id) => Approve(t, u, id)
    case Rejects(u, id) => Reject(t, u, id)
    case Sets(u, key, value, id, now) => WriteKeyed(t, u, key, value, id, now)
  }

  /** New rows get new ids. */
  predicate Fresh(t: Table, a: Action) {
    a.Proposes? || a.Sets? ==> a.id !in t
  }

  ghost function After(acts: seq<Action>): Table {
    if acts == [] then map[] else Step(After(acts[..|acts| - 1]), acts[|acts| - 1])
  }

  ghost predicate Runs(acts: seq<Action>) {
    acts == [] || (Runs(acts[..|acts| - 1]) && Fresh(After(acts[..|acts| - 1]), acts[|acts| - 1]))
  }

  // ---------- One step ----------

  /** Active now or once. */
  predicate Lived(t: Table, u: string, s: Slot, id: Id) {
    id in t && t[id].user == u && t[id].slot == s && (t[id].status == Active || t[id].status == Superseded)
  }

  ghost predicate Grows(t: Table, t': Table) {
    forall id | id in t ::
      && id in t'
      && t'[id].user == t[id].user && t'[id].slot == t[id].slot && t'[id].text == t[id].text
      && t'[id].supersedes == t[id].supersedes && t'[id].created == t[id].created
  }

  ghost predicate Same(t: Table, t': Table, u: string, s: Slot) {
    && (forall id :: IsActive(t', u, s, id) <==> IsActive(t, u, s, id))
    && (forall id :: Lived(t', u, s, id) <==> Lived(t, u, s, id))
  }

  /** `x` becomes the slot's active row in place of the one it supersedes. */
  ghost predicate Activates(t: Table, t': Table, u: string, s: Slot, x: Id) {
    && !Lived(t, u, s, x) && x in t' && t'[x].supersedes == Current(t, u, s)
    && (forall id :: IsActive(t', u, s, id) <==> id == x)
    && (forall id :: Lived(t', u, s, id) <==> id == x || Lived(t, u, s, id))
    && (s.Keyed? && Current(t, u, s).Some? ==> t[Current(t, u, s).value].text != t'[x].text)
  }

  lemma StepGrows(t: Table, a: Action)
    requires Fresh(t, a)
    ensures Grows(t, Step(t, a))
  {
  }

  lemma ProposeKinds(t: Table, v: string, id: Id, text: string, now: int, u: string, s: Slot)
    requires id !in t
    ensures Same(t, Propose(t, v, id, text, now), u, s)
  {
  }

  lemma RejectKinds(t: Table, v: string, id: Id, u: string, s: Slot)
    ensures Same(t, Reject(t, v, id), u, s)
  {
  }

  lemma ApproveKinds(t: Table, v: string, id: Id, u: string, s: Slot)
    requires OneActive(t)
    ensures
      var t' := Approve(t, v, id);
      if t' != t && u == v && s == Soul then Activates(t, t', u, s, id) else Same(t, t', u, s)
  {
    var previous := Current(t, v, Soul);
    var t' := Approve(t, v, id);
    if t' != t {
      assert t'[id] == t[id].(status := Active);
      forall x | x in t && x != id && previous != Some(x) ensures t'[x] == t[x] {
      }
      if u == v && s == Soul {
        forall x ensures IsActive(t', u, s, x) <==> x == id {
          if x != id && IsActive(t, u, s, x) { OnlyCurrent(t, u, s, x); }
        }
      }
    }
  }

  lemma WriteKinds(t: Table, v: string, key: string, value: string, id: Id, now: int, u: string, s: Slot)
    requires OneActive(t) && id !in t
    ensures
      var t' := WriteKeyed(t, v, key, value, id, now);
      if t' != t && u == v && s == Keyed(key) then Activates(t, t', u, s, id) else Same(t, t', u, s)
  {
    var previous := Current(t, v, Keyed(key));
    var t' := WriteKeyed(t, v, key, value, id, now);
    if t' != t && u == v && s == Keyed(key) {
      forall x ensures IsActive(t', u, s, x) <==> x == id {
        if x != id && IsActive(t, u, s, x) { OnlyCurrent(t, u, s, x); }
      }
    }
  }

  /** A step leaves a slot as it is, or activates one row of it. */
  lemma StepKinds(t: Table, a: Action, u: string, s: Slot)
    requires OneActive(t) && Fresh(t, a)
    ensures Same(t, Step(t, a), u, s) || exists x :: Activates(t, Step(t, a), u, s, x)
  {
    match a
    case Proposes(v, id, text, now) => ProposeKinds(t, v, id, text, now, u, s);
    case Approves(v, id) => ApproveKinds(t, v, id, u, s);
    case Rejects(v, id) => RejectKinds(t, v, id, u, s);
    case Sets(v, key, value, id, now) => WriteKinds(t, v, key, value, id, now, u, s);
  }

  lemma StepKeepsOne(t: Table, a: Action)
    requires OneActive(t) && Fresh(t, a)
    ensures OneActive(Step(t, a))
  {
    forall u, s, x, y | IsActive(Step(t, a), u, s, x) && IsActive(Step(t, a), u, s, y) ensures x == y {
      StepKinds(t, a, u, s);
    }
  }

  /** In every run each user has at most one active soul and one active row per key. */
  lemma {:induction false} AtMostOneActive(acts: seq<Action>)
    requires Runs(acts)
    ensures OneActive(After(acts))
  {
    if acts != [] {
      AtMostOneActive(acts[..|acts| - 1]);
      StepKeepsOne(After(acts[..|acts| - 1]), acts[|acts| - 1]);
    }
  }

  /** One user's writes leave every row of another as it is. */
  lemma OthersUntouched(t: Table, a: Action, u: string, id: Id)
    requires Fresh(t, a) && a.u != u
    ensures
      var t' := Step(t, a);
      && (id in t' && t'[id].user == u <==> id in t && t[id].user == u)
      && (id in t && t[id].user == u ==> t'[id] == t[id])
  {
  }

  /** Nor do they count against its cap on proposals. */
  lemma OthersNeverCount(t: Table, a: Action, u: string, now: int)
    requires Fresh(t, a) && a.u != u
    ensures Waiting(Step(t, a), u, now) == Waiting(t, u, now)
  {
    forall id ensures id in Waiting(Step(t, a), u, now) <==> id in Waiting(t, u, now) {
      OthersUntouched(t, a, u, id);
    }
  }

  // ---------- Chains ----------

  /** Following `supersedes` from `start` visits exactly `ids`, in that order, and ends. */
  ghost predicate ChainFrom(t: Table, start: Option<Id>, ids: seq<Id>)
    decreases |ids|
  {
    if ids == [] then start.None?
    else start == Some(ids[0]) && ids[0] in t && ChainFrom(t, t[ids[0]].supersedes, ids[1..])
  }

  ghost predicate NoTwice(ids: seq<Id>)
    decreases |ids|
  {
    ids == [] || (ids[0] !in ids[1..] && NoTwice(ids[1..]))
  }

  /** Neighbours hold different values. */
  ghost predicate Varied(t: Table, ids: seq<Id>)
    decreases |ids|
  {
    |ids| < 2 || (ids[0] in t && ids[1] in t && t[ids[0]].text != t[ids[1]].text && Varied(t, ids[1..]))
  }

  ghost predicate Becomes(t: Table, t': Table, u: string, s: Slot, id: Id) {
    IsActive(t', u, s, id) && !IsActive(t, u, s, id)
  }

  /** The rows of a slot that ever became active in a run, newest first. */
  ghost function History(acts: seq<Action>, u: string, s: Slot): seq<Id> {
    if acts == [] then []
    else
      var init := acts[..|acts| - 1];
      var older := History(init, u, s);
      if exists id :: Becomes(After(init), After(acts), u, s, id) then
        var id :| Becomes(After(init), After(acts), u, s, id);
        [id] + older
      else older
  }

  ghost predicate Line(t: Table, u: string, s: Slot, h: seq<Id>) {
    && ChainFrom(t, Current(t, u, s), h) && NoTwice(h)
    && (forall id :: id in h <==> Lived(t, u, s, id))
    && (s.Keyed? ==> Varied(t, h))
  }

  lemma {:induction false} ChainKept(t: Table, t': Table, start: Option<Id>, ids: seq<Id>)
    requires ChainFrom(t, start, ids) && Grows(t, t')
    ensures ChainFrom(t', start, ids)
    decreases |ids|
  {
    if ids != [] { ChainKept(t, t', t[ids[0]].supersedes, ids[1..]); }
  }

  lemma {:induction false} VariedKept(t: Table, t': Table, ids: seq<Id>)
    requires Varied(t, ids) && Grows(t, t')
    ensures Varied(t', ids)
    decreases |ids|
  {
    if |ids| >= 2 { VariedKept(t, t', ids[1..]); }
  }

  lemma SameCurrent(t: Table, t': Table, u: string, s: Slot)
    requires OneActive(t) && Same(t, t', u, s)
    ensures Current(t', u, s) == Current(t, u, s)
  {
    var c := Current(t, u, s);
    if c.Some? { assert IsActive(t', u, s, c.value); }
    var c' := Current(t', u, s);
    if c'.Some? { assert IsActive(t, u, s, c'.value); }
  }

  lemma NewCurrent(t: Table, t': Table, u: string, s: Slot, x: Id)
    requires Activates(t, t', u, s, x)
    ensures Current(t', u, s) == Some(x)
  {
    assert IsActive(t', u, s, x);
  }

  lemma LineSame(t: Table, t': Table, u: string, s: Slot, h: seq<Id>)
    requires OneActive(t) && Line(t, u, s, h) && Same(t, t', u, s) && Grows(t, t')
    ensures Line(t', u, s, h)
  {
    SameCurrent(t, t', u, s);
    ChainKept(t, t', Current(t, u, s), h);
    if s.Keyed? { VariedKept(t, t', h); }
  }

  lemma LineLonger(t: Table, t': Table, u: string, s: Slot, h: seq<Id>, x: Id)
    requires Line(t, u, s, h) && Activates(t, t', u, s, x) && Grows(t, t')
    ensures Line(t', u, s, [x] + h)
  {
    NewCurrent(t, t', u, s, x);
    ChainKept(t, t', Current(t, u, s), h);
    assert ([x] + h)[1..] == h;
    if s.Keyed? {
      VariedKept(t, t', h);
      if h != [] { assert Current(t, u, s) == Some(h[0]); }
    }
  }

  /** In every run, following `supersedes` from a slot's active row visits exactly the rows that were
      ever active in it, newest first, each once; for a key no two neighbours hold the same value. */
  lemma {:induction false} ChainIsHistory(acts: seq<Action>, u: string, s: Slot)
    requires Runs(acts)
    ensures Line(After(acts), u, s, History(acts, u, s))
  {
    if acts == [] {
    } else {
      var init, a := acts[..|acts| - 1], acts[|acts| - 1];
      var t, t' := After(init), After(acts);
      ChainIsHistory(init, u, s);
      AtMostOneActive(init);
      StepGrows(t, a);
      StepKinds(t, a, u, s);
      if Same(t, t', u, s) {
        LineSame(t, t', u, s, History(init, u, s));
      } else {
        var x :| Activates(t, t', u, s, x);
        LineLonger(t, t', u, s, History(init, u, s), x);
        assert Becomes(t, t', u, s, x);
      }
    }
  }

  // ---------- Stale proposals ----------

  /** `o` was the soul once and is not any more. */
  ghost predicate Past(t: Table, u: string, o: Option<Id>) {
    && Current(t, u, Soul) != o
    && (o.Some? ==> Lived(t, u, Soul, o.value))
  }

  lemma PastStays(t: Table, a: Action, u: string, o: Option<Id>)
    requires OneActive(t) && Fresh(t, a) && Past(t, u, o)
    ensures Past(Step(t, a), u, o)
  {
    var t' := Step(t, a);
    StepKinds(t, a, u, Soul);
    if Same(t, t', u, Soul) {
      SameCurrent(t, t', u, Soul);
    } else {
      var x :| Activates(t, t', u, Soul, x);
      NewCurrent(t, t', u, Soul, x);
    }
  }

  /** What a proposal would replace was the soul when it was written. */
  ghost predicate Grounded(t: Table) {
    forall id | id in t && t[id].slot == Soul && t[id].supersedes.Some? ::
      Lived(t, t[id].user, Soul, t[id].supersedes.value)
  }

  lemma LivesOn(t: Table, a: Action, u: string, x: Id)
    requires OneActive(t) && Fresh(t, a) && Lived(t, u, Soul, x)
    ensures Lived(Step(t, a), u, Soul, x)
  {
    StepKinds(t, a, u, Soul);
  }

  lemma StepGrounded(t: Table, a: Action)
    requires OneActive(t) && Fresh(t, a) && Grounded(t)
    ensures Grounded(Step(t, a))
  {
    var t' := Step(t, a);
    StepGrows(t, a);
    forall id | id in t' && t'[id].slot == Soul && t'[id].supersedes.Some?
      ensures Lived(t', t'[id].user, Soul, t'[id].supersedes.value)
    {
      var x := t'[id].supersedes.value;
      assert Lived(t, t'[id].user, Soul, x);
      LivesOn(t, a, t'[id].user, x);
    }
  }

  lemma {:induction false} AlwaysGrounded(acts: seq<Action>)
    requires Runs(acts)
    ensures Grounded(After(acts))
  {
    if acts != [] {
      var init := acts[..|acts| - 1];
      AlwaysGrounded(init);
      AtMostOneActive(init);
      StepGrounded(After(init), acts[|acts| - 1]);
    }
  }

  /** A proposal once stale is stale forever: it is never applied. */
  lemma {:induction false} StaleForever(acts: seq<Action>, k: nat, u: string, id: Id)
    requires Runs(acts) && k <= |acts|
    requires
      var t := After(acts[..k]);
      id in t && t[id].user == u && t[id].slot == Soul && t[id].supersedes != Current(t, u, Soul)
    ensures
      var t := After(acts);
      && id in t && t[id].supersedes == After(acts[..k])[id].supersedes != Current(t, u, Soul)
      && Approve(t, u, id) == t
    decreases |acts|
  {
    PastForever(acts, k, u, id);
  }

  lemma {:induction false} PastForever(acts: seq<Action>, k: nat, u: string, id: Id)
    requires Runs(acts) && k <= |acts|
    requires
      var t := After(acts[..k]);
      id in t && t[id].user == u && t[id].slot == Soul && t[id].supersedes != Current(t, u, Soul)
    ensures
      var o := After(acts[..k])[id].supersedes;
      id in After(acts) && After(acts)[id].supersedes == o && Past(After(acts), u, o)
    decreases |acts|
  {
    if k == |acts| {
      assert acts[..k] == acts;
      AlwaysGrounded(acts);
    } else {
      var init, a := acts[..|acts| - 1], acts[|acts| - 1];
      assert init[..k] == acts[..k];
      PastForever(init, k, u, id);
      AtMostOneActive(init);
      StepGrows(After(init), a);
      PastStays(After(init), a, u, After(init)[id].supersedes);
    }
  }

  /** So an approval that applies replaces the very soul its proposal was written against: that soul
      has been the active one at every moment since, and no newer one is undone. */
  lemma ApprovalUndoesNothingNewer(acts: seq<Action>, k: nat, u: string, id: Id)
    requires Runs(acts) && k <= |acts| && id in After(acts[..k])
    requires Approve(After(acts), u, id) != After(acts)
    ensures id in After(acts)
    ensures Current(After(acts[..k]), u, Soul) == Current(After(acts), u, Soul) == After(acts)[id].supersedes
  {
    RowStays(acts, k, id);
    if Current(After(acts[..k]), u, Soul) != After(acts[..k])[id].supersedes {
      StaleForever(acts, k, u, id);
    }
  }

  lemma {:induction false} RowStays(acts: seq<Action>, k: nat, id: Id)
    requires Runs(acts) && k <= |acts| && id in After(acts[..k])
    ensures id in After(acts)
    ensures
      var f, f' := After(acts[..k])[id], After(acts)[id];
      f'.user == f.user && f'.slot == f.slot && f'.supersedes == f.supersedes
    decreases |acts|
  {
    if k == |acts| {
      assert acts[..k] == acts;
    } else {
      var init := acts[..|acts| - 1];
      assert init[..k] == acts[..k];
      RowStays(init, k, id);
      StepGrows(After(init), acts[|acts| - 1]);
    }
  }

  // ---------- The cap on proposals ----------

  lemma FewerWait(s: set<Id>, s': set<Id>)
    requires s <= s'
    ensures |s| <= |s'|
  {
    assert s' == s + (s' - s);
  }

  ghost predicate NoneAfter(t: Table, now: int) {
    forall id | id in t :: t[id].created <= now
  }

  lemma ProposalCounted(t: Table, v: string, id: Id, text: string, at: int, u: string, now: int)
    requires id !in t && |Waiting(t, u, now)| <= MAX_PENDING && NoneAfter(Propose(t, v, id, text, at), now)
    ensures |Waiting(Propose(t, v, id, text, at), u, now)| <= MAX_PENDING
  {
    var t' := Propose(t, v, id, text, at);
    if v == u && t' != t {
      assert t'[id].created == at <= now;
      FewerWait(Waiting(t', u, now), Waiting(t, u, at) + {id});
    } else {
      FewerWait(Waiting(t', u, now), Waiting(t, u, now));
    }
  }

  lemma OthersNotCounted(t: Table, a: Action, u: string, now: int)
    requires Fresh(t, a) && !a.Proposes?
    ensures Waiting(Step(t, a), u, now) <= Waiting(t, u, now)
  {
  }

  /** At any time not before the last row's, at most three young proposals wait. No order of the
      rows' times is needed. */
  lemma {:induction false} PendingCapped(acts: seq<Action>, u: string, now: int)
    requires Runs(acts) && NoneAfter(After(acts), now)
    ensures |Waiting(After(acts), u, now)| <= MAX_PENDING
  {
    if acts != [] {
      var init, a := acts[..|acts| - 1], acts[|acts| - 1];
      var t := After(init);
      StepGrows(t, a);
      assert NoneAfter(t, now) by {
        forall id | id in t ensures t[id].created <= now { assert Step(t, a)[id].created <= now; }
      }
      PendingCapped(init, u, now);
      if a.Proposes? {
        ProposalCounted(t, a.u, a.id, a.text, a.now, u, now);
      } else {
        OthersNotCounted(t, a, u, now);
        FewerWait(Waiting(Step(t, a), u, now), Waiting(t, u, now));
      }
    }
  }

  // ---------- Several keys at once ----------

  ghost predicate Holds(t: Table, u: string, key: string, value: string) {
    Current(t, u, Keyed(key)).Some? && t[Current(t, u, Keyed(key)).value].text == value
  }

  lemma WriteHolds(t: Table, u: string, key: string, value: string, id: Id, now: int)
    requires OneActive(t) && id !in t
    ensures Holds(WriteKeyed(t, u, key, value, id, now), u, key, value)
  {
    var t' := WriteKeyed(t, u, key, value, id, now);
    WriteKinds(t, u, key, value, id, now, u, Keyed(key));
    if t' != t { NewCurrent(t, t', u, Keyed(key), id); }
  }

  ghost predicate Distinct(ids: seq<Id>) {
    forall i, j | 0 <= i < j < |ids| :: ids[i] != ids[j]
  }

  ghost predicate NoKeyTwice(given: seq<(string, string)>) {
    forall i, j | 0 <= i < j < |given| :: given[i].0 != given[j].0
  }

  predicate Names(given: seq<(string, string)>, s: Slot) {
    s.Keyed? && exists p | p in given :: p.0 == s.key
  }

  lemma StillHolds(t: Table, t': Table, u: string, key: string, value: string)
    requires OneActive(t) && Holds(t, u, key, value) && Same(t, t', u, Keyed(key)) && Grows(t, t')
    ensures Holds(t', u, key, value)
  {
    SameCurrent(t, t', u, Keyed(key));
  }

  ghost predicate NewIds(t: Table, given: seq<(string, string)>, ids: seq<Id>) {
    |given| == |ids| && (forall id | id in ids :: id !in t) && Distinct(ids)
  }

  lemma {:induction false} WriteAllIds(t: Table, u: string, given: seq<(string, string)>, ids: seq<Id>, now: int)
    requires OneActive(t) && NewIds(t, given, ids)
    ensures
      var t' := WriteAll(t, u, given, ids, now);
      OneActive(t') && Grows(t, t') && forall id | id in t' && id !in t :: id in ids
    decreases |given|
  {
    if given != [] {
      var n := |given| - 1;
      var t1 := WriteAll(t, u, given[..n], ids[..n], now);
      WriteAllIds(t, u, given[..n], ids[..n], now);
      assert ids[n] !in t1;
      WriteKeepsOne(t1, u, given[n].0, given[n].1, ids[n], now);
      WriteAddsOne(t1, u, given[n].0, given[n].1, ids[n], now);
      StepGrows(t1, Sets(u, given[n].0, given[n].1, ids[n], now));
    }
  }

  lemma NextId(t: Table, u: string, given: seq<(string, string)>, ids: seq<Id>, now: int)
    requires OneActive(t) && NewIds(t, given, ids) && given != []
    ensures
      var n := |given| - 1;
      var t1 := WriteAll(t, u, given[..n], ids[..n], now);
      NewIds(t, given[..n], ids[..n]) && OneActive(t1) && ids[n] !in t1
  {
    var n := |given| - 1;
    WriteAllIds(t, u, given[..n], ids[..n], now);
  }

  /** After a write of several keys every other slot is as it was. */
  lemma {:induction false} OtherSlotsStay(t: Table, u: string, given: seq<(string, string)>, ids: seq<Id>, now: int,
                                          v: string, s: Slot)
    requires OneActive(t) && NewIds(t, given, ids) && (v != u || !Names(given, s))
    ensures Same(t, WriteAll(t, u, given, ids, now), v, s)
    decreases |given|
  {
    if given != [] {
      var n := |given| - 1;
      NextId(t, u, given, ids, now);
      assert given[n] in given;
      OtherSlotsStay(t, u, given[..n], ids[..n], now, v, s);
      WriteKinds(WriteAll(t, u, given[..n], ids[..n], now), u, given[n].0, given[n].1, ids[n], now, v, s);
    }
  }

  lemma WriteKeepsHeld(t: Table, u: string, key: string, value: string, p: (string, string), id: Id, now: int)
    requires OneActive(t) && id !in t && Holds(t, u, p.0, p.1) && p.0 != key
    ensures Holds(WriteKeyed(t, u, key, value, id, now), u, p.0, p.1)
  {
    WriteKinds(t, u, key, value, id, now, u, Keyed(p.0));
    StepGrows(t, Sets(u, key, value, id, now));
    StillHolds(t, WriteKeyed(t, u, key, value, id, now), u, p.0, p.1);
  }

  /** And every given key holds its value. */
  lemma {:induction false} GivenKeyHolds(t: Table, u: string, given: seq<(string, string)>, ids: seq<Id>, now: int,
                                         i: nat, p: (string, string))
    requires OneActive(t) && NewIds(t, given, ids) && NoKeyTwice(given) && i < |given| && given[i] == p
    ensures Holds(WriteAll(t, u, given, ids, now), u, p.0, p.1)
    decreases |given|
  {
    var n := |given| - 1;
    var t1 := WriteAll(t, u, given[..n], ids[..n], now);
    NextId(t, u, given, ids, now);
    if i == n {
      WriteHolds(t1, u, p.0, p.1, ids[n], now);
    } else {
      GivenKeyHolds(t, u, given[..n], ids[..n], now, i, p);
      WriteKeepsHeld(t1, u, given[n].0, given[n].1, p, ids[n], now);
    }
  }
}
