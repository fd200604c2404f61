/** The assistant's soul and the keyed facts on the facts table
    (services/agent/src/db/queries/soul.py and facts.py), and the guard in front of an approval
    (services/agent/src/persona/approval.py). Each transaction is one step; ids and times are given. */
module Persona {
  import opened Wrappers

  type Id = string

  datatype Status = Active | Proposed | Superseded | Rejected

  /** What at most one row is active for: the soul, or a key. */
  datatype Slot = Soul | Keyed(key: string)

  /** `text` is a soul's content or a key's value. */
  datatype Fact = Fact(user: string, slot: Slot, text: string, status: Status, supersedes: Option<Id>, created: int)

  type Table = map<Id, Fact>

  const MAX_PENDING := 3
  const DAY := 86_400
  const MAX_AGE := 7 * DAY

  // ---------- Reading ----------

  predicate IsActive(t: Table, u: string, s: Slot, id: Id) {
    id in t && t[id].user == u && t[id].slot == s && t[id].status == Active
  }

  /** The partial unique indexes of the table. */
  ghost predicate OneActive(t: Table) {
    forall u, s, x, y :: IsActive(t, u, s, x) && IsActive(t, u, s, y) ==> x == y
  }

  function ActiveIds(t: Table, u: string, s: Slot): set<Id> {
    set id | id in t && IsActive(t, u, s, id)
  }

  ghost function Current(t: Table, u: string, s: Slot): (r: Option<Id>)
    ensures r.Some? ==> IsActive(t, u, s, r.value)
    ensures r.None? ==> forall id :: !IsActive(t, u, s, id)
  {
    if exists id :: IsActive(t, u, s, id) then
      var id :| IsActive(t, u, s, id);
      Some(id)
    else None
  }

  /** Proposals that wait for a decision, young enough to count. */
  function Waiting(t: Table, u: string, now: int): set<Id> {
    set id | id in t && t[id].user == u && t[id].slot == Soul && t[id].status == Proposed
      && t[id].created > now - MAX_AGE
  }

  predicate IsProposal(t: Table, u: string, id: Id) {
    id in t && t[id].user == u && t[id].slot == Soul && t[id].status == Proposed
  }

  // ---------- The transactions ----------

  ghost function Propose(t: Table, u: string, id: Id, text: string, now: int): Table {
    if |Waiting(t, u, now)| >= MAX_PENDING then t
    else t[id := Fact(u, Soul, text, Proposed, Current(t, u, Soul), now)]
  }

  function Retire(t: Table, previous: Option<Id>): Table
    requires previous.Some? ==> previous.value in t
  {
    if previous.None? then t else t[previous.value := t[previous.value].(status := Superseded)]
  }

  ghost function Approve(t: Table, u: string, id: Id): Table {
    var previous := Current(t, u, Soul);
    if !IsProposal(t, u, id) || t[id].supersedes != previous then t
    else Retire(t, previous)[id := t[id].(status := Active)]
  }

  function Reject(t: Table, u: string, id: Id): Table {
    if IsProposal(t, u, id) then t[id := t[id].(status := Rejected)] else t
  }

  ghost function WriteKeyed(t: Table, u: string, key: string, value: string, id: Id, now: int): Table {
    var previous := Current(t, u, Keyed(key));
    if previous.Some? && t[previous.value].text == value then t
    else Retire(t, previous)[id := Fact(u, Keyed(key), value, Active, previous, now)]
  }

  // ---------- The guard in front of a decision ----------

  datatype Verb = Approving | Rejecting

  datatype Outcome = Approved | RejectedIt | Stale | Raised | Unknown | Ambiguous | Expired | Already(status: Status)

  datatype Verdict = Ok | Refused(why: Outcome)

  /** Soul rows whose id starts with `shortId`, of any status. */
  function Matching(t: Table, u: string, shortId: string): set<Id> {
    set id | id in t && t[id].user == u && t[id].slot == Soul && shortId <= id
  }

  function Judge(found: seq<Fact>, now: int): Verdict {
    if found == [] then Refused(Unknown)
    else if |found| > 1 then Refused(Ambiguous)
    else if found[0].status != Proposed then Refused(Already(found[0].status))
    else if now - found[0].created > MAX_AGE then Refused(Expired)
    else Ok
  }

  /** A proposal that can still be decided counts against the cap, except in the instant it turns
      seven days old. */
  lemma DecidableIsWaiting(t: Table, u: string, id: Id, now: int)
    requires IsProposal(t, u, id)
    ensures Judge([t[id]], now).Ok? <==> id in Waiting(t, u, now) || now - t[id].created == MAX_AGE
  {
  }

  datatype Written = Invalid | Given

  /** `set_many`'s check: keys that are unknown or of another kind. */
  predicate AnyWrong(kinds: map<string, string>, kind: string, given: seq<(string, string)>) {
    exists p | p in given :: p.0 !in kinds || kinds[p.0] != kind
  }

  function GivenOf(values: seq<(string, Option<string>)>): (r: seq<(string, string)>)
    ensures |r| <= |values|
    ensures forall p | p in r :: (p.0, Some(p.1)) in values
    ensures forall p | p in values && p.1.Some? :: (p.0, p.1.value) in r
  {
    if values == [] then []
    else
      var init, last := GivenOf(values[..|values| - 1]), values[|values| - 1];
      assert values == values[..|values| - 1] + [last];
      if last.1.None? then init else init + [(last.0, last.1.value)]
  }

  /** One write after another, each with its own id. */
  ghost function WriteAll(t: Table, u: string, given: seq<(string, string)>, ids: seq<Id>, now: int): Table
    requires |given| <= |ids|
  {
    if given == [] then t
    else
      var n := |given| - 1;
      WriteKeyed(WriteAll(t, u, given[..n], ids[..n], now), u, given[n].0, given[n].1, ids[n], now)
  }

  method ListOf(all: set<Id>) returns (l: seq<Id>)
    ensures IsListOf(l, all)
  {
    var left := all;
    l := [];
    while left != {}
      invariant left <= all && IsListOf(l, all - left)
      decreases left
    {
      var id :| id in left;
      ListGrows(l, all, left, id);
      l, left := l + [id], left - {id};
    }
    assert all - {} == all;
  }

  class FactTable {
    var rows: Table

    constructor ()
      ensures rows == map[]
    {
      rows := map[];
    }

    method ActiveRow(u: string, s: Slot) returns (r: Option<Id>)
      requires OneActive(rows)
      ensures r == Current(rows, u, s)
    {
      var live := ActiveIds(rows, u, s);
      if live == {} {
        assert forall id :: IsActive(rows, u, s, id) ==> id in live;
        return None;
      }
      var id :| id in live;
      return Some(id);
    }

    /** None, storing nothing, while enough proposals already wait. */
    method ProposeSoul(u: string, id: Id, text: string, now: int) returns (saved: Option<Id>)
      requires OneActive(rows) && id !in rows
      modifies this
      ensures rows == Propose(old(rows), u, id, text, now)
      ensures saved == if |Waiting(old(rows), u, now)| >= MAX_PENDING then None else Some(id)
      ensures if saved.None? then rows == old(rows) else
        && rows.Keys == old(rows).Keys + {id} && rows[id].user == u && rows[id].slot == Soul && rows[id].text == text
        && rows[id].status == Proposed && rows[id].created == now
        && rows[id].supersedes == Current(old(rows), u, Soul)
        && forall x | x in old(rows) :: rows[x] == old(rows)[x]
    {
      if |Waiting(rows, u, now)| >= MAX_PENDING {
        return None;
      }
      var current := ActiveRow(u, Soul);
      rows := rows[id := Fact(u, Soul, text, Proposed, current, now)];
      saved := Some(id);
    }

    /** None when the id is no proposal (the call raises); else whether it was applied. */
    method ApproveSoul(u: string, id: Id) returns (applied: Option<bool>)
      requires OneActive(rows)
      modifies this
      ensures rows == Approve(old(rows), u, id)
      ensures applied == if !IsProposal(old(rows), u, id) then None
                         else Some(old(rows)[id].supersedes == Current(old(rows), u, Soul))
      ensures if applied != Some(true) then rows == old(rows) else
        && rows.Keys == old(rows).Keys && rows[id] == old(rows)[id].(status := Active)
        && forall x | x in rows && x != id :: rows[x] ==
             if Current(old(rows), u, Soul) == Some(x) then old(rows)[x].(status := Superseded) else old(rows)[x]
    {
      if !IsProposal(rows, u, id) {
        return None;
      }
      var found := rows[id].supersedes;
      var previous := ActiveRow(u, Soul);
      if found != previous {
        return Some(false);
      }
      if previous.Some? {
        rows := rows[previous.value := rows[previous.value].(status := Superseded)];
      }
      rows := rows[id := rows[id].(status := Active)];
      applied := Some(true);
    }

    method RejectSoul(u: string, id: Id) returns (rejected: bool)
      modifies this
      ensures rows == Reject(old(rows), u, id) && rejected == IsProposal(old(rows), u, id)
      ensures rows == if rejected then old(rows)[id := old(rows)[id].(status := Rejected)] else old(rows)
    {
      rejected := IsProposal(rows, u, id);
      if rejected {
        rows := rows[id := rows[id].(status := Rejected)];
      }
    }

    /** Makes `value` the active value of `key`; an unchanged value writes nothing. */
    method SetKeyed(u: string, key: string, value: string, id: Id, now: int) returns (changed: bool, saved: Id)
      requires OneActive(rows) && id !in rows
      modifies this
      ensures rows == WriteKeyed(old(rows), u, key, value, id, now)
      ensures changed <==> rows != old(rows)
      ensures IsActive(rows, u, Keyed(key), saved) && rows[saved].text == value
      ensures !changed <==> exists x :: IsActive(old(rows), u, Keyed(key), x) && old(rows)[x].text == value
      ensures changed ==> saved == id && rows[id].supersedes == Current(old(rows), u, Keyed(key))
    {
      var current := ActiveRow(u, Keyed(key));
      if current.Some? && rows[current.value].text == value {
        return false, current.value;
      }
      if current.Some? {
        rows := rows[current.value := rows[current.value].(status := Superseded)];
      }
      rows := rows[id := Fact(u, Keyed(key), value, Active, current, now)];
      assert id in rows;
      return true, id;
    }

    method SetMany(kinds: map<string, string>, u: string, kind: string, values: seq<(string, Option<string>)>,
                   ids: seq<Id>, now: int) returns (r: Written)
      requires OneActive(rows) && |ids| == |values|
      requires (forall id | id in ids :: id !in rows) && forall i, j | 0 <= i < j < |ids| :: ids[i] != ids[j]
      modifies this
      ensures r.Invalid? <==>
        exists p | p in values :: p.1.Some? && (p.0 !in kinds || kinds[p.0] != kind)
      ensures rows == if r.Invalid? then old(rows)
        else WriteAll(old(rows), u, GivenOf(values), ids[..|GivenOf(values)|], now)
    {
      var given := GivenOf(values);
      if AnyWrong(kinds, kind, given) {
        var wrong :| wrong in given && (wrong.0 !in kinds || kinds[wrong.0] != kind);
        assert (wrong.0, Some(wrong.1)) in values;
        return Invalid;
      }
      var i := 0;
      while i < |given|
        invariant 0 <= i <= |given|
        invariant rows == WriteAll(old(rows), u, given[..i], ids[..i], now)
        invariant OneActive(rows) && forall k | i <= k < |ids| :: ids[k] !in rows
      {
        WriteNext(old(rows), u, given, ids, now, i);
        WriteKeepsOne(rows, u, given[i].0, given[i].1, ids[i], now);
        WriteAddsOne(rows, u, given[i].0, given[i].1, ids[i], now);
        var _, _ := SetKeyed(u, given[i].0, given[i].1, ids[i], now);
        i := i + 1;
      }
      assert given[..i] == given;
      r := Given;
    }

    /** The rows a short id names, in the order the database gives them. */
    method FindMatching(u: string, shortId: string) returns (ids: seq<Id>, found: seq<Fact>)
      ensures IsListOf(ids, Matching(rows, u, shortId))
      ensures |found| == |ids| && forall i | 0 <= i < |ids| :: ids[i] in rows && found[i] == rows[ids[i]]
    {
      var all := Matching(rows, u, shortId);
      ids := ListOf(all);
      found := [];
      while |found| < |ids|
        invariant |found| <= |ids| && forall i | 0 <= i < |found| :: ids[i] in rows && found[i] == rows[ids[i]]
      {
        assert ids[|found|] in ids;
        found := found + [rows[ids[|found|]]];
      }
    }

    /** Applies or rejects the proposal a short id names. It is looked up in one statement and decided in
        another transaction; `later` is the table that one finds, after whatever others did meanwhile.
        It goes on exactly when the id names one row, that row is still proposed and at most seven days
        old; if the row is no proposal any more by then, the call raises. */
    method Decide(u: string, verb: Verb, shortId: string, now: int, later: Table) returns (r: Outcome)
      requires OneActive(later)
      modifies this
      ensures forall id | Decidable(old(rows), u, shortId, now, id) ::
        if !IsProposal(later, u, id) then r == Raised && rows == later
        else if verb.Rejecting? then r == RejectedIt && rows == Reject(later, u, id)
        else
          && r == (if later[id].supersedes == Current(later, u, Soul) then Approved else Stale)
          && rows == Approve(later, u, id)
      ensures (forall id :: !Decidable(old(rows), u, shortId, now, id)) ==>
        rows == old(rows) && Refusal(rows, u, shortId, r)
    {
      var ids, found := FindMatching(u, shortId);
      ListSize(ids, Matching(rows, u, shortId));
      var verdict := Judge(found, now);
      NamedIs(rows, u, shortId);
      if verdict.Refused? {
        RefusedFor(rows, u, shortId, now, ids, found);
        forall id ensures !Decidable(rows, u, shortId, now, id) {
          NotDecidable(rows, u, shortId, now, ids, found, id);
        }
        return verdict.why;
      }
      assert Decidable(rows, u, shortId, now, ids[0]);
      rows := later;
      if verb.Approving? {
        var applied := ApproveSoul(u, ids[0]);
        return if applied.None? then Raised else if applied.value then Approved else Stale;
      }
      var rejected := RejectSoul(u, ids[0]);
      return if rejected then RejectedIt else Raised;
    }
  }

  /** A soul row of the user whose id starts with the short one. */
  ghost predicate Named(t: Table, u: string, shortId: string, id: Id) {
    id in t && t[id].user == u && t[id].slot == Soul && |shortId| <= |id| && id[..|shortId|] == shortId
  }

  /** The one row named is still proposed, and at most seven days old. */
  ghost predicate Decidable(t: Table, u: string, shortId: string, now: int, id: Id) {
    && (forall x :: Named(t, u, shortId, x) <==> x == id)
    && id in t && t[id].status == Proposed && now - t[id].created <= 7 * 86_400
  }

  lemma MatchingIsNamed(t: Table, u: string, shortId: string, id: Id)
    ensures id in Matching(t, u, shortId) <==> Named(t, u, shortId, id)
    ensures Matching(t, u, shortId) == {id} <==> forall x :: Named(t, u, shortId, x) <==> x == id
  {
    forall x ensures x in Matching(t, u, shortId) <==> Named(t, u, shortId, x) {
      if x in t && |shortId| <= |x| { assert shortId <= x <==> x[..|shortId|] == shortId; }
    }
    if forall x :: Named(t, u, shortId, x) <==> x == id {
      assert forall x :: x in Matching(t, u, shortId) <==> x == id;
      assert Matching(t, u, shortId) == {id};
    }
  }

  lemma NamedIs(t: Table, u: string, shortId: string)
    ensures forall id :: id in Matching(t, u, shortId) <==> Named(t, u, shortId, id)
    ensures forall id ::
      (forall x :: Named(t, u, shortId, x) <==> x == id) <==> Matching(t, u, shortId) == {id}
  {
    forall id
      ensures id in Matching(t, u, shortId) <==> Named(t, u, shortId, id)
      ensures (forall x :: Named(t, u, shortId, x) <==> x == id) <==> Matching(t, u, shortId) == {id}
    {
      MatchingIsNamed(t, u, shortId, id);
    }
  }

  /** Why nothing was decided. */
  ghost predicate Refusal(t: Table, u: string, shortId: string, r: Outcome) {
    var m := Matching(t, u, shortId);
    && (m == {} ==> r == Unknown)
    && (|m| > 1 ==> r == Ambiguous)
    && (|m| == 1 ==> exists id | id in t ::
          m == {id} && r == if t[id].status == Proposed then Expired else Already(t[id].status))
    && (forall id :: id in m <==> Named(t, u, shortId, id))
  }

  ghost predicate IsListOf(l: seq<Id>, s: set<Id>) {
    && (forall x :: x in l <==> x in s)
    && |l| == |s|
  }

  lemma ListGrows(l: seq<Id>, all: set<Id>, left: set<Id>, id: Id)
    requires left <= all && IsListOf(l, all - left) && id in left
    ensures IsListOf(l + [id], all - (left - {id}))
  {
    assert all - (left - {id}) == (all - left) + {id};
  }

  lemma ListSize(l: seq<Id>, s: set<Id>)
    requires IsListOf(l, s)
    ensures |s| == 0 <==> s == {}
    ensures |l| == 1 ==> s == {l[0]}
    ensures forall id | s == {id} :: |l| == 1 && l[0] == id
  {
    if |l| == 1 {
      forall x ensures x in s <==> x == l[0] {
        assert x in l <==> x == l[0];
      }
    }
  }

  lemma NotDecidable(t: Table, u: string, shortId: string, now: int, ids: seq<Id>, found: seq<Fact>, id: Id)
    requires IsListOf(ids, Matching(t, u, shortId)) && |found| == |ids| && Judge(found, now).Refused?
    requires forall i | 0 <= i < |ids| :: ids[i] in t && found[i] == t[ids[i]]
    ensures !Decidable(t, u, shortId, now, id)
  {
    MatchingIsNamed(t, u, shortId, id);
    ListSize(ids, Matching(t, u, shortId));
  }

  lemma RefusedFor(t: Table, u: string, shortId: string, now: int, ids: seq<Id>, found: seq<Fact>)
    requires IsListOf(ids, Matching(t, u, shortId)) && |found| == |ids| && Judge(found, now).Refused?
    requires forall i | 0 <= i < |ids| :: ids[i] in t && found[i] == t[ids[i]]
    ensures Refusal(t, u, shortId, Judge(found, now).why)
  {
    ListSize(ids, Matching(t, u, shortId));
    if |ids| == 1 {
      var f := t[ids[0]];
      assert found[0] == f;
      assert Judge(found, now).why == if f.status == Proposed then Expired else Already(f.status);
    }
  }

  // ---------- One active row per slot ----------

  lemma OnlyCurrent(t: Table, u: string, s: Slot, id: Id)
    requires OneActive(t) && IsActive(t, u, s, id)
    ensures Current(t, u, s) == Some(id)
  {
  }

  lemma WriteKeepsOne(t: Table, u: string, key: string, value: string, id: Id, now: int)
    requires OneActive(t) && id !in t
    ensures OneActive(WriteKeyed(t, u, key, value, id, now))
  {
    var previous := Current(t, u, Keyed(key));
    var t' := WriteKeyed(t, u, key, value, id, now);
    forall v, s, x, y | IsActive(t', v, s, x) && IsActive(t', v, s, y) ensures x == y {
      if t' != t && x != id && y != id {
        assert IsActive(t, v, s, x) && IsActive(t, v, s, y);
      } else if t' != t && (x != id || y != id) {
        var z := if x == id then y else x;
        assert IsActive(t, v, s, z);
      }
    }
  }

  lemma WriteAddsOne(t: Table, u: string, key: string, value: string, id: Id, now: int)
    ensures WriteKeyed(t, u, key, value, id, now).Keys <= t.Keys + {id}
  {
  }

  lemma WriteNext(t: Table, u: string, given: seq<(string, string)>, ids: seq<Id>, now: int, i: nat)
    requires i < |given| <= |ids|
    ensures WriteAll(t, u, given[..i + 1], ids[..i + 1], now)
      == WriteKeyed(WriteAll(t, u, given[..i], ids[..i], now), u, given[i].0, given[i].1, ids[i], now)
  {
    assert given[..i + 1][..i] == given[..i] && ids[..i + 1][..i] == ids[..i];
  }
}
