/** Which thread a stateless request continues
    (services/api/src/api/openai/threads.py over services/api/src/db/queries/threads.py), for one
    user: both tables are keyed by the user, so users never meet. */
module Threads {
  import opened Digests
  import opened Wrappers

  /** What the digests depend on besides the request. */
  datatype Keys = Keys(hash: string -> string, space: char -> bool, user: string, model: string, notes: set<string>)

  /** A request: the `X-Thread-Id` header, the first user message, the answered pairs it resends,
      and the random token a fork would use. */
  datatype Request = Request(header: Option<string>, first: string, pairs: seq<(string, string)>, token: string)

  /** The `threads` and `thread_aliases` tables. */
  datatype Tables = Tables(threads: set<string>, aliases: map<string, string>)

  function HeaderThread(k: Keys, header: string): string {
    "oa-" + Digest(k.hash, [k.user, "header", header])
  }

  function FirstThread(k: Keys, first: string): string {
    "oa-" + Digest(k.hash, [k.user, "first", k.model, first])
  }

  function Fork(base: string, token: string): string {
    base + "-" + token
  }

  function Alias(k: Keys, pair: (string, string)): string {
    PairAlias(k.hash, k.space, k.user, pair.0, pair.1)
  }

  function AliasesOf(k: Keys, pairs: seq<(string, string)>): (r: seq<string>)
    ensures |r| == |pairs| && forall i | 0 <= i < |pairs| :: r[i] == Alias(k, pairs[i])
  {
    seq(|pairs|, i requires 0 <= i < |pairs| => Alias(k, pairs[i]))
  }

  // ---------- The statements ----------

  /** INSERT ... ON CONFLICT DO NOTHING: true when the thread is new. */
  function Create(t: Tables, thread: string): (Tables, bool) {
    (t.(threads := t.threads + {thread}), thread !in t.threads)
  }

  function FindAliases(t: Tables, aliases: seq<string>): map<string, string> {
    map a | a in aliases && a in t.aliases :: t.aliases[a]
  }

  /** An alias already pointing elsewhere keeps its thread. */
  function AddAliases(t: Tables, thread: string, aliases: seq<string>): Tables {
    t.(aliases := (map a | a in aliases :: thread) + t.aliases)
  }

  /** The thread of the first alias found. */
  function Known(found: map<string, string>, aliases: seq<string>): (r: Option<string>)
    ensures r.None? <==> forall a | a in aliases :: a !in found
    ensures r.Some? ==> exists a :: a in aliases && a in found && found[a] == r.value
  {
    if aliases == [] then None
    else if aliases[0] in found then Some(found[aliases[0]])
    else Known(found, aliases[1..])
  }

  // ---------- A request on its own ----------

  function Resolve(k: Keys, t: Tables, q: Request): (Tables, string) {
    if q.header.Some? then
      var thread := HeaderThread(k, q.header.value);
      (Create(t, thread).0, thread)
    else
      var base := FirstThread(k, q.first);
      if q.pairs == [] then
        var (s, created) := Create(t, base);
        if created then (s, base) else (Create(s, Fork(base, q.token)).0, Fork(base, q.token))
      else
        var aliases := AliasesOf(k, q.pairs);
        var known := Known(FindAliases(t, aliases), aliases);
        var thread := if known.Some? then known.value else base;
        (AddAliases(Create(t, thread).0, thread, aliases), thread)
  }

  /** `remember_answer`: an empty answer, or a fixed note alone, is not registered. */
  function Remember(k: Keys, t: Tables, thread: string, prompt: string, answer: string): Tables {
    var text := AnswerText(k.space, answer);
    if text != "" && text !in k.notes then AddAliases(t, thread, [Alias(k, (prompt, answer))]) else t
  }

  lemma OneMoreAlias(t: Tables, thread: string, given: seq<string>, i: nat)
    requires i < |given|
    ensures
      var s := AddAliases(t, thread, given[..i]);
      AddAliases(t, thread, given[..i + 1])
        == if given[i] in s.aliases then s else s.(aliases := s.aliases[given[i] := thread])
  {
    assert given[..i + 1] == given[..i] + [given[i]];
  }

  lemma DigestsDiffer(k: Keys, x: seq<string>, y: seq<string>)
    requires Injective(k.hash)
    ensures Digest(k.hash, x) == Digest(k.hash, y) <==> x == y
  {
    if Digest(k.hash, x) == Digest(k.hash, y) { EncodeInjective(x, y); }
  }

  lemma NamedAlike(k: Keys, x: seq<string>, y: seq<string>)
    requires Injective(k.hash)
    ensures "oa-" + Digest(k.hash, x) == "oa-" + Digest(k.hash, y) <==> x == y
  {
    DigestsDiffer(k, x, y);
    var p, q := "oa-" + Digest(k.hash, x), "oa-" + Digest(k.hash, y);
    assert p[3..] == Digest(k.hash, x) && q[3..] == Digest(k.hash, y);
  }

  /** With a hash that never collides, requests of two users are given one thread by their headers only
      if users and headers agree, by their first messages only if users, models and messages do, and
      never one by its header and the other by its first message. */
  lemma ThreadNamesAreApart(k: Keys, other: Keys, x: string, y: string)
    requires Injective(k.hash) && other.hash == k.hash
    ensures HeaderThread(k, x) == HeaderThread(other, y) <==> k.user == other.user && x == y
    ensures FirstThread(k, x) == FirstThread(other, y) <==> k.user == other.user && k.model == other.model && x == y
    ensures HeaderThread(k, x) != FirstThread(other, y)
  {
    var h, h' := [k.user, "header", x], [other.user, "header", y];
    var f, f' := [k.user, "first", k.model, x], [other.user, "first", other.model, y];
    NamedAlike(k, h, h');
    NamedAlike(k, f, f');
    NamedAlike(k, h, f');
    assert h[0] == k.user && h'[0] == other.user && h[2] == x && h'[2] == y;
    assert f[0] == k.user && f'[0] == other.user && f[3] == x && f'[3] == y && f[2] == k.model && f'[2] == other.model;
  }

  /** A request with a header is given the header's thread, whatever the tables hold and it resends. */
  lemma HeaderDecides(k: Keys, t: Tables, q: Request)
    requires q.header.Some?
    ensures
      var (s, thread) := Resolve(k, t, q);
      thread == "oa-" + Digest(k.hash, [k.user, "header", q.header.value])
      && s == Tables(t.threads + {thread}, t.aliases)
  {
  }

  /** An answer is registered unless it is empty or a fixed note; then its pair is bound, unless it was. */
  lemma RemembersExactly(k: Keys, t: Tables, thread: string, prompt: string, answer: string)
    ensures
      var s := Remember(k, t, thread, prompt, answer);
      var text, alias := AnswerText(k.space, answer), Alias(k, (prompt, answer));
      && s.threads == t.threads
      && (text == "" || text in k.notes || alias in t.aliases ==> s.aliases == t.aliases)
      && (text != "" && text !in k.notes && alias !in t.aliases ==> s.aliases == t.aliases[alias := thread])
  {
    assert [Alias(k, (prompt, answer))][0] == Alias(k, (prompt, answer));
  }

  class ThreadStore {
    const k: Keys
    var threads: set<string>
    var aliases: map<string, string>

    ghost function Contents(): Tables
      reads this
    {
      Tables(threads, aliases)
    }

    constructor (k: Keys)
      ensures this.k == k && Contents() == Tables({}, map[])
    {
      this.k := k;
      threads, aliases := {}, map[];
    }

    method CreateThread(thread: string) returns (created: bool)
      modifies this`threads
      ensures (Contents(), created) == Create(old(Contents()), thread)
    {
      created := thread !in threads;
      threads := threads + {thread};
    }

    method RegisterAliases(thread: string, given: seq<string>)
      modifies this`aliases
      ensures Contents() == AddAliases(old(Contents()), thread, given)
    {
      var i := 0;
      while i < |given|
        invariant 0 <= i <= |given|
        invariant Contents() == AddAliases(old(Contents()), thread, given[..i])
      {
        OneMoreAlias(old(Contents()), thread, given, i);
        if given[i] !in aliases { aliases := aliases[given[i] := thread]; }
        i := i + 1;
      }
      assert given[..i] == given;
    }

    method FirstKnown(given: seq<string>) returns (known: Option<string>)
      ensures known == Known(FindAliases(Contents(), given), given)
    {
      var found := map a | a in given && a in aliases :: aliases[a];
      var i := 0;
      known := None;
      assert given[0..] == given;
      while i < |given|
        invariant 0 <= i <= |given|
        invariant Known(found, given) == Known(found, given[i..])
      {
        assert given[i..][1..] == given[i + 1..];
        if given[i] in found {
          return Some(found[given[i]]);
        }
        i := i + 1;
      }
    }

    method ResolveThread(q: Request) returns (thread: string)
      modifies this
      ensures (Contents(), thread) == Resolve(k, old(Contents()), q)
    {
      if q.header.Some? {
        thread := HeaderThread(k, q.header.value);
        var _ := CreateThread(thread);
        return;
      }
      var base := FirstThread(k, q.first);
      if q.pairs == [] {
        var created := CreateThread(base);
        if created { return base; }
        thread := Fork(base, q.token);
        var _ := CreateThread(thread);
        return;
      }
      var given := AliasesOf(k, q.pairs);
      var known := FirstKnown(given);
      thread := if known.Some? then known.value else base;
      var _ := CreateThread(thread);
      RegisterAliases(thread, given);
    }

    method RememberAnswer(thread: string, prompt: string, answer: string)
      modifies this
      ensures Contents() == Remember(k, old(Contents()), thread, prompt, answer)
    {
      var text := AnswerText(k.space, answer);
      if text != "" && text !in k.notes {
        RegisterAliases(thread, [Alias(k, (prompt, answer))]);
      }
    }
  }
}
