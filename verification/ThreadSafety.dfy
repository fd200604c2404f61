/** Conversations stay on their own thread, however their requests interleave. */
module ThreadSafety {
  import opened Digests
  import opened Threads
  import opened Wrappers

  /** The conversations of one user: how each opens and the answered pairs it ever resends. */
  datatype Talk = Talk(k: Keys, first: nat -> string, pairs: nat -> set<(string, string)>)

  /** No two conversations share a prompt and answer text. */
  ghost predicate Disjoint(talk: Talk) {
    forall c, d, p, q | p in talk.pairs(c) && q in talk.pairs(d) && p.0 == q.0
      && AnswerText(talk.k.space, p.1) == AnswerText(talk.k.space, q.1) :: c == d
  }

  ghost predicate Owned(talk: Talk, alias: string, conversation: nat) {
    exists p :: p in talk.pairs(conversation) && Alias(talk.k, p) == alias
  }

  /** With a hash that never collides, an alias belongs to one conversation only. */
  lemma OneOwner(talk: Talk, alias: string, c: nat, d: nat)
    requires Injective(talk.k.hash) && Disjoint(talk) && Owned(talk, alias, c) && Owned(talk, alias, d)
    ensures c == d
  {
    var p :| p in talk.pairs(c) && Alias(talk.k, p) == alias;
    var q :| q in talk.pairs(d) && Alias(talk.k, q) == alias;
    AliasesAreExact(talk.k.hash, talk.k.space, talk.k.user, p.0, p.1, talk.k.user, q.0, q.1);
  }

  /** A request between two statements. */
  datatype Flight =
    | FirstCreate(conversation: nat, token: string)
    | FirstFork(conversation: nat, token: string)
    | FollowFind(conversation: nat, aliases: seq<string>)
    | FollowCreate(conversation: nat, thread: string, aliases: seq<string>)
    | FollowAdd(conversation: nat, thread: string, aliases: seq<string>)
    | RememberAdd(conversation: nat, thread: string, aliases: seq<string>)

  /** `home` is the thread each conversation's first request was given; `served` every answer of
      `resolve`. */
  datatype World = World(tables: Tables, flights: map<nat, Flight>, home: map<nat, string>, served: set<(nat, string)>)

  const START := World(Tables({}, map[]), map[], map[], {})

  datatype Action =
    // A conversation's first request arrives.
    | Open(id: nat, conversation: nat, token: string)
    // A later one, resending a window of answered pairs.
    | Follow(id: nat, conversation: nat, pairs: seq<(string, string)>)
    // An answer was sent on the thread a request was given.
    | Answer(id: nat, conversation: nat, thread: string, prompt: string, answer: string)
    // The request's next statement.
    | Run(id: nat)

  ghost predicate Opening(w: World, conversation: nat) {
    exists id :: id in w.flights && (w.flights[id].FirstCreate? || w.flights[id].FirstFork?)
      && w.flights[id].conversation == conversation
  }

  ghost predicate Can(w: World, a: Action, talk: Talk) {
    match a
    case Open(id, c, _) => id !in w.flights && c !in w.home && !Opening(w, c)
    case Follow(id, c, pairs) =>
      && id !in w.flights && c in w.home && (forall p | p in pairs :: p in talk.pairs(c))
      // The window still holds a pair that was registered.
      && exists a :: a in AliasesOf(talk.k, pairs) && a in w.tables.aliases
    case Answer(id, c, thread, prompt, answer) =>
      id !in w.flights && (c, thread) in w.served && (prompt, answer) in talk.pairs(c)
    case Run(id) =>
      && id in w.flights
      // The random token is new.
      && (w.flights[id].FirstFork? ==>
          Fork(FirstThread(talk.k, talk.first(w.flights[id].conversation)), w.flights[id].token) !in w.tables.threads)
  }

  ghost function Land(w: World, id: nat, thread: string): World
    requires id in w.flights
  {
    w.(flights := w.flights - {id}, served := w.served + {(w.flights[id].conversation, thread)})
  }

  ghost function RunNext(w: World, id: nat, talk: Talk): World
    requires id in w.flights
  {
    var f := w.flights[id];
    var base := FirstThread(talk.k, talk.first(f.conversation));
    match f
    case FirstCreate(c, token) =>
      var (t, created) := Create(w.tables, base);
      if created then Land(w, id, base).(tables := t, home := w.home[c := base])
      else w.(tables := t, flights := w.flights[id := FirstFork(c, token)])
    case FirstFork(c, token) =>
      var fork := Fork(base, token);
      Land(w, id, fork).(tables := Create(w.tables, fork).0, home := w.home[c := fork])
    case FollowFind(c, aliases) =>
      var known := Known(FindAliases(w.tables, aliases), aliases);
      w.(flights := w.flights[id := FollowCreate(c, if known.Some? then known.value else base, aliases)])
    case FollowCreate(c, thread, aliases) =>
      w.(tables := Create(w.tables, thread).0, flights := w.flights[id := FollowAdd(c, thread, aliases)])
    case FollowAdd(c, thread, aliases) => Land(w, id, thread).(tables := AddAliases(w.tables, thread, aliases))
    case RememberAdd(c, thread, aliases) =>
      w.(tables := AddAliases(w.tables, thread, aliases), flights := w.flights - {id})
  }

  ghost function Step(w: World, a: Action, talk: Talk): World
    requires Can(w, a, talk)
  {
    match a
    case Open(id, c, token) => w.(flights := w.flights[id := FirstCreate(c, token)])
    case Follow(id, c, pairs) => w.(flights := w.flights[id := FollowFind(c, AliasesOf(talk.k, pairs))])
    case Answer(id, c, thread, prompt, answer) =>
      var text := AnswerText(talk.k.space, answer);
      if text != "" && text !in talk.k.notes
      then w.(flights := w.flights[id := RememberAdd(c, thread, [Alias(talk.k, (prompt, answer))])])
      else w
    case Run(id) => RunNext(w, id, talk)
  }

  ghost predicate Runs(w: World, acts: seq<Action>, talk: Talk)
    decreases |acts|
  {
    acts == [] || (Can(w, acts[0], talk) && Runs(Step(w, acts[0], talk), acts[1..], talk))
  }

  ghost function After(w: World, acts: seq<Action>, talk: Talk): World
    requires Runs(w, acts, talk)
    decreases |acts|
  {
    if acts == [] then w else After(Step(w, acts[0], talk), acts[1..], talk)
  }

  // ---------- The invariant ----------

  ghost predicate AllOwned(talk: Talk, aliases: seq<string>, c: nat) {
    forall a | a in aliases :: Owned(talk, a, c)
  }

  ghost predicate AtHome(w: World, c: nat, thread: string) {
    c in w.home && w.home[c] == thread
  }

  ghost predicate FlightOk(w: World, f: Flight, talk: Talk) {
    match f
    case FirstCreate(c, _) => c !in w.home
    case FirstFork(c, _) => c !in w.home
    case FollowFind(c, aliases) =>
      c in w.home && AllOwned(talk, aliases, c) && exists a :: a in aliases && a in w.tables.aliases
    case FollowCreate(c, thread, aliases) => AtHome(w, c, thread) && AllOwned(talk, aliases, c)
    case FollowAdd(c, thread, aliases) => AtHome(w, c, thread) && AllOwned(talk, aliases, c)
    case RememberAdd(c, thread, aliases) => AtHome(w, c, thread) && AllOwned(talk, aliases, c)
  }

  ghost predicate AliasesOk(aliases: map<string, string>, home: map<nat, string>, talk: Talk) {
    forall a, c | a in aliases && Owned(talk, a, c) :: c in home && home[c] == aliases[a]
  }

  ghost predicate TablesOk(w: World, talk: Talk) {
    && AliasesOk(w.tables.aliases, w.home, talk)
    && (forall c | c in w.home :: w.home[c] in w.tables.threads)
    && (forall c, d | c in w.home && d in w.home && w.home[c] == w.home[d] :: c == d)
    && (forall s | s in w.served :: AtHome(w, s.0, s.1))
  }

  ghost predicate OneOpening(w: World) {
    forall x, y | x in w.flights && y in w.flights
      && (w.flights[x].FirstCreate? || w.flights[x].FirstFork?)
      && (w.flights[y].FirstCreate? || w.flights[y].FirstFork?)
      && w.flights[x].conversation == w.flights[y].conversation :: x == y
  }

  ghost predicate Inv(w: World, talk: Talk) {
    TablesOk(w, talk) && OneOpening(w) && forall id | id in w.flights :: FlightOk(w, w.flights[id], talk)
  }

  lemma AliasesAreOwned(talk: Talk, pairs: seq<(string, string)>, c: nat)
    requires forall p | p in pairs :: p in talk.pairs(c)
    ensures AllOwned(talk, AliasesOf(talk.k, pairs), c)
  {
    forall a | a in AliasesOf(talk.k, pairs) ensures Owned(talk, a, c) {
      var i :| 0 <= i < |pairs| && AliasesOf(talk.k, pairs)[i] == a;
      assert pairs[i] in talk.pairs(c);
    }
  }

  /** Registering a conversation's aliases on its own thread keeps the tables in order. */
  lemma AddKeepsTables(w: World, thread: string, aliases: seq<string>, c: nat, talk: Talk)
    requires Injective(talk.k.hash) && Disjoint(talk)
    requires TablesOk(w, talk) && AtHome(w, c, thread) && AllOwned(talk, aliases, c)
    ensures TablesOk(w.(tables := AddAliases(w.tables, thread, aliases)), talk)
  {
    var added := AddAliases(w.tables, thread, aliases).aliases;
    forall a, d | a in added && Owned(talk, a, d) ensures d in w.home && w.home[d] == added[a] {
      if a !in w.tables.aliases { OneOwner(talk, a, c, d); }
    }
    assert AliasesOk(added, w.home, talk);
    var s := w.(tables := AddAliases(w.tables, thread, aliases));
    forall x | x in s.served ensures AtHome(s, x.0, x.1) { assert AtHome(w, x.0, x.1); }
  }

  /** What a request finds is its conversation's own thread. */
  lemma FoundIsHome(w: World, aliases: seq<string>, c: nat, talk: Talk)
    requires TablesOk(w, talk) && AllOwned(talk, aliases, c) && exists a :: a in aliases && a in w.tables.aliases
    ensures
      var known := Known(FindAliases(w.tables, aliases), aliases);
      known.Some? && AtHome(w, c, known.value)
  {
    var found := FindAliases(w.tables, aliases);
    var a :| a in aliases && a in w.tables.aliases;
    assert a in found;
    assert forall x | x in found :: Owned(talk, x, c);
  }

  /** Opening a conversation gives it a thread nobody had. */
  lemma NewHome(w: World, c: nat, thread: string, talk: Talk)
    requires TablesOk(w, talk) && c !in w.home && thread !in w.tables.threads
    ensures TablesOk(w.(tables := Create(w.tables, thread).0, home := w.home[c := thread],
      served := w.served + {(c, thread)}), talk)
  {
    var s := w.(tables := Create(w.tables, thread).0, home := w.home[c := thread], served := w.served + {(c, thread)});
    forall x | x in s.served ensures AtHome(s, x.0, x.1) {
      if x in w.served { assert AtHome(w, x.0, x.1); }
    }
  }

  /** A step of another request leaves what a request knows in place. */
  lemma FlightKeeps(w: World, s: World, f: Flight, talk: Talk)
    requires FlightOk(w, f, talk) && !(f.FirstCreate? || f.FirstFork?)
    requires forall a | a in w.tables.aliases :: a in s.tables.aliases
    requires forall c | c in w.home :: c in s.home && s.home[c] == w.home[c]
    ensures FlightOk(s, f, talk)
  {
  }

  lemma TablesStep(w: World, id: nat, talk: Talk)
    requires Injective(talk.k.hash) && Disjoint(talk) && Inv(w, talk) && Can(w, Run(id), talk)
    ensures TablesOk(RunNext(w, id, talk), talk)
  {
    var f, s := w.flights[id], RunNext(w, id, talk);
    assert FlightOk(w, f, talk);
    var base := FirstThread(talk.k, talk.first(f.conversation));
    match f {
      case FirstCreate(c, token) =>
        if base !in w.tables.threads {
          NewHome(w, c, base, talk);
          SameTables(w.(tables := Create(w.tables, base).0, home := w.home[c := base],
              served := w.served + {(c, base)}), s, talk);
        } else {
          SameTables(w, s, talk);
        }
      case FirstFork(c, token) =>
        var fork := Fork(base, token);
        NewHome(w, c, fork, talk);
        SameTables(w.(tables := Create(w.tables, fork).0, home := w.home[c := fork],
            served := w.served + {(c, fork)}), s, talk);
      case FollowFind(c, aliases) => SameTables(w, s, talk);
      case FollowCreate(c, thread, aliases) => SameTables(w, s, talk);
      case FollowAdd(c, thread, aliases) =>
        var t := w.(tables := AddAliases(w.tables, thread, aliases));
        AddKeepsTables(w, thread, aliases, c, talk);
        SameTables(t.(served := t.served + {(c, thread)}), s, talk);
      case RememberAdd(c, thread, aliases) =>
        AddKeepsTables(w, thread, aliases, c, talk);
        SameTables(w.(tables := AddAliases(w.tables, thread, aliases)), s, talk);
    }
  }

  lemma SameTables(w: World, s: World, talk: Talk)
    requires TablesOk(w, talk) && s.home == w.home && s.tables.aliases == w.tables.aliases
    requires w.tables.threads <= s.tables.threads && s.served == w.served
    ensures TablesOk(s, talk)
  {
    forall x | x in s.served ensures AtHome(s, x.0, x.1) { assert AtHome(w, x.0, x.1); }
  }

  lemma OpeningStep(w: World, id: nat, talk: Talk)
    requires Inv(w, talk) && Can(w, Run(id), talk)
    ensures OneOpening(RunNext(w, id, talk))
  {
    assert FlightOk(w, w.flights[id], talk);
  }

  /** The request's own knowledge after its statement, and everybody else's. */
  lemma FlightsStep(w: World, id: nat, talk: Talk)
    requires Inv(w, talk) && Can(w, Run(id), talk)
    ensures
      var s := RunNext(w, id, talk);
      forall x | x in s.flights :: FlightOk(s, s.flights[x], talk)
  {
    var f, s := w.flights[id], RunNext(w, id, talk);
    assert FlightOk(w, f, talk);
    if f.FollowFind? { FoundIsHome(w, f.aliases, f.conversation, talk); }
    forall x | x in s.flights ensures FlightOk(s, s.flights[x], talk) {
      if x != id {
        assert FlightOk(w, w.flights[x], talk);
        if !(w.flights[x].FirstCreate? || w.flights[x].FirstFork?) { FlightKeeps(w, s, w.flights[x], talk); }
      }
    }
  }

  lemma RunKeeps(w: World, id: nat, talk: Talk)
    requires Injective(talk.k.hash) && Disjoint(talk) && Inv(w, talk) && Can(w, Run(id), talk)
    ensures Inv(RunNext(w, id, talk), talk)
  {
    TablesStep(w, id, talk);
    FlightsStep(w, id, talk);
    OpeningStep(w, id, talk);
  }

  /** A request arrives knowing what its kind knows; nothing else changes. */
  lemma ArrivalKeeps(w: World, id: nat, f: Flight, talk: Talk)
    requires Inv(w, talk) && id !in w.flights && FlightOk(w, f, talk)
    requires !(f.FirstCreate? || f.FirstFork?) || !Opening(w, f.conversation)
    ensures Inv(w.(flights := w.flights[id := f]), talk)
  {
    var s := w.(flights := w.flights[id := f]);
    SameTables(w, s, talk);
    forall x | x in s.flights ensures FlightOk(s, s.flights[x], talk) {
      if x != id { assert FlightOk(w, w.flights[x], talk); }
    }
  }

  lemma InvStep(w: World, a: Action, talk: Talk)
    requires Injective(talk.k.hash) && Disjoint(talk) && Inv(w, talk) && Can(w, a, talk)
    ensures Inv(Step(w, a, talk), talk)
  {
    match a {
      case Run(id) => RunKeeps(w, id, talk);
      case Open(id, c, token) => ArrivalKeeps(w, id, FirstCreate(c, token), talk);
      case Follow(id, c, pairs) =>
        AliasesAreOwned(talk, pairs, c);
        ArrivalKeeps(w, id, FollowFind(c, AliasesOf(talk.k, pairs)), talk);
      case Answer(id, c, thread, prompt, answer) =>
        assert AtHome(w, c, thread);
        assert Owned(talk, Alias(talk.k, (prompt, answer)), c);
        ArrivalKeeps(w, id, RememberAdd(c, thread, [Alias(talk.k, (prompt, answer))]), talk);
    }
  }

  lemma {:induction false} InvRun(w: World, acts: seq<Action>, talk: Talk)
    requires Injective(talk.k.hash) && Disjoint(talk) && Inv(w, talk) && Runs(w, acts, talk)
    ensures Inv(After(w, acts, talk), talk)
    decreases |acts|
  {
    if acts != [] {
      InvStep(w, acts[0], talk);
      InvRun(Step(w, acts[0], talk), acts[1..], talk);
    }
  }

  /** However the statements of many requests interleave: every request of a conversation, sliding
      window or not, is given the thread of its first one, and no two conversations share a thread,
      even when they open with the same words. */
  lemma ConversationsKeepTheirThread(acts: seq<Action>, talk: Talk, c: nat, thread: string, d: nat, other: string)
    requires Injective(talk.k.hash) && Disjoint(talk) && Runs(START, acts, talk)
    requires (c, thread) in After(START, acts, talk).served && (d, other) in After(START, acts, talk).served
    ensures c == d <==> thread == other
    ensures AtHome(After(START, acts, talk), c, thread)
  {
    InvRun(START, acts, talk);
    var w := After(START, acts, talk);
    assert AtHome(w, c, thread) && AtHome(w, d, other);
    assert (c, thread) in w.served && (d, other) in w.served;
  }

  /** An alias never points elsewhere once it points somewhere. */
  lemma AliasesAreNeverRebound(w: World, a: Action, talk: Talk, alias: string)
    requires Can(w, a, talk) && alias in w.tables.aliases
    ensures
      var s := Step(w, a, talk);
      alias in s.tables.aliases && s.tables.aliases[alias] == w.tables.aliases[alias]
  {
  }

  // ---------- A window without a recorded pair, and a fixed note in one ----------

  /** A request of a conversation is given its thread exactly when some pair of its window is recorded,
      or its first words lead there anyway: a forked conversation that resends no recorded pair falls
      back to the thread it was forked from. */
  lemma HomeExactly(acts: seq<Action>, talk: Talk, c: nat, first: string, pairs: seq<(string, string)>, token: string)
    requires Injective(talk.k.hash) && Disjoint(talk) && Runs(START, acts, talk)
    requires c in After(START, acts, talk).home && pairs != [] && forall p | p in pairs :: p in talk.pairs(c)
    ensures
      var w := After(START, acts, talk);
      Resolve(talk.k, w.tables, Request(None, first, pairs, token)).1 == w.home[c]
      <==> (|| (exists a :: a in AliasesOf(talk.k, pairs) && a in w.tables.aliases)
            || w.home[c] == FirstThread(talk.k, first))
  {
    InvRun(START, acts, talk);
    var w, aliases := After(START, acts, talk), AliasesOf(talk.k, pairs);
    AliasesAreOwned(talk, pairs, c);
    if exists a :: a in aliases && a in w.tables.aliases {
      FoundIsHome(w, aliases, c, talk);
    }
  }

  /** Two conversations that open alike and both get a fixed note record nothing, so the second request
      of the later one, which was forked, is given the earlier one's thread. */
  lemma ForkFallsBack(k: Keys, prompt: string, note: string, token: string)
    requires AnswerText(k.space, note) in k.notes
    ensures
      var first, second := Request(None, prompt, [], token), Request(None, prompt, [(prompt, note)], token);
      var (t1, one) := Resolve(k, Tables({}, map[]), first);
      var (t2, two) := Resolve(k, Remember(k, t1, one, prompt, note), first);
      var t3 := Remember(k, t2, two, prompt, note);
      t3.aliases == map[] && one != two && Resolve(k, t3, second).1 == one
  {
    var base := FirstThread(k, prompt);
    assert |Fork(base, token)| > |base|;
  }

  /** The `i`-th alias is the first that is bound. */
  ghost predicate Oldest(bound: map<string, string>, aliases: seq<string>, i: nat) {
    i < |aliases| && aliases[i] in bound && forall j | 0 <= j < i :: aliases[j] !in bound
  }

  lemma {:induction false} OldestKnown(found: map<string, string>, aliases: seq<string>) returns (i: nat)
    requires Known(found, aliases).Some?
    ensures Oldest(found, aliases, i) && Known(found, aliases) == Some(found[aliases[i]])
  {
    if aliases[0] in found {
      i := 0;
    } else {
      var rest := aliases[1..];
      i := OldestKnown(found, rest);
      assert forall j | 0 < j < |aliases| :: aliases[j] == rest[j - 1];
      i := i + 1;
    }
  }

  /** Whatever the tables hold, a request with history is given the thread of the oldest pair of its
      window that is recorded, whoever recorded it, and with none its first-message thread. */
  lemma OldestRecordedWins(k: Keys, t: Tables, first: string, pairs: seq<(string, string)>, token: string)
    requires pairs != []
    ensures
      var aliases, thread := AliasesOf(k, pairs), Resolve(k, t, Request(None, first, pairs, token)).1;
      if forall a | a in aliases :: a !in t.aliases then thread == FirstThread(k, first)
      else exists i: nat :: Oldest(t.aliases, aliases, i) && thread == t.aliases[aliases[i]]
  {
    var aliases := AliasesOf(k, pairs);
    var found := FindAliases(t, aliases);
    if Known(found, aliases).Some? {
      var i := OldestKnown(found, aliases);
      assert Oldest(t.aliases, aliases, i);
    }
  }

  /** `resolve` registers every pair it is resent, a fixed note too. Once one conversation has resent
      the note it got to a question, another that got it to the same question is given the first one's
      thread, whatever recorded pair of its own follows in the window. */
  lemma SharedNoteOutranksOwnPair(k: Keys, t: Tables, first: string, other: string, shared: (string, string),
                                  own: (string, string), others: (string, string), token: string)
    requires Alias(k, shared) !in t.aliases && Alias(k, own) in t.aliases && Alias(k, others) in t.aliases
    requires t.aliases[Alias(k, own)] != t.aliases[Alias(k, others)]
    ensures
      var (s, one) := Resolve(k, t, Request(None, first, [shared, own], token));
      && one == t.aliases[Alias(k, own)]
      && Resolve(k, s, Request(None, other, [shared, others], token)).1 == one != t.aliases[Alias(k, others)]
  {
    var mine, theirs := [shared, own], [shared, others];
    ResolvesTo(k, t, first, mine, token, 1);
    var s := Resolve(k, t, Request(None, first, mine, token)).0;
    assert AliasesOf(k, mine)[0] in AliasesOf(k, mine);
    ResolvesTo(k, s, other, theirs, token, 0);
  }

  lemma ResolvesTo(k: Keys, t: Tables, first: string, pairs: seq<(string, string)>, token: string, i: nat)
    requires Oldest(t.aliases, AliasesOf(k, pairs), i)
    ensures Resolve(k, t, Request(None, first, pairs, token)).1 == t.aliases[AliasesOf(k, pairs)[i]]
  {
    var aliases := AliasesOf(k, pairs);
    assert aliases[i] in aliases;
    var j := OldestKnown(FindAliases(t, aliases), aliases);
    assert Oldest(t.aliases, aliases, j) && i == j;
  }

  /** A turn of a conversation: its request is resolved, and later its answer is remembered. */
  function Turn(k: Keys, t: Tables, first: string, pairs: seq<(string, string)>, asked: (string, string),
                token: string): (Tables, string) {
    var (s, thread) := Resolve(k, t, Request(None, first, pairs, token));
    (Remember(k, s, thread, asked.0, asked.1), thread)
  }

  ghost predicate Recorded(k: Keys, pair: (string, string)) {
    AnswerText(k.space, pair.1) != "" && AnswerText(k.space, pair.1) !in k.notes
  }

  ghost predicate Noted(k: Keys, pair: (string, string)) {
    AnswerText(k.space, pair.1) in k.notes
  }

  lemma AliasesDiffer(k: Keys, p: (string, string), q: (string, string))
    requires Injective(k.hash) && p.0 != q.0
    ensures Alias(k, p) != Alias(k, q)
  {
    AliasesAreExact(k.hash, k.space, k.user, p.0, p.1, k.user, q.0, q.1);
  }

  lemma ThreadsDiffer(k: Keys, x: string, y: string)
    requires Injective(k.hash) && x != y
    ensures FirstThread(k, x) != FirstThread(k, y)
  {
    var p, q := [k.user, "first", k.model, x], [k.user, "first", k.model, y];
    assert p[3] != q[3];
    if Digest(k.hash, p) == Digest(k.hash, q) { EncodeInjective(p, q); }
    assert FirstThread(k, x)[3..] == Digest(k.hash, p) && FirstThread(k, y)[3..] == Digest(k.hash, q);
  }

  /** A conversation opens with words nobody has used, and its answer is recorded. */
  lemma Opens(k: Keys, t: Tables, pair: (string, string), token: string)
    requires FirstThread(k, pair.0) !in t.threads && Alias(k, pair) !in t.aliases && Recorded(k, pair)
    ensures
      var base := FirstThread(k, pair.0);
      Turn(k, t, pair.0, [], pair, token)
      == (Tables(t.threads + {base}, t.aliases[Alias(k, pair) := base]), base)
  {
    var base := FirstThread(k, pair.0);
    var s := Turn(k, t, pair.0, [], pair, token).0;
    assert s.aliases == t.aliases[Alias(k, pair) := base];
  }

  /** A request whose oldest pair is recorded goes to that pair's thread; the others of its window are
      recorded on it. */
  lemma Resumes(k: Keys, t: Tables, first: string, pairs: seq<(string, string)>, token: string)
    requires pairs != [] && Alias(k, pairs[0]) in t.aliases
    ensures
      var thread := t.aliases[Alias(k, pairs[0])];
      var (s, found) := Resolve(k, t, Request(None, first, pairs, token));
      && found == thread && s.threads == t.threads + {thread}
      && s.aliases == (map a | a in AliasesOf(k, pairs) :: thread) + t.aliases
  {
    ResolvesTo(k, t, first, pairs, token, 0);
  }

  /** A note is not recorded, and a resent pair that is recorded changes nothing. */
  lemma NoteLeaves(k: Keys, t: Tables, pair: (string, string), note: (string, string), token: string)
    requires Alias(k, pair) in t.aliases && Noted(k, note)
    ensures Turn(k, t, pair.0, [pair], note, token).0.aliases == t.aliases
  {
    Resumes(k, t, pair.0, [pair], token);
  }

  ghost predicate Two(k: Keys, t: Tables, mine: (string, string), theirs: (string, string)) {
    && Alias(k, mine) in t.aliases && Alias(k, theirs) in t.aliases
    && t.aliases.Keys == {Alias(k, mine), Alias(k, theirs)}
    && t.aliases[Alias(k, mine)] != t.aliases[Alias(k, theirs)]
  }

  lemma TwoOpen(k: Keys, mine: (string, string), theirs: (string, string), token: string)
    requires Injective(k.hash) && Recorded(k, mine) && Recorded(k, theirs) && mine.0 != theirs.0
    ensures
      var (t1, one) := Turn(k, Tables({}, map[]), mine.0, [], mine, token);
      var (t2, two) := Turn(k, t1, theirs.0, [], theirs, token);
      Two(k, t2, mine, theirs) && one == t2.aliases[Alias(k, mine)] && two == t2.aliases[Alias(k, theirs)]
  {
    AliasesDiffer(k, mine, theirs);
    ThreadsDiffer(k, mine.0, theirs.0);
    Opens(k, Tables({}, map[]), mine, token);
    Opens(k, Turn(k, Tables({}, map[]), mine.0, [], mine, token).0, theirs, token);
  }

  lemma NoteJoins(k: Keys, t: Tables, mine: (string, string), theirs: (string, string), note: (string, string),
                  later: (string, string), token: string)
    requires Injective(k.hash) && Two(k, t, mine, theirs) && Recorded(k, later)
    requires mine.0 != note.0 && mine.0 != later.0
    requires theirs.0 != note.0 && theirs.0 != later.0 && note.0 != later.0
    ensures
      var one, two := t.aliases[Alias(k, mine)], t.aliases[Alias(k, theirs)];
      var t5 := Resolve(k, t, Request(None, mine.0, [mine, note], token)).0;
      var (t6, still) := Turn(k, t5, theirs.0, [theirs, note], later, token);
      && still == two && Alias(k, later) in t6.aliases && t6.aliases[Alias(k, later)] == two
      && Resolve(k, t6, Request(None, theirs.0, [note, later], token)).1 == one
  {
    AliasesDiffer(k, mine, note);
    AliasesDiffer(k, theirs, note);
    AliasesDiffer(k, mine, later);
    AliasesDiffer(k, theirs, later);
    AliasesDiffer(k, note, later);
    NoteResent(k, t, mine, note, token);
    var t5 := Resolve(k, t, Request(None, mine.0, [mine, note], token)).0;
    LaterRecorded(k, t5, theirs, note, later, token);
    var t6 := Turn(k, t5, theirs.0, [theirs, note], later, token).0;
    Resumes(k, t6, theirs.0, [note, later], token);
  }

  /** Of two pairs resent on the first one's thread only a new second one is added. */
  lemma RegistersTwo(k: Keys, bound: map<string, string>, p: (string, string), q: (string, string), thread: string)
    requires Alias(k, p) in bound
    ensures
      (map a | a in AliasesOf(k, [p, q]) :: thread) + bound
      == if Alias(k, q) in bound then bound else bound[Alias(k, q) := thread]
  {
    var aliases := AliasesOf(k, [p, q]);
    assert aliases == [Alias(k, p), Alias(k, q)];
  }

  lemma NoteResent(k: Keys, t: Tables, mine: (string, string), note: (string, string), token: string)
    requires Alias(k, mine) in t.aliases && Alias(k, note) !in t.aliases
    ensures
      Resolve(k, t, Request(None, mine.0, [mine, note], token)).0.aliases
      == t.aliases[Alias(k, note) := t.aliases[Alias(k, mine)]]
  {
    Resumes(k, t, mine.0, [mine, note], token);
    RegistersTwo(k, t.aliases, mine, note, t.aliases[Alias(k, mine)]);
  }

  lemma RemembersOne(k: Keys, t: Tables, thread: string, pair: (string, string))
    requires Recorded(k, pair) && Alias(k, pair) !in t.aliases
    ensures Remember(k, t, thread, pair.0, pair.1).aliases == t.aliases[Alias(k, pair) := thread]
  {
    assert [Alias(k, pair)][0] == Alias(k, pair);
  }

  lemma LaterRecorded(k: Keys, t: Tables, theirs: (string, string), note: (string, string), later: (string, string),
                      token: string)
    requires Alias(k, theirs) in t.aliases && Alias(k, note) in t.aliases && Alias(k, later) !in t.aliases
    requires Recorded(k, later)
    ensures
      var (s, two) := Turn(k, t, theirs.0, [theirs, note], later, token);
      two == t.aliases[Alias(k, theirs)] && s.aliases == t.aliases[Alias(k, later) := two]
  {
    Resumes(k, t, theirs.0, [theirs, note], token);
    RegistersTwo(k, t.aliases, theirs, note, t.aliases[Alias(k, theirs)]);
    var s := Resolve(k, t, Request(None, theirs.0, [theirs, note], token)).0;
    RemembersOne(k, s, t.aliases[Alias(k, theirs)], later);
  }

  /** Two conversations with words and answers of their own both got a fixed note to one question. Once
      the first has resent it, the second goes on well while its window reaches back before the note; when
      the window has slid to the note, it is given the first one's thread, although the pair after the
      note is recorded as its own. */
  lemma SlidWindowJoinsAnother(k: Keys, mine: (string, string), theirs: (string, string), note: (string, string),
                               later: (string, string), token: string)
    requires Injective(k.hash) && Recorded(k, mine) && Recorded(k, theirs) && Recorded(k, later) && Noted(k, note)
    requires mine.0 != theirs.0 && mine.0 != note.0 && mine.0 != later.0
    requires theirs.0 != note.0 && theirs.0 != later.0 && note.0 != later.0
    ensures
      var (t1, one) := Turn(k, Tables({}, map[]), mine.0, [], mine, token);
      var (t2, two) := Turn(k, t1, theirs.0, [], theirs, token);
      var t3 := Turn(k, t2, mine.0, [mine], note, token).0;
      var t4 := Turn(k, t3, theirs.0, [theirs], note, token).0;
      var t5 := Resolve(k, t4, Request(None, mine.0, [mine, note], token)).0;
      var (t6, still) := Turn(k, t5, theirs.0, [theirs, note], later, token);
      && one != two && still == two
      && Alias(k, later) in t6.aliases && t6.aliases[Alias(k, later)] == two
      && Resolve(k, t6, Request(None, theirs.0, [note, later], token)).1 == one
  {
    TwoOpen(k, mine, theirs, token);
    var t1 := Turn(k, Tables({}, map[]), mine.0, [], mine, token).0;
    var t2 := Turn(k, t1, theirs.0, [], theirs, token).0;
    NoteLeaves(k, t2, mine, note, token);
    var t3 := Turn(k, t2, mine.0, [mine], note, token).0;
    NoteLeaves(k, t3, theirs, note, token);
    NoteJoins(k, Turn(k, t3, theirs.0, [theirs], note, token).0, mine, theirs, note, later, token);
  }
}
