/** One chat turn's graph stream as job events (services/agent/src/worker/stream.py), and what a
    client that replays them holds. */
module ChatRelay {
  import opened Redact
  import opened Wrappers

  datatype Event =
    | Reasoning(text: string)
    | Token(text: string)
    | MessageEnd
    | Reset
    | ProgressLine(detail: string)
    | Notice(text: string)
    | ToolEvent(name: string, status: string)

  const RETRYING := "retrying"

  /** One node's update: the agent's last message, the tools' results (name, failed), or neither. */
  datatype NodeUpdate = Agent(text: string, calls: seq<string>) | Tools(results: seq<(string, bool)>) | Other

  /** A part of the graph's stream; `nested` when it comes from inside a nested graph. */
  datatype Part =
    | ProgressPart(detail: string, nested: bool)
    | NoticePart(text: string, nested: bool)
    | RetryPart(nested: bool)
    // A message part: `spoken` when it is a chunk of the assistant's own node.
    | Chunk(reasoning: string, text: string, spoken: bool, nested: bool)
    | Updates(updates: seq<NodeUpdate>, nested: bool)

  /** The relay: `held` is the reasoning held back, and the guard is none with reasoning off. */
  datatype Relay = Relay(
    guard: Option<Guard>,
    held: string,
    streamed: bool,
    thought: bool,
    reply: string,
    notices: seq<string>,
    published: seq<Event>)

  function Started(guard: Option<Guard>): Relay {
    Relay(guard, "", false, false, "", [], [])
  }

  function Publish(s: Relay, e: Event): Relay {
    s.(published := s.published + [e])
  }

  function Thought(s: Relay, text: string): Relay {
    if text == "" then s else Publish(s, Reasoning(text))
  }

  /** Sends the reasoning held back. */
  function Flush(s: Relay): Relay {
    if s.guard.None? then s
    else Thought(s.(held := ""), Guarded(s.guard.value.alphabet, Clean(s.guard.value, s.held, true)))
  }

  function Think(s: Relay, reasoning: string): Relay {
    if s.guard.None? || reasoning == "" then s
    else
      var (piece, rest) := FeedStep(s.guard.value, s.held, reasoning);
      Thought(s.(held := rest, thought := true), Guarded(s.guard.value.alphabet, piece))
  }

  function Speak(s: Relay, text: string): Relay {
    if text == "" then s else Publish(Flush(s).(streamed := true), Token(text))
  }

  function StartTools(s: Relay, calls: seq<string>): Relay
    decreases |calls|
  {
    if calls == [] then s else StartTools(Publish(s, ToolEvent(calls[0], "started")), calls[1..])
  }

  function EndTools(s: Relay, results: seq<(string, bool)>): Relay
    decreases |results|
  {
    if results == [] then s
    else EndTools(Publish(s, ToolEvent(results[0].0, if results[0].1 then "error" else "done")), results[1..])
  }

  function Update(s: Relay, u: NodeUpdate): Relay {
    match u
    case Agent(text, calls) =>
      var t := if s.streamed && calls != [] then Publish(s, MessageEnd) else s;
      StartTools(t.(streamed := false, thought := false, reply := text), calls)
    case Tools(results) => EndTools(s, results)
    case Other => s
  }

  function UpdateAll(s: Relay, us: seq<NodeUpdate>): Relay
    decreases |us|
  {
    if us == [] then s else UpdateAll(Update(s, us[0]), us[1..])
  }

  function Retry(s: Relay): Relay {
    if s.streamed then Publish(s.(streamed := false, thought := false), Reset)
    else if s.thought then Publish(s.(thought := false), ProgressLine(RETRYING))
    else s
  }

  function FeedPart(s: Relay, p: Part): Relay {
    match p
    case ProgressPart(detail, _) => Publish(Flush(s), ProgressLine(detail))
    case NoticePart(text, nested) =>
      if nested then Flush(s) else Publish(Flush(s).(notices := s.notices + [text]), Notice(text))
    case RetryPart(nested) => if nested then Flush(s) else Retry(Flush(s))
    case Chunk(reasoning, text, spoken, nested) => if nested || !spoken then s else Speak(Think(s, reasoning), text)
    case Updates(us, nested) => if nested then s else UpdateAll(Flush(s), us)
  }

  function FeedAll(s: Relay, ps: seq<Part>): Relay
    decreases |ps|
  {
    if ps == [] then s else FeedAll(FeedPart(s, ps[0]), ps[1..])
  }

  // ---------- The object ----------

  class Relayer {
    const filter: ReasoningFilter?
    var streamed: bool
    var thought: bool
    var reply: string
    var notices: seq<string>
    var published: seq<Event>

    ghost predicate Valid()
      reads this, filter
    {
      filter != null ==> filter.Valid()
    }

    ghost function State(): Relay
      reads this, filter
    {
      Relay(if filter == null then None else Some(filter.g), if filter == null then "" else filter.buffer,
            streamed, thought, reply, notices, published)
    }

    constructor (filter: ReasoningFilter?)
      requires filter != null ==> filter.Valid() && filter.buffer == ""
      ensures Valid() && this.filter == filter && State() == Started(if filter == null then None else Some(filter.g))
    {
      this.filter := filter;
      streamed, thought, reply, notices, published := false, false, "", [], [];
    }

    method SendHeld()
      requires Valid()
      modifies this, filter
      ensures Valid() && State() == Flush(old(State()))
    {
      if filter != null {
        var text := filter.Flush();
        if text != "" { published := published + [Reasoning(text)]; }
      }
    }

    method Message(reasoning: string, text: string)
      requires Valid()
      modifies this, filter
      ensures Valid() && State() == Speak(Think(old(State()), reasoning), text)
    {
      if filter != null && reasoning != "" {
        thought := true;
        ghost var step := FeedStep(filter.g, filter.buffer, reasoning);
        var out := filter.Feed(reasoning);
        if out != "" { published := published + [Reasoning(out)]; }
      }
      if text != "" {
        SendHeld();
        streamed := true;
        published := published + [Token(text)];
      }
    }

    method AnnounceCalls(calls: seq<string>)
      requires Valid()
      modifies this`published
      ensures Valid() && State() == StartTools(old(State()), calls)
    {
      var k := 0;
      while k < |calls|
        invariant 0 <= k <= |calls| && Valid()
        invariant StartTools(State(), calls[k..]) == StartTools(old(State()), calls)
      {
        assert calls[k..][1..] == calls[k + 1..];
        published := published + [ToolEvent(calls[k], "started")];
        k := k + 1;
      }
    }

    method ReportResults(results: seq<(string, bool)>)
      requires Valid()
      modifies this`published
      ensures Valid() && State() == EndTools(old(State()), results)
    {
      var k := 0;
      while k < |results|
        invariant 0 <= k <= |results| && Valid()
        invariant EndTools(State(), results[k..]) == EndTools(old(State()), results)
      {
        assert results[k..][1..] == results[k + 1..];
        published := published + [ToolEvent(results[k].0, if results[k].1 then "error" else "done")];
        k := k + 1;
      }
    }

    method ApplyUpdate(u: NodeUpdate)
      requires Valid()
      modifies this`published, this`streamed, this`thought, this`reply
      ensures Valid() && State() == Update(old(State()), u)
    {
      match u {
        case Agent(text, calls) =>
          if streamed && calls != [] { published := published + [MessageEnd]; }
          streamed, thought, reply := false, false, text;
          AnnounceCalls(calls);
        case Tools(results) => ReportResults(results);
        case Other =>
      }
    }

    method ApplyUpdates(us: seq<NodeUpdate>)
      requires Valid()
      modifies this, filter
      ensures Valid() && State() == UpdateAll(Flush(old(State())), us)
    {
      SendHeld();
      ghost var flushed := State();
      var i := 0;
      while i < |us|
        invariant 0 <= i <= |us| && Valid()
        invariant UpdateAll(State(), us[i..]) == UpdateAll(flushed, us)
      {
        assert us[i..][1..] == us[i + 1..];
        ApplyUpdate(us[i]);
        i := i + 1;
      }
    }

    method FeedOne(p: Part)
      requires Valid()
      modifies this, filter
      ensures Valid() && State() == FeedPart(old(State()), p)
    {
      match p {
        case ProgressPart(detail, _) =>
          SendHeld();
          published := published + [ProgressLine(detail)];
        case NoticePart(text, nested) =>
          SendHeld();
          if !nested {
            notices := notices + [text];
            published := published + [Notice(text)];
          }
        case RetryPart(nested) =>
          SendHeld();
          if !nested && streamed {
            streamed, thought := false, false;
            published := published + [Reset];
          } else if !nested && thought {
            thought := false;
            published := published + [ProgressLine(RETRYING)];
          }
        case Chunk(reasoning, text, spoken, nested) =>
          if !nested && spoken { Message(reasoning, text); }
        case Updates(us, nested) =>
          if !nested { ApplyUpdates(us); }
      }
    }
  }

  // ---------- The client ----------

  /** The partial message of a client that appends tokens and clears on `reset` and `message_end`. */
  function Holds(events: seq<Event>): string {
    if events == [] then ""
    else
      var before := Holds(events[..|events| - 1]);
      match events[|events| - 1]
      case Token(text) => before + text
      case Reset => ""
      case MessageEnd => ""
      case _ => before
  }

  function Seen(s: Relay): string { Holds(s.published) }

  lemma Published(s: Relay, e: Event)
    ensures
      var t := Publish(s, e);
      && t == s.(published := t.published)
      && Seen(t) == match e case Token(text) => Seen(s) + text case Reset => "" case MessageEnd => "" case _ => Seen(s)
  {
    assert (s.published + [e])[..|s.published|] == s.published;
  }

  lemma Quietly(s: Relay)
    ensures Seen(Flush(s)) == Seen(s)
    ensures Flush(s) == s.(held := Flush(s).held, published := Flush(s).published)
  {
    if s.guard.Some? {
      Published(s.(held := ""), Reasoning(Guarded(s.guard.value.alphabet, Clean(s.guard.value, s.held, true))));
    }
  }

  lemma ThinksQuietly(s: Relay, reasoning: string)
    ensures Seen(Think(s, reasoning)) == Seen(s) && Think(s, reasoning).streamed == s.streamed
  {
    if s.guard.Some? && reasoning != "" {
      var (piece, rest) := FeedStep(s.guard.value, s.held, reasoning);
      Published(s.(held := rest, thought := true), Reasoning(Guarded(s.guard.value.alphabet, piece)));
    }
  }

  lemma {:induction false} ToolsQuietly(s: Relay, calls: seq<string>)
    ensures Seen(StartTools(s, calls)) == Seen(s)
      && StartTools(s, calls) == s.(published := StartTools(s, calls).published)
    decreases |calls|
  {
    if calls != [] {
      Published(s, ToolEvent(calls[0], "started"));
      ToolsQuietly(Publish(s, ToolEvent(calls[0], "started")), calls[1..]);
    }
  }

  lemma {:induction false} ResultsQuietly(s: Relay, results: seq<(string, bool)>)
    ensures Seen(EndTools(s, results)) == Seen(s)
      && EndTools(s, results) == s.(published := EndTools(s, results).published)
    decreases |results|
  {
    if results != [] {
      var e := ToolEvent(results[0].0, if results[0].1 then "error" else "done");
      Published(s, e);
      ResultsQuietly(Publish(s, e), results[1..]);
    }
  }

  lemma {:induction false} OthersQuietly(s: Relay, us: seq<NodeUpdate>)
    requires forall u | u in us :: !u.Agent?
    ensures Seen(UpdateAll(s, us)) == Seen(s) && UpdateAll(s, us).streamed == s.streamed
    decreases |us|
  {
    if us != [] {
      assert us[0] in us;
      if us[0].Tools? { ResultsQuietly(s, us[0].results); }
      OthersQuietly(Update(s, us[0]), us[1..]);
    }
  }

  // ---------- No empty reasoning ----------

  ghost predicate ThoughtsHaveText(events: seq<Event>) {
    forall e | e in events && e.Reasoning? :: e.text != ""
  }

  lemma MoreHasText(s: Relay, e: Event)
    requires ThoughtsHaveText(s.published) && (e.Reasoning? ==> e.text != "")
    ensures ThoughtsHaveText(Publish(s, e).published)
  {
  }

  lemma FlushHasText(s: Relay)
    requires ThoughtsHaveText(s.published)
    ensures ThoughtsHaveText(Flush(s).published)
  {
    if s.guard.Some? {
      var text := Guarded(s.guard.value.alphabet, Clean(s.guard.value, s.held, true));
      if text != "" { MoreHasText(s.(held := ""), Reasoning(text)); }
    }
  }

  lemma ThinkHasText(s: Relay, reasoning: string)
    requires ThoughtsHaveText(s.published)
    ensures ThoughtsHaveText(Think(s, reasoning).published)
  {
    if s.guard.Some? && reasoning != "" {
      var (piece, rest) := FeedStep(s.guard.value, s.held, reasoning);
      var text := Guarded(s.guard.value.alphabet, piece);
      if text != "" { MoreHasText(s.(held := rest, thought := true), Reasoning(text)); }
    }
  }

  lemma {:induction false} StartsHaveText(s: Relay, calls: seq<string>)
    requires ThoughtsHaveText(s.published)
    ensures ThoughtsHaveText(StartTools(s, calls).published)
    decreases |calls|
  {
    if calls != [] {
      MoreHasText(s, ToolEvent(calls[0], "started"));
      StartsHaveText(Publish(s, ToolEvent(calls[0], "started")), calls[1..]);
    }
  }

  lemma {:induction false} EndsHaveText(s: Relay, results: seq<(string, bool)>)
    requires ThoughtsHaveText(s.published)
    ensures ThoughtsHaveText(EndTools(s, results).published)
    decreases |results|
  {
    if results != [] {
      var e := ToolEvent(results[0].0, if results[0].1 then "error" else "done");
      MoreHasText(s, e);
      EndsHaveText(Publish(s, e), results[1..]);
    }
  }

  lemma UpdateHasText(s: Relay, u: NodeUpdate)
    requires ThoughtsHaveText(s.published)
    ensures ThoughtsHaveText(Update(s, u).published)
  {
    match u {
      case Agent(text, calls) =>
        MoreHasText(s, MessageEnd);
        var t := if s.streamed && calls != [] then Publish(s, MessageEnd) else s;
        StartsHaveText(t.(streamed := false, thought := false, reply := text), calls);
      case Tools(results) => EndsHaveText(s, results);
      case Other =>
    }
  }

  lemma {:induction false} UpdatesHaveText(s: Relay, us: seq<NodeUpdate>)
    requires ThoughtsHaveText(s.published)
    ensures ThoughtsHaveText(UpdateAll(s, us).published)
    decreases |us|
  {
    if us != [] {
      UpdateHasText(s, us[0]);
      UpdatesHaveText(Update(s, us[0]), us[1..]);
    }
  }

  lemma PartHasText(s: Relay, p: Part)
    requires ThoughtsHaveText(s.published)
    ensures ThoughtsHaveText(FeedPart(s, p).published)
  {
    var t := Flush(s);
    FlushHasText(s);
    match p {
      case ProgressPart(detail, _) => MoreHasText(t, ProgressLine(detail));
      case NoticePart(text, nested) => MoreHasText(t.(notices := s.notices + [text]), Notice(text));
      case RetryPart(_) =>
        MoreHasText(t.(streamed := false, thought := false), Reset);
        MoreHasText(t.(thought := false), ProgressLine(RETRYING));
      case Chunk(reasoning, text, _, _) =>
        ThinkHasText(s, reasoning);
        FlushHasText(Think(s, reasoning));
        MoreHasText(Flush(Think(s, reasoning)).(streamed := true), Token(text));
      case Updates(us, _) => UpdatesHaveText(t, us);
    }
  }

  lemma {:induction false} PartsHaveText(s: Relay, ps: seq<Part>)
    requires ThoughtsHaveText(s.published)
    ensures ThoughtsHaveText(FeedAll(s, ps).published)
    decreases |ps|
  {
    if ps != [] {
      PartHasText(s, ps[0]);
      PartsHaveText(FeedPart(s, ps[0]), ps[1..]);
    }
  }

  /** Whatever the graph streams, and with the flush at the end: no reasoning event is empty. */
  lemma ReasoningHasText(guard: Option<Guard>, ps: seq<Part>)
    ensures ThoughtsHaveText(Flush(FeedAll(Started(guard), ps)).published)
  {
    PartsHaveText(Started(guard), ps);
    FlushHasText(FeedAll(Started(guard), ps));
  }

  // ---------- Model calls ----------

  /** A part that neither ends an attempt nor carries the agent's update: chunks, progress, notices,
      anything nested, the tools' and other nodes' updates. */
  ghost predicate Within(p: Part) {
    && !(p.RetryPart? && !p.nested)
    && (p.Updates? && !p.nested ==> forall u | u in p.updates :: !u.Agent?)
  }

  function Said(p: Part): string {
    if p.Chunk? && p.spoken && !p.nested then p.text else ""
  }

  /** The text of the assistant's own chunks. */
  function TextOf(ps: seq<Part>): string {
    if ps == [] then "" else Said(ps[0]) + TextOf(ps[1..])
  }

  /** One model call: attempts the provider failed, each announced by a retry, one that succeeded,
      and the update that carries its message. */
  datatype ModelCall = ModelCall(failed: seq<seq<Part>>, success: seq<Part>, calls: seq<string>)

  ghost predicate WellFormed(c: ModelCall) {
    (forall a, p | a in c.failed && p in a :: Within(p)) && forall p | p in c.success :: Within(p)
  }

  function Failures(failed: seq<seq<Part>>): seq<Part> {
    if failed == [] then [] else failed[0] + [RetryPart(false)] + Failures(failed[1..])
  }

  /** The parts up to the update, and the update. */
  function Before(c: ModelCall): seq<Part> { Failures(c.failed) + c.success }

  function UpdateOf(c: ModelCall): Part { Updates([Agent(TextOf(c.success), c.calls)], false) }

  lemma {:induction false} FeedTwo(s: Relay, x: seq<Part>, y: seq<Part>)
    ensures FeedAll(s, x + y) == FeedAll(FeedAll(s, x), y)
    decreases |x|
  {
    if x == [] {
      assert x + y == y;
    } else {
      assert (x + y)[1..] == x[1..] + y;
      FeedTwo(FeedPart(s, x[0]), x[1..], y);
    }
  }

  /** The client holds something exactly when the attempt in progress has sent it. */
  ghost predicate Honest(s: Relay) {
    s.streamed <==> Seen(s) != ""
  }

  lemma ChunkSeen(s: Relay, reasoning: string, text: string)
    requires Honest(s)
    ensures
      var t := Speak(Think(s, reasoning), text);
      Honest(t) && Seen(t) == Seen(s) + text
  {
    ThinksQuietly(s, reasoning);
    var u := Think(s, reasoning);
    Quietly(u);
    Published(Flush(u).(streamed := true), Token(text));
    assert Seen(s) + "" == Seen(s);
  }

  lemma OnePart(s: Relay, p: Part)
    requires Within(p) && Honest(s)
    ensures Honest(FeedPart(s, p))
    ensures Seen(FeedPart(s, p)) == Seen(s) + Said(p)
  {
    var t := Flush(s);
    Quietly(s);
    match p {
      case ProgressPart(detail, _) => Published(t, ProgressLine(detail));
      case NoticePart(text, nested) =>
        if !nested { Published(t.(notices := s.notices + [text]), Notice(text)); }
      case RetryPart(_) =>
      case Chunk(reasoning, text, spoken, nested) => if !nested && spoken { ChunkSeen(s, reasoning, text); }
      case Updates(us, nested) => if !nested { OthersQuietly(t, us); }
    }
  }

  lemma Regrouped(x: string, y: string, z: string)
    ensures (x + y) + z == x + (y + z)
  {
  }

  lemma {:induction false} AttemptSeen(s: Relay, ps: seq<Part>)
    requires (forall p | p in ps :: Within(p)) && Honest(s)
    ensures Honest(FeedAll(s, ps)) && Seen(FeedAll(s, ps)) == Seen(s) + TextOf(ps)
    decreases |ps|
  {
    if ps != [] {
      assert ps[0] in ps;
      OnePart(s, ps[0]);
      AttemptSeen(FeedPart(s, ps[0]), ps[1..]);
      Regrouped(Seen(s), Said(ps[0]), TextOf(ps[1..]));
    }
  }

  /** After a retry the client holds nothing of the attempt it ends. */
  lemma RetryClears(s: Relay)
    requires Honest(s)
    ensures Honest(FeedPart(s, RetryPart(false))) && Seen(FeedPart(s, RetryPart(false))) == ""
  {
    var t := Flush(s);
    Quietly(s);
    Published(t.(streamed := false, thought := false), Reset);
    Published(t.(thought := false), ProgressLine(RETRYING));
  }

  /** It is told to reset exactly when it held something; an attempt that only thought ends in a line
      that says so. */
  lemma RetryTells(s: Relay)
    requires Honest(s)
    ensures
      var told, before := FeedPart(s, RetryPart(false)).published, Flush(s).published;
      if Seen(s) != "" then told == before + [Reset]
      else if s.thought then told == before + [ProgressLine(RETRYING)]
      else told == before
  {
    Quietly(s);
  }

  lemma {:induction false} FailuresClear(s: Relay, failed: seq<seq<Part>>)
    requires (forall a, p | a in failed && p in a :: Within(p)) && Honest(s) && Seen(s) == ""
    ensures Honest(FeedAll(s, Failures(failed))) && Seen(FeedAll(s, Failures(failed))) == ""
    decreases |failed|
  {
    if failed != [] {
      assert failed[0] in failed;
      AttemptSeen(s, failed[0]);
      var t := FeedAll(s, failed[0]);
      RetryClears(t);
      FeedTwo(s, failed[0], [RetryPart(false)]);
      assert FeedAll(t, [RetryPart(false)]) == FeedAll(FeedPart(t, RetryPart(false)), []);
      FeedTwo(s, failed[0] + [RetryPart(false)], Failures(failed[1..]));
      FailuresClear(FeedPart(t, RetryPart(false)), failed[1..]);
    }
  }

  function Announced(calls: seq<string>): seq<Event>
    decreases |calls|
  {
    if calls == [] then [] else [ToolEvent(calls[0], "started")] + Announced(calls[1..])
  }

  lemma {:induction false} ToolsPublished(s: Relay, calls: seq<string>)
    ensures StartTools(s, calls).published == s.published + Announced(calls)
    decreases |calls|
  {
    if calls == [] {
      assert s.published + [] == s.published;
    } else {
      var e := ToolEvent(calls[0], "started");
      ToolsPublished(Publish(s, e), calls[1..]);
      RegroupedEvents(s.published, [e], Announced(calls[1..]));
    }
  }

  lemma RegroupedEvents(x: seq<Event>, y: seq<Event>, z: seq<Event>)
    ensures (x + y) + z == x + (y + z)
  {
  }

  /** What the update of a call adds: the held reasoning, the end of a streamed message that calls
      tools, and those calls. */
  lemma UpdatePublishes(s: Relay, text: string, calls: seq<string>)
    requires Honest(s)
    ensures FeedPart(s, Updates([Agent(text, calls)], false)).published
      == Flush(s).published + (if Seen(s) != "" && calls != [] then [MessageEnd] else []) + Announced(calls)
  {
    Quietly(s);
    var v := Flush(s);
    var w := if v.streamed && calls != [] then Publish(v, MessageEnd) else v;
    ToolsPublished(w.(streamed := false, thought := false, reply := text), calls);
    var us := [Agent(text, calls)];
    assert us[1..] == [];
    assert UpdateAll(v, us) == Update(v, us[0]);
    assert v.published + [] == v.published;
  }

  /** At the update of a model call the client holds exactly the text of its message: no token of an
      abandoned attempt is left. If the message calls tools, the client starts the next one empty. */
  lemma CallShowsItsText(s: Relay, c: ModelCall)
    requires WellFormed(c) && Honest(s) && Seen(s) == ""
    ensures
      var t := FeedAll(s, Before(c));
      var u := FeedPart(t, UpdateOf(c));
      && Honest(t) && Seen(t) == TextOf(c.success)
      && u.reply == TextOf(c.success)
      && Seen(u) == (if c.calls == [] then u.reply else "")
      && !u.streamed
  {
    FailuresClear(s, c.failed);
    FeedTwo(s, Failures(c.failed), c.success);
    AttemptSeen(FeedAll(s, Failures(c.failed)), c.success);
    var t := FeedAll(s, Before(c));
    Quietly(t);
    var v := Flush(t);
    Published(v, MessageEnd);
    var w := if v.streamed && c.calls != [] then Publish(v, MessageEnd) else v;
    ToolsQuietly(w.(streamed := false, thought := false, reply := TextOf(c.success)), c.calls);
    var us := [Agent(TextOf(c.success), c.calls)];
    assert us[1..] == [];
    assert UpdateAll(v, us) == Update(v, us[0]);
  }

  lemma {:induction false} ResultsPublished(s: Relay, results: seq<(string, bool)>)
    ensures
      var t := EndTools(s, results).published;
      && |t| == |s.published| + |results| && s.published <= t
      && forall i | 0 <= i < |results| ::
           t[|s.published| + i] == ToolEvent(results[i].0, if results[i].1 then "error" else "done")
    decreases |results|
  {
    if results != [] {
      ResultsPublished(Publish(s, ToolEvent(results[0].0, if results[0].1 then "error" else "done")), results[1..]);
    }
  }

  /** An update of the tools reports each result, in order, failed or done. */
  lemma ResultsAreReported(s: Relay, results: seq<(string, bool)>)
    ensures
      var before, after := Flush(s).published, FeedPart(s, Updates([Tools(results)], false)).published;
      && |after| == |before| + |results| && before <= after
      && forall i | 0 <= i < |results| ::
           after[|before| + i] == ToolEvent(results[i].0, if results[i].1 then "error" else "done")
  {
    ResultsPublished(Flush(s), results);
    var us := [Tools(results)];
    assert us[1..] == [];
    assert UpdateAll(Flush(s), us) == UpdateAll(Update(Flush(s), us[0]), []);
  }

  /** A token follows the reasoning of its chunk and all that was held; a chunk without text sends only what
      the filter lets go. What is not the assistant's own is not sent. */
  lemma ChunkIsTold(s: Relay, reasoning: string, text: string, spoken: bool, nested: bool)
    ensures
      var t := FeedPart(s, Chunk(reasoning, text, spoken, nested));
      && (nested || !spoken ==> t == s)
      && (!nested && spoken && text == "" ==> t == Think(s, reasoning))
      && (!nested && spoken && text != "" ==> t.published == Flush(Think(s, reasoning)).published + [Token(text)])
  {
  }

  /** Every other event follows the held reasoning at once: a progress line, from a nested graph too, and
      a notice, which is kept for the result, unless it is nested. */
  lemma PartIsTold(s: Relay, text: string, nested: bool)
    ensures
      var before := Flush(s).published;
      && FeedPart(s, ProgressPart(text, nested)).published == before + [ProgressLine(text)]
      && FeedPart(s, NoticePart(text, nested)).published == (if nested then before else before + [Notice(text)])
      && FeedPart(s, NoticePart(text, nested)).notices == (if nested then s.notices else s.notices + [text])
      && FeedPart(s, ProgressPart(text, nested)).notices == s.notices
  {
    Quietly(s);
  }

  function PartsOf(cs: seq<ModelCall>): seq<Part> {
    if cs == [] then [] else Before(cs[0]) + [UpdateOf(cs[0])] + PartsOf(cs[1..])
  }

  /** Over a whole turn, every model call but the last calling tools: at the end the client holds
      exactly the reply the job reports. */
  lemma {:induction false} TurnShowsTheReply(s: Relay, cs: seq<ModelCall>)
    requires cs != [] && (forall c | c in cs :: WellFormed(c)) && Honest(s) && Seen(s) == ""
    requires forall i | 0 <= i < |cs| :: (cs[i].calls == [] <==> i == |cs| - 1)
    ensures
      var u := FeedAll(s, PartsOf(cs));
      Seen(u) == u.reply == TextOf(cs[|cs| - 1].success)
    decreases |cs|
  {
    var c := cs[0];
    CallShowsItsText(s, c);
    var t := FeedAll(s, Before(c));
    var u := FeedPart(t, UpdateOf(c));
    FeedTwo(s, Before(c), [UpdateOf(c)]);
    assert FeedAll(t, [UpdateOf(c)]) == FeedAll(u, []);
    FeedTwo(s, Before(c) + [UpdateOf(c)], PartsOf(cs[1..]));
    if |cs| > 1 {
      TurnShowsTheReply(u, cs[1..]);
    }
  }
}
