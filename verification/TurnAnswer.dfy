/** From the graph's stream to the answer: what the relay logs of a chat turn
    (services/agent/src/worker/stream.py), read back as an OpenAI answer
    (services/api/src/api/openai/stream.py). */
module TurnAnswer {
  import C = Chunks
  import opened AnswerStream
  import opened ChatRelay
  import opened Redact
  import opened Wrappers

  /** The event as the API reads it; `render` is the line of a progress or tool event. */
  function Logged(render: Event -> string, e: Event): C.Event {
    match e
    case Reasoning(text) => C.Reasoning(text)
    case Token(text) => C.Token(text)
    case MessageEnd => C.MessageEnd
    case Reset => C.Reset
    case Notice(text) => C.Notice(text)
    case _ => C.DeskLine(render(e))
  }

  /** The arrivals are the events of the log, each once and in order, with any quiet intervals. */
  ghost predicate Arrives(render: Event -> string, arrivals: seq<Option<C.Event>>, log: seq<Event>)
    decreases |arrivals|
  {
    if arrivals == [] then log == []
    else if arrivals[|arrivals| - 1].None? then Arrives(render, arrivals[..|arrivals| - 1], log)
    else
      && log != [] && arrivals[|arrivals| - 1] == Some(Logged(render, log[|log| - 1]))
      && Arrives(render, arrivals[..|arrivals| - 1], log[..|log| - 1])
  }

  ghost predicate NoNotice(log: seq<Event>) {
    forall e | e in log :: !e.Notice?
  }

  /** Nothing ends, resets or interrupts the message. */
  ghost predicate OneMessage(log: seq<Event>) {
    forall e | e in log :: !e.Notice? && !e.MessageEnd? && !e.Reset?
  }

  lemma {:induction false} ArrivesOpen(render: Event -> string, arrivals: seq<Option<C.Event>>, log: seq<Event>)
    requires Arrives(render, arrivals, log)
    ensures C.Open(arrivals)
    decreases |arrivals|
  {
    if arrivals != [] {
      var init, last := arrivals[..|arrivals| - 1], arrivals[|arrivals| - 1];
      ArrivesOpen(render, init, if last.None? then log else log[..|log| - 1]);
      assert arrivals == init + [last];
    }
  }

  /** What the arrivals tell ends with what a client of the log holds; with one message it is that. */
  lemma {:induction false} ToldEndsWithHeld(render: Event -> string, arrivals: seq<Option<C.Event>>, log: seq<Event>)
    returns (before: string)
    requires Arrives(render, arrivals, log) && NoNotice(log)
    ensures C.Told(arrivals) == before + Holds(log)
    ensures OneMessage(log) ==> before == ""
    decreases |arrivals|
  {
    if arrivals == [] {
      before := "";
    } else {
      var init, last := arrivals[..|arrivals| - 1], arrivals[|arrivals| - 1];
      if last.None? {
        before := ToldEndsWithHeld(render, init, log);
      } else {
        var e, older := log[|log| - 1], log[..|log| - 1];
        before := ToldEndsWithHeld(render, init, older);
        match e {
          case Token(text) => Regrouped(before, Holds(older), text);
          case MessageEnd => before := C.Told(init) + "\n\n";
          case Reset => before := C.Told(init) + if C.AnyShown(init) then C.RETRYING else "";
          case _ =>
        }
        assert before + "" == before;
      }
    }
  }

  // ---------- What a turn logs ----------

  lemma LogsOne(log: seq<Event>, e: Event)
    requires NoNotice(log) && !e.Notice?
    ensures NoNotice(log + [e]) && (OneMessage(log) && !e.MessageEnd? && !e.Reset? ==> OneMessage(log + [e]))
  {
  }

  /** What is published on the way from `s` to `t` is no notice, and `quietly` no end of a message. */
  ghost predicate Adds(s: Relay, t: Relay, quietly: bool) {
    && (NoNotice(s.published) ==> NoNotice(t.published))
    && (quietly && OneMessage(s.published) ==> OneMessage(t.published))
  }

  lemma FlushAddsNone(s: Relay)
    ensures Adds(s, Flush(s), true)
  {
  }

  lemma {:induction false} StartsAddNone(s: Relay, calls: seq<string>)
    ensures Adds(s, StartTools(s, calls), true)
    decreases |calls|
  {
    if calls != [] { StartsAddNone(Publish(s, ToolEvent(calls[0], "started")), calls[1..]); }
  }

  lemma {:induction false} ResultsAddNone(s: Relay, results: seq<(string, bool)>)
    ensures Adds(s, EndTools(s, results), true)
    decreases |results|
  {
    if results != [] {
      ResultsAddNone(Publish(s, ToolEvent(results[0].0, if results[0].1 then "error" else "done")), results[1..]);
    }
  }

  /** An update that ends no streamed message. */
  ghost predicate Quiet(u: NodeUpdate) {
    u.Agent? ==> u.calls == []
  }

  lemma UpdateAddsNone(s: Relay, u: NodeUpdate)
    ensures Adds(s, Update(s, u), Quiet(u))
  {
    match u {
      case Agent(text, calls) =>
        var t := if s.streamed && calls != [] then Publish(s, MessageEnd) else s;
        StartsAddNone(t.(streamed := false, thought := false, reply := text), calls);
      case Tools(results) => ResultsAddNone(s, results);
      case Other =>
    }
  }

  lemma {:induction false} UpdatesAddNone(s: Relay, us: seq<NodeUpdate>)
    ensures Adds(s, UpdateAll(s, us), forall u | u in us :: Quiet(u))
    decreases |us|
  {
    if us != [] {
      assert us[0] in us && forall u | u in us[1..] :: u in us;
      UpdateAddsNone(s, us[0]);
      UpdatesAddNone(Update(s, us[0]), us[1..]);
    }
  }

  predicate Announces(p: Part) { p.NoticePart? && !p.nested }

  /** A part that neither retries nor updates a message that calls tools. */
  ghost predicate Plain(p: Part) {
    && !(p.RetryPart? && !p.nested)
    && (p.Updates? && !p.nested ==> forall u | u in p.updates :: Quiet(u))
  }

  lemma PartAddsNone(s: Relay, p: Part)
    requires !Announces(p)
    ensures Adds(s, FeedPart(s, p), Plain(p))
  {
    FlushAddsNone(s);
    match p {
      case Chunk(reasoning, text, _, _) => FlushAddsNone(Think(s, reasoning));
      case Updates(us, _) => UpdatesAddNone(Flush(s), us);
      case _ =>
    }
  }

  lemma {:induction false} PartsAddNone(s: Relay, ps: seq<Part>)
    requires forall p | p in ps :: !Announces(p)
    ensures Adds(s, FeedAll(s, ps), forall p | p in ps :: Plain(p))
    decreases |ps|
  {
    if ps != [] {
      assert ps[0] in ps && forall p | p in ps[1..] :: p in ps;
      PartAddsNone(s, ps[0]);
      PartsAddNone(FeedPart(s, ps[0]), ps[1..]);
    }
  }

  // ---------- The answer ----------

  /** The log of a whole turn, with the flush at its end. */
  function LogOf(guard: Option<Guard>, cs: seq<ModelCall>): seq<Event> {
    Flush(FeedAll(Started(guard), PartsOf(cs))).published
  }

  lemma DoneCloses(arrivals: seq<Option<C.Event>>)
    requires C.Open(arrivals)
    ensures OpenCount(arrivals + [Some(C.Done)]) == |arrivals|
  {
    OpenSoFar(arrivals + [Some(C.Done)], |arrivals|);
  }

  lemma AnswerOf(arrivals: seq<Option<C.Event>>, gone: bool)
    requires C.Open(arrivals)
    ensures WholeContent(arrivals + [Some(C.Done)], gone) == C.Told(arrivals)
  {
    var all := arrivals + [Some(C.Done)];
    DoneCloses(arrivals);
    assert all[..|arrivals|] == arrivals;
    assert Note(all, gone) == "";
    assert C.Told(arrivals) + "" + "" == C.Told(arrivals);
  }

  ghost predicate WholeTurn(cs: seq<ModelCall>) {
    && cs != [] && (forall c | c in cs :: WellFormed(c))
    && (forall i | 0 <= i < |cs| :: (cs[i].calls == [] <==> i == |cs| - 1))
    && forall p | p in PartsOf(cs) :: !Announces(p)
  }

  lemma TurnHolds(guard: Option<Guard>, cs: seq<ModelCall>)
    requires WholeTurn(cs)
    ensures
      var u := FeedAll(Started(guard), PartsOf(cs));
      && u.reply == TextOf(cs[|cs| - 1].success) && Holds(LogOf(guard, cs)) == u.reply && NoNotice(LogOf(guard, cs))
  {
    TurnShowsTheReply(Started(guard), cs);
    var u := FeedAll(Started(guard), PartsOf(cs));
    Quietly(u);
    PartsAddNone(Started(guard), PartsOf(cs));
    FlushAddsNone(u);
  }

  /** Whatever a turn without notices went through, failed attempts and tool calls included, its answer
      ends with the reply the job reports. */
  lemma AnswerEndsWithReply(render: Event -> string, guard: Option<Guard>, cs: seq<ModelCall>,
                            arrivals: seq<Option<C.Event>>, gone: bool) returns (before: string)
    requires WholeTurn(cs) && Arrives(render, arrivals, LogOf(guard, cs))
    ensures WholeContent(arrivals + [Some(C.Done)], gone) == before + FeedAll(Started(guard), PartsOf(cs)).reply
  {
    TurnHolds(guard, cs);
    ArrivesOpen(render, arrivals, LogOf(guard, cs));
    AnswerOf(arrivals, gone);
    before := ToldEndsWithHeld(render, arrivals, LogOf(guard, cs));
  }

  /** With one model call that neither fails nor calls tools, the answer is exactly the reply: all the
      text of the assistant's own chunks. */
  lemma AnswerIsReply(render: Event -> string, guard: Option<Guard>, c: ModelCall,
                      arrivals: seq<Option<C.Event>>, gone: bool)
    requires WholeTurn([c]) && c.failed == [] && Arrives(render, arrivals, LogOf(guard, [c]))
    ensures WholeContent(arrivals + [Some(C.Done)], gone) == TextOf(c.success)
      == FeedAll(Started(guard), PartsOf([c])).reply
  {
    var cs := [c];
    TurnHolds(guard, cs);
    ArrivesOpen(render, arrivals, LogOf(guard, cs));
    AnswerOf(arrivals, gone);
    OneCallIsPlain(c);
    PartsAddNone(Started(guard), PartsOf(cs));
    FlushAddsNone(FeedAll(Started(guard), PartsOf(cs)));
    var before := ToldEndsWithHeld(render, arrivals, LogOf(guard, cs));
    assert before + Holds(LogOf(guard, cs)) == Holds(LogOf(guard, cs));
  }

  lemma OneCallIsPlain(c: ModelCall)
    requires WellFormed(c) && c.failed == [] && c.calls == []
    ensures forall p | p in PartsOf([c]) :: Plain(p)
  {
    assert [c][1..] == [];
    assert PartsOf([c]) == [] + c.success + [UpdateOf(c)] + [];
    forall p | p in PartsOf([c]) ensures Plain(p) {
      if p in c.success { assert ChatRelay.Within(p); } else { assert p == UpdateOf(c); }
    }
  }
}
