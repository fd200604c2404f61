/** All reasoning that a chat turn logs has passed the filter (services/agent/src/worker/stream.py over
    services/agent/src/worker/redact.py). */
module RelayGuard {
  import opened ChatRelay
  import opened Redact
  import RedactProofs
  import RedactSecrets
  import opened Sequences
  import opened Wrappers

  /** The text of all reasoning events, in order. */
  function Reasoned(events: seq<Event>): string {
    if events == [] then ""
    else
      var last := events[|events| - 1];
      Reasoned(events[..|events| - 1]) + if last.Reasoning? then last.text else ""
  }

  /** A part of the assistant's own that carries reasoning. */
  predicate Thinks(p: Part) { p.Chunk? && p.spoken && !p.nested && p.reasoning != "" }

  /** A part before whose event the held reasoning is sent: anything but reasoning alone, and what a
      nested graph says or does. */
  predicate Ends(p: Part) {
    match p
    case Chunk(_, text, spoken, nested) => spoken && !nested && text != ""
    case Updates(_, nested) => !nested
    case _ => true
  }

  function Extended(stretches: seq<seq<string>>, p: Part): (r: seq<seq<string>>)
    requires stretches != []
    ensures r != []
  {
    var last := |stretches| - 1;
    var fed := if Thinks(p) then stretches[last := stretches[last] + [p.reasoning]] else stretches;
    if Ends(p) then fed + [[]] else fed
  }

  /** The reasoning fed between two flushes, stretch by stretch; the last one is still open. */
  function Stretches(ps: seq<Part>): (r: seq<seq<string>>)
    ensures r != []
  {
    if ps == [] then [[]] else Extended(Stretches(ps[..|ps| - 1]), ps[|ps| - 1])
  }

  /** What the filter sends of stretches that were flushed. */
  function SentOf(g: Guard, stretches: seq<seq<string>>): string {
    if stretches == [] then ""
    else SentOf(g, stretches[..|stretches| - 1]) + Sent(g, Flushed(g, stretches[|stretches| - 1]))
  }

  // ---------- One part at a time ----------

  lemma ReasonedMore(events: seq<Event>, e: Event)
    ensures Reasoned(events + [e]) == Reasoned(events) + if e.Reasoning? then e.text else ""
  {
    assert (events + [e])[..|events|] == events;
  }

  lemma ThoughtAdds(s: Relay, text: string)
    ensures Reasoned(Thought(s, text).published) == Reasoned(s.published) + text
  {
    if text == "" {
      assert Reasoned(s.published) + "" == Reasoned(s.published);
    } else {
      ReasonedMore(s.published, Reasoning(text));
    }
  }

  lemma OtherAdds(s: Relay, e: Event)
    requires !e.Reasoning?
    ensures Reasoned(Publish(s, e).published) == Reasoned(s.published)
  {
    ReasonedMore(s.published, e);
    assert Reasoned(s.published) + "" == Reasoned(s.published);
  }

  lemma {:induction false} StartsAdd(s: Relay, calls: seq<string>)
    ensures
      var t := StartTools(s, calls);
      Reasoned(t.published) == Reasoned(s.published) && t.held == s.held && t.guard == s.guard
    decreases |calls|
  {
    if calls != [] {
      OtherAdds(s, ToolEvent(calls[0], "started"));
      StartsAdd(Publish(s, ToolEvent(calls[0], "started")), calls[1..]);
    }
  }

  lemma {:induction false} ResultsAdd(s: Relay, results: seq<(string, bool)>)
    ensures
      var t := EndTools(s, results);
      Reasoned(t.published) == Reasoned(s.published) && t.held == s.held && t.guard == s.guard
    decreases |results|
  {
    if results != [] {
      var e := ToolEvent(results[0].0, if results[0].1 then "error" else "done");
      OtherAdds(s, e);
      ResultsAdd(Publish(s, e), results[1..]);
    }
  }

  lemma {:induction false} UpdatesAdd(s: Relay, us: seq<NodeUpdate>)
    ensures
      var t := UpdateAll(s, us);
      Reasoned(t.published) == Reasoned(s.published) && t.held == s.held && t.guard == s.guard
    decreases |us|
  {
    if us != [] {
      match us[0] {
        case Agent(text, calls) =>
          OtherAdds(s, MessageEnd);
          var t := if s.streamed && calls != [] then Publish(s, MessageEnd) else s;
          StartsAdd(t.(streamed := false, thought := false, reply := text), calls);
        case Tools(results) => ResultsAdd(s, results);
        case Other =>
      }
      UpdatesAdd(Update(s, us[0]), us[1..]);
    }
  }

  /** What a flush sends, and what is held after it. */
  lemma FlushAdds(s: Relay, g: Guard)
    requires s.guard == Some(g)
    ensures
      var t := Flush(s);
      && t.guard == Some(g) && t.held == "" && t.streamed == s.streamed && t.thought == s.thought
      && Reasoned(t.published) == Reasoned(s.published) + Guarded(g.alphabet, Clean(g, s.held, true))
  {
    ThoughtAdds(s.(held := ""), Guarded(g.alphabet, Clean(g, s.held, true)));
  }

  lemma ThinkAdds(s: Relay, g: Guard, reasoning: string)
    requires s.guard == Some(g) && reasoning != ""
    ensures
      var t, step := Think(s, reasoning), FeedStep(g, s.held, reasoning);
      && t.guard == Some(g) && t.held == step.1
      && Reasoned(t.published) == Reasoned(s.published) + Guarded(g.alphabet, step.0)
  {
    var (piece, rest) := FeedStep(g, s.held, reasoning);
    ThoughtAdds(s.(held := rest, thought := true), Guarded(g.alphabet, piece));
  }

  /** The state once the part's reasoning, if it has any, is fed. */
  function Fed(s: Relay, p: Part): Relay {
    if Thinks(p) then Think(s, p.reasoning) else s
  }

  /** A part adds no reasoning but its own, and the flush it calls for. */
  lemma PartAdds(s: Relay, g: Guard, p: Part)
    requires s.guard == Some(g)
    ensures
      var t, fed := FeedPart(s, p), Fed(s, p);
      var u := if Ends(p) then Flush(fed) else fed;
      t.guard == Some(g) && t.held == u.held && Reasoned(t.published) == Reasoned(u.published)
  {
    var fed := Fed(s, p);
    if Thinks(p) { ThinkAdds(s, g, p.reasoning); }
    FlushAdds(fed, g);
    var u := Flush(fed);
    match p {
      case ProgressPart(detail, _) => OtherAdds(u, ProgressLine(detail));
      case NoticePart(text, nested) => OtherAdds(u.(notices := s.notices + [text]), Notice(text));
      case RetryPart(nested) =>
        OtherAdds(u.(streamed := false, thought := false), Reset);
        OtherAdds(u.(thought := false), ProgressLine(RETRYING));
      case Chunk(_, text, _, _) => OtherAdds(u.(streamed := true), Token(text));
      case Updates(us, _) => UpdatesAdd(u, us);
    }
  }

  // ---------- Whole streams ----------

  /** Every flushed stretch was sent as the filter sends it, and of the open one what its feeds let go. */
  ghost predicate Passed(s: Relay, g: Guard, stretches: seq<seq<string>>)
    requires stretches != []
  {
    var closed, open := stretches[..|stretches| - 1], stretches[|stretches| - 1];
    && s.guard == Some(g) && s.held == Run(g, open).held
    && Reasoned(s.published) == SentOf(g, closed) + Sent(g, Run(g, open).pieces)
  }

  lemma Regroup(x: string, y: string, z: string)
    ensures (x + y) + z == x + (y + z)
  {
  }

  lemma SentMore(g: Guard, pieces: seq<string>, piece: string)
    ensures Sent(g, pieces + [piece]) == Sent(g, pieces) + Guarded(g.alphabet, piece)
  {
    assert (pieces + [piece])[..|pieces|] == pieces;
  }

  lemma FedPasses(s: Relay, g: Guard, stretches: seq<seq<string>>, reasoning: string)
    requires stretches != [] && Passed(s, g, stretches) && reasoning != ""
    ensures
      var last := |stretches| - 1;
      Passed(Think(s, reasoning), g, stretches[last := stretches[last] + [reasoning]])
  {
    var last := |stretches| - 1;
    var open, next := stretches[last], stretches[last := stretches[last] + [reasoning]];
    ThinkAdds(s, g, reasoning);
    FeedExtendsRun(g, open, reasoning);
    var piece := FeedStep(g, s.held, reasoning).0;
    SentMore(g, Run(g, open).pieces, piece);
    assert next[..last] == stretches[..last];
    Regroup(SentOf(g, stretches[..last]), Sent(g, Run(g, open).pieces), Guarded(g.alphabet, piece));
  }

  lemma FlushPasses(s: Relay, g: Guard, stretches: seq<seq<string>>)
    requires stretches != [] && Passed(s, g, stretches)
    ensures Passed(Flush(s), g, stretches + [[]])
    ensures Reasoned(Flush(s).published) == SentOf(g, stretches)
  {
    var last := |stretches| - 1;
    var open, r := stretches[last], Run(g, stretches[last]);
    FlushAdds(s, g);
    SentMore(g, r.pieces, Clean(g, r.held, true));
    Regroup(SentOf(g, stretches[..last]), Sent(g, r.pieces), Guarded(g.alphabet, Clean(g, r.held, true)));
    assert (stretches + [[]])[..|stretches|] == stretches;
    assert SentOf(g, stretches) + "" == SentOf(g, stretches);
  }

  lemma SamePasses(s: Relay, t: Relay, g: Guard, stretches: seq<seq<string>>)
    requires stretches != [] && Passed(s, g, stretches)
    requires t.guard == s.guard && t.held == s.held && Reasoned(t.published) == Reasoned(s.published)
    ensures Passed(t, g, stretches)
  {
  }

  lemma StartPasses(g: Guard)
    ensures Passed(Started(Some(g)), g, [[]])
  {
    var none: seq<seq<string>> := [[]];
    assert none[..0] == [];
  }

  lemma PartPasses(s: Relay, g: Guard, stretches: seq<seq<string>>, p: Part)
    requires stretches != [] && Passed(s, g, stretches)
    ensures Passed(FeedPart(s, p), g, Extended(stretches, p))
  {
    var last := |stretches| - 1;
    var fed := if Thinks(p) then stretches[last := stretches[last] + [p.reasoning]] else stretches;
    if Thinks(p) { FedPasses(s, g, stretches, p.reasoning); }
    FlushPasses(Fed(s, p), g, fed);
    PartAdds(s, g, p);
    SamePasses(if Ends(p) then Flush(Fed(s, p)) else Fed(s, p), FeedPart(s, p), g, Extended(stretches, p));
  }

  lemma FeedLast(s: Relay, ps: seq<Part>)
    requires ps != []
    ensures FeedAll(s, ps) == FeedPart(FeedAll(s, ps[..|ps| - 1]), ps[|ps| - 1])
  {
    var init, p := ps[..|ps| - 1], ps[|ps| - 1];
    assert ps == init + [p] && [p][1..] == [];
    FeedTwo(s, init, [p]);
    assert FeedAll(FeedAll(s, init), [p]) == FeedAll(FeedPart(FeedAll(s, init), p), []);
  }

  lemma {:induction false} RelayPasses(g: Guard, ps: seq<Part>)
    ensures Passed(FeedAll(Started(Some(g)), ps), g, Stretches(ps))
  {
    if ps == [] {
      StartPasses(g);
    } else {
      var init := ps[..|ps| - 1];
      RelayPasses(g, init);
      FeedLast(Started(Some(g)), ps);
      PartPasses(FeedAll(Started(Some(g)), init), g, Stretches(init), ps[|ps| - 1]);
    }
  }

  /** Whatever the graph streams: the reasoning that is logged is exactly what the filter sends of the
      assistant's own reasoning, stretch by stretch between two flushes, at every moment and, with the
      flush at the end, as a whole. */
  lemma ReasoningIsFiltered(g: Guard, ps: seq<Part>)
    ensures
      var s, stretches := FeedAll(Started(Some(g)), ps), Stretches(ps);
      var last := |stretches| - 1;
      && Reasoned(s.published) == SentOf(g, stretches[..last]) + Sent(g, Run(g, stretches[last]).pieces)
      && Reasoned(Flush(s).published) == SentOf(g, stretches)
  {
    RelayPasses(g, ps);
    FlushPasses(FeedAll(Started(Some(g)), ps), g, Stretches(ps));
  }

  /** What the log holds before the `k`-th stretch, of it, and after it. */
  lemma {:induction false} StretchInLog(g: Guard, stretches: seq<seq<string>>, k: nat)
    requires k < |stretches|
    ensures SentOf(g, stretches[..k]) + Sent(g, Flushed(g, stretches[k])) <= SentOf(g, stretches)
    decreases |stretches|
  {
    var init := stretches[..|stretches| - 1];
    if k == |stretches| - 1 {
      assert stretches[..k] == init;
    } else {
      StretchInLog(g, init, k);
      assert init[..k] == stretches[..k];
      PrefixStays(SentOf(g, stretches[..k]) + Sent(g, Flushed(g, stretches[k])), SentOf(g, init),
                  Sent(g, Flushed(g, stretches[|init|])));
    }
  }

  lemma PrefixStays(x: string, y: string, z: string)
    requires x <= y
    ensures x <= y + z
  {
  }

  /** No secret is logged: in the stretch it was thought in, free of think tags, every whole word that is
      a secret has lost a character to a replacement in the pieces of which the log holds a choice. */
  lemma NoSecretLogged(g: Guard, ps: seq<Part>, k: nat, v: string, i: nat)
    requires g.Valid() && k < |Stretches(ps)| && RedactProofs.ThinkFree(Join(Stretches(ps)[k]))
    requires v in g.values && Fits(g.alphabet, v, Join(Stretches(ps)[k]), i, true)
    ensures
      var stretches, logged := Stretches(ps), Reasoned(Flush(FeedAll(Started(Some(g)), ps)).published);
      var text, pieces := Join(stretches[k]), Flushed(g, stretches[k]);
      var cells := RedactSecrets.FlushTrace(g, stretches[k]);
      && SentOf(g, stretches[..k]) + Sent(g, pieces) <= logged
      && (exists sent :: RedactSecrets.Choice(pieces, sent) && Sent(g, pieces) == Join(sent))
      && RedactSecrets.Chars(cells) == Join(pieces) && RedactSecrets.Covers(text, cells)
      && exists j: nat :: i <= j < i + |v| && RedactSecrets.Raw(text[j], j) !in cells
  {
    ReasoningIsFiltered(g, ps);
    StretchInLog(g, Stretches(ps), k);
    RedactSecrets.NoSecretSent(g, Stretches(ps)[k], v, i);
  }

  /** With reasoning off none is logged. */
  lemma {:induction false} NoneWithoutGuard(ps: seq<Part>)
    ensures
      var s := FeedAll(Started(None), ps);
      s.guard.None? && forall e | e in s.published :: !e.Reasoning?
  {
    if ps != [] {
      NoneWithoutGuard(ps[..|ps| - 1]);
      FeedLast(Started(None), ps);
      PartLogsNone(FeedAll(Started(None), ps[..|ps| - 1]), ps[|ps| - 1]);
    }
  }

  ghost predicate NoReasoning(s: Relay) {
    s.guard.None? && forall e | e in s.published :: !e.Reasoning?
  }

  lemma {:induction false} StartsLogNone(s: Relay, calls: seq<string>)
    requires NoReasoning(s)
    ensures NoReasoning(StartTools(s, calls))
    decreases |calls|
  {
    if calls != [] { StartsLogNone(Publish(s, ToolEvent(calls[0], "started")), calls[1..]); }
  }

  lemma {:induction false} ResultsLogNone(s: Relay, results: seq<(string, bool)>)
    requires NoReasoning(s)
    ensures NoReasoning(EndTools(s, results))
    decreases |results|
  {
    if results != [] {
      ResultsLogNone(Publish(s, ToolEvent(results[0].0, if results[0].1 then "error" else "done")), results[1..]);
    }
  }

  lemma {:induction false} UpdatesLogNone(s: Relay, us: seq<NodeUpdate>)
    requires NoReasoning(s)
    ensures NoReasoning(UpdateAll(s, us))
    decreases |us|
  {
    if us != [] {
      match us[0] {
        case Agent(text, calls) =>
          var t := if s.streamed && calls != [] then Publish(s, MessageEnd) else s;
          StartsLogNone(t.(streamed := false, thought := false, reply := text), calls);
        case Tools(results) => ResultsLogNone(s, results);
        case Other =>
      }
      UpdatesLogNone(Update(s, us[0]), us[1..]);
    }
  }

  lemma PartLogsNone(s: Relay, p: Part)
    requires NoReasoning(s)
    ensures NoReasoning(FeedPart(s, p))
  {
    if p.Updates? { UpdatesLogNone(s, p.updates); }
  }
}
