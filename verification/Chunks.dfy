/** Job events as OpenAI deltas (services/api/src/api/openai/chunks.py): what the deltas of a whole
    event log spell, as content and as reasoning. */
module Chunks {
  import opened Wrappers

  /** A job event. A desk line is a `progress` or `tool` event, rendered as the line it shows. */
  datatype Event =
    | Token(text: string)
    | Reasoning(text: string)
    | DeskLine(line: string)
    | MessageEnd
    | Reset
    | Notice(text: string)
    | Done
    | Error(code: string, message: string)
    | Timeout
    | Other

  datatype Delta = Nothing | Role | Content(text: string) | Thinking(text: string)

  datatype Failure = Failure(message: string, code: string)

  datatype Part = Part(delta: Delta, stop: bool, error: Option<Failure>)

  datatype State = State(contentSent: bool, finished: bool, midThought: bool)

  const FRESH := State(false, false, false)

  const TIMED_OUT := "_(Still working the trade. Give it a minute, then ask for the result.)_"
  const WAITING_NOTE :=
    "Waiting on the desk to finish your last request; if it is still busy after half a minute, " +
    "send again once it has answered.\n"
  const RETRYING := "\n\n_(retrying\U{2026})_\n\n"
  const BREAK := "\n\n"

  const ROLE := Plain(Role)
  const WAITING := Plain(Thinking(WAITING_NOTE))
  const KEEPALIVE := Plain(Thinking(""))

  function Plain(d: Delta): Part { Part(d, false, None) }

  function ErrorNote(message: string): string { "The desk could not answer: " + message + "." }

  predicate EndsLine(s: string) { s != "" && s[|s| - 1] == '\n' }

  function Say(s: State, text: string): (seq<Part>, State) {
    ([Plain(Content(text))], s.(contentSent := true))
  }

  /** The paragraph break before a note, once content went out. */
  function Gap(s: State): string { if s.contentSent then BREAK else "" }

  /** The line break before a desk line, when the model's reasoning stopped mid-line. */
  function LineGap(s: State): string { if s.midThought then "\n" else "" }

  function MapEvent(s: State, e: Event): (seq<Part>, State) {
    match e
    case Token(text) => Say(s, text)
    case Reasoning(text) => ([Plain(Thinking(text))], s.(midThought := !EndsLine(text)))
    case DeskLine(line) =>
      ([Plain(Thinking(LineGap(s) + line + "\n"))], s.(midThought := false))
    case MessageEnd => Say(s, BREAK)
    case Reset => if s.contentSent then Say(s, RETRYING) else ([], s)
    case Notice(text) => Say(s, Gap(s) + text + BREAK)
    case Done => ([Part(Nothing, true, None)], s.(finished := true))
    case Error(code, message) =>
      var note := ErrorNote(message);
      ([Part(Content(Gap(s) + note), true, Some(Failure(note, code)))], s.(finished := true))
    case Timeout => ([Part(Content(Gap(s) + TIMED_OUT), true, None)], s.(finished := true))
    case Other => ([], s)
  }

  // ---------- Arrivals: events, and None for each quiet interval ----------

  predicate Closes(a: Option<Event>) {
    a.Some? && (a.value.Done? || a.value.Error? || a.value.Timeout?)
  }

  predicate Open(arrivals: seq<Option<Event>>) {
    forall a | a in arrivals :: !Closes(a)
  }

  function Step(s: State, a: Option<Event>): (seq<Part>, State) {
    if a.None? then ([KEEPALIVE], s) else MapEvent(s, a.value)
  }

  function MapAll(arrivals: seq<Option<Event>>): (seq<Part>, State) {
    if arrivals == [] then ([], FRESH)
    else
      var before := MapAll(arrivals[..|arrivals| - 1]);
      var (parts, s) := Step(before.1, arrivals[|arrivals| - 1]);
      (before.0 + parts, s)
  }

  function ContentOf(p: Part): string { if p.delta.Content? then p.delta.text else "" }

  function ThoughtOf(p: Part): string { if p.delta.Thinking? then p.delta.text else "" }

  /** The concatenation of all content deltas. */
  function Contents(parts: seq<Part>): string {
    if parts == [] then "" else Contents(parts[..|parts| - 1]) + ContentOf(parts[|parts| - 1])
  }

  /** The concatenation of all reasoning deltas. */
  function Thoughts(parts: seq<Part>): string {
    if parts == [] then "" else Thoughts(parts[..|parts| - 1]) + ThoughtOf(parts[|parts| - 1])
  }

  /** Each quiet interval is sent as an empty piece of reasoning, so the stream is never silent for long. */
  lemma QuietIsKeptAlive(arrivals: seq<Option<Event>>)
    ensures MapAll(arrivals + [None]) == (MapAll(arrivals).0 + [Part(Thinking(""), false, None)], MapAll(arrivals).1)
  {
    assert (arrivals + [None])[..|arrivals|] == arrivals;
  }

  lemma AppendPart(parts: seq<Part>, p: Part)
    ensures Contents(parts + [p]) == Contents(parts) + ContentOf(p)
    ensures Thoughts(parts + [p]) == Thoughts(parts) + ThoughtOf(p)
  {
    assert (parts + [p])[..|parts|] == parts;
  }

  /** One event yields at most one part. */
  lemma StepAdds(s: State, a: Option<Event>, parts: seq<Part>)
    ensures
      var more := Step(s, a).0;
      && |more| <= 1
      && Contents(parts + more) == Contents(parts) + (if more == [] then "" else ContentOf(more[0]))
      && Thoughts(parts + more) == Thoughts(parts) + (if more == [] then "" else ThoughtOf(more[0]))
  {
    var more := Step(s, a).0;
    if more == [] {
      assert parts + more == parts;
    } else {
      assert more == [more[0]];
      AppendPart(parts, more[0]);
    }
  }

  // ---------- Content ----------

  /** An event that is shown as content by itself. */
  predicate Shown(a: Option<Event>) {
    a.Some? && (a.value.Token? || a.value.MessageEnd? || a.value.Notice?)
  }

  /** A note to the reader: a notice, or the closing note of a failed or unfinished turn. */
  function NoteOf(e: Event): Option<string> {
    match e
    case Notice(text) => Some(text + BREAK)
    case Error(_, message) => Some(ErrorNote(message))
    case Timeout => Some(TIMED_OUT)
    case _ => None
  }

  predicate AnyShown(arrivals: seq<Option<Event>>) {
    exists a :: a in arrivals && Shown(a)
  }

  lemma AnyShownMore(arrivals: seq<Option<Event>>, a: Option<Event>)
    ensures AnyShown(arrivals + [a]) <==> AnyShown(arrivals) || Shown(a)
  {
    if AnyShown(arrivals) {
      var x :| x in arrivals && Shown(x);
      assert x in arrivals + [a];
    }
    if Shown(a) { assert a in arrivals + [a]; }
  }

  ghost predicate Unclosed(parts: seq<Part>) {
    forall p | p in parts :: !p.stop && p.error.None?
  }

  lemma StepContent(s: State, a: Option<Event>)
    requires !Closes(a) && !s.finished
    ensures
      var (more, t) := Step(s, a);
      && !t.finished
      && (t.contentSent <==> s.contentSent || Shown(a))
      && (!t.contentSent && more != [] ==> ContentOf(more[0]) == "")
      && Unclosed(more)
  {
  }

  /** Content has gone out exactly when some event was shown as content: a retry by itself is never
      seen. Until then the answer is empty; and until the turn closes nothing stops it. */
  lemma {:induction false} ContentSentExactly(arrivals: seq<Option<Event>>)
    requires Open(arrivals)
    ensures
      var (parts, s) := MapAll(arrivals);
      && !s.finished
      && (s.contentSent <==> AnyShown(arrivals))
      && (!s.contentSent ==> Contents(parts) == "")
      && Unclosed(parts)
  {
    if arrivals != [] {
      var init, last := arrivals[..|arrivals| - 1], arrivals[|arrivals| - 1];
      assert arrivals == init + [last];
      ContentSentExactly(init);
      AnyShownMore(init, last);
      var before := MapAll(init);
      StepContent(before.1, last);
      StepAdds(before.1, last, before.0);
    }
  }

  lemma StepNote(s: State, e: Event)
    ensures
      var more := MapEvent(s, e).0;
      && (e.Reset? ==> if s.contentSent then |more| == 1 && ContentOf(more[0]) == RETRYING else more == [])
      && (NoteOf(e).Some? ==> |more| == 1 && ContentOf(more[0]) == Gap(s) + NoteOf(e).value)
  {
    if e.Notice? { Regroup(Gap(s), e.text, BREAK); }
  }

  lemma Regroup(x: string, y: string, z: string)
    ensures x + (y + z) == x + y + z
  {
  }

  /** A retried model call leaves no trace in an answer of which nothing was shown, and a marked one
      otherwise; every note is a paragraph of its own. */
  lemma NotesStandAlone(arrivals: seq<Option<Event>>, e: Event)
    requires Open(arrivals)
    ensures
      var before := MapAll(arrivals);
      var shown := Contents(before.0);
      var after := Contents(before.0 + MapEvent(before.1, e).0);
      var some := AnyShown(arrivals);
      && (!some ==> shown == "")
      && (e.Reset? ==> after == shown + if some then RETRYING else "")
      && (NoteOf(e).Some? ==> after == shown + (if some then BREAK else "") + NoteOf(e).value)
  {
    ContentSentExactly(arrivals);
    var before := MapAll(arrivals);
    StepAdds(before.1, Some(e), before.0);
    StepNote(before.1, e);
    if NoteOf(e).Some? { Regroup(Contents(before.0), Gap(before.1), NoteOf(e).value); }
  }

  /** The answer's text, from the events alone: each token, a paragraph break at a message's end, the
      retry note once anything was shown, and every notice a paragraph of its own. */
  function Told(arrivals: seq<Option<Event>>): string {
    if arrivals == [] then ""
    else
      var init := arrivals[..|arrivals| - 1];
      match arrivals[|arrivals| - 1]
      case Some(Token(text)) => Told(init) + text
      case Some(MessageEnd) => Told(init) + "\n\n"
      case Some(Reset) => Told(init) + if AnyShown(init) then RETRYING else ""
      case Some(Notice(text)) => Told(init) + (if AnyShown(init) then "\n\n" else "") + text + "\n\n"
      case _ => Told(init)
  }

  lemma StepTells(s: State, a: Option<Event>, some: bool, told: string)
    requires !Closes(a) && (s.contentSent <==> some)
    ensures
      var more := Step(s, a).0;
      told + (if more == [] then "" else ContentOf(more[0])) ==
        match a
        case Some(Token(text)) => told + text
        case Some(MessageEnd) => told + "\n\n"
        case Some(Reset) => told + if some then RETRYING else ""
        case Some(Notice(text)) => told + (if some then "\n\n" else "") + text + "\n\n"
        case _ => told
  {
    assert told + "" == told;
    if a.Some? && a.value.Notice? {
      Regroup(Gap(s), a.value.text, BREAK);
      Regroup(told, Gap(s), a.value.text + BREAK);
      Regroup(told + Gap(s), a.value.text, BREAK);
    }
  }

  /** What is sent as content is exactly that text. */
  lemma {:induction false} ContentIsTold(arrivals: seq<Option<Event>>)
    requires Open(arrivals)
    ensures Contents(MapAll(arrivals).0) == Told(arrivals)
  {
    if arrivals != [] {
      var init, last := arrivals[..|arrivals| - 1], arrivals[|arrivals| - 1];
      assert arrivals == init + [last];
      ContentIsTold(init);
      ContentSentExactly(init);
      var before := MapAll(init);
      StepAdds(before.1, last, before.0);
      StepTells(before.1, last, AnyShown(init), Told(init));
    }
  }

  // ---------- Reasoning ----------

  predicate AtLineStart(s: string) { s == "" || EndsLine(s) }

  ghost predicate NoEmptyReasoning(arrivals: seq<Option<Event>>) {
    forall a | a in arrivals && a.Some? && a.value.Reasoning? :: a.value.text != ""
  }

  lemma EndOfSum(x: string, y: string)
    ensures EndsLine(x + y) == if y == "" then EndsLine(x) else EndsLine(y)
  {
    if y == "" { assert x + y == x; }
  }

  lemma StepThought(s: State, a: Option<Event>)
    requires !Closes(a)
    ensures
      var (more, t) := Step(s, a);
      var d := if more == [] then "" else ThoughtOf(more[0]);
      if a.Some? && a.value.Reasoning? then d == a.value.text && t.midThought == !EndsLine(d)
      else if a.Some? && a.value.DeskLine? then EndsLine(d) && !t.midThought
      else d == "" && t.midThought == s.midThought
  {
  }

  /** The flag errs on the safe side: while it is down the reasoning stands at the start of a line.
      With no empty reasoning events it says exactly that. */
  lemma {:induction false} MidThoughtTells(arrivals: seq<Option<Event>>)
    requires Open(arrivals)
    ensures
      var (parts, s) := MapAll(arrivals);
      && (!s.midThought ==> AtLineStart(Thoughts(parts)))
      && (NoEmptyReasoning(arrivals) && AtLineStart(Thoughts(parts)) ==> !s.midThought)
  {
    if arrivals != [] {
      var init, last := arrivals[..|arrivals| - 1], arrivals[|arrivals| - 1];
      assert arrivals == init + [last];
      MidThoughtTells(init);
      var before := MapAll(init);
      var more := Step(before.1, last).0;
      StepAdds(before.1, last, before.0);
      StepThought(before.1, last);
      EndOfSum(Thoughts(before.0), if more == [] then "" else ThoughtOf(more[0]));
      if NoEmptyReasoning(arrivals) {
        assert last in arrivals;
        assert NoEmptyReasoning(init);
      }
    }
  }

  lemma MapsOn(arrivals: seq<Option<Event>>, k: nat)
    requires k < |arrivals|
    ensures
      var before := MapAll(arrivals[..k]);
      var step := Step(before.1, arrivals[k]);
      MapAll(arrivals[..k + 1]) == (before.0 + step.0, step.1)
  {
    assert arrivals[..k + 1][..k] == arrivals[..k];
  }

  lemma {:induction false} ThoughtsGrow(arrivals: seq<Option<Event>>, n: nat)
    requires n <= |arrivals|
    ensures Thoughts(MapAll(arrivals[..n]).0) <= Thoughts(MapAll(arrivals).0)
    decreases |arrivals|
  {
    if n == |arrivals| {
      assert arrivals[..n] == arrivals;
    } else {
      var init := arrivals[..|arrivals| - 1];
      assert init[..n] == arrivals[..n];
      ThoughtsGrow(init, n);
      StepAdds(MapAll(init).1, arrivals[|arrivals| - 1], MapAll(init).0);
    }
  }

  lemma LineSent(s: State, said: string, line: string)
    requires !s.midThought ==> AtLineStart(said)
    ensures
      var more := Step(s, Some(DeskLine(line))).0;
      |more| == 1 && said + ThoughtOf(more[0]) == said + LineGap(s) + line + "\n"
    ensures AtLineStart(said + LineGap(s))
  {
    Regroup(said, LineGap(s), line);
    Regroup(said, LineGap(s) + line, "\n");
    EndOfSum(said, LineGap(s));
    if !s.midThought { assert said + "" == said; }
  }

  lemma LineArrives(arrivals: seq<Option<Event>>, k: nat, line: string)
    requires Open(arrivals) && k < |arrivals| && arrivals[k] == Some(DeskLine(line))
    ensures
      var before := MapAll(arrivals[..k]);
      var said, gap := Thoughts(before.0), LineGap(before.1);
      Thoughts(MapAll(arrivals[..k + 1]).0) == said + gap + line + "\n" && AtLineStart(said + gap)
  {
    var before := MapAll(arrivals[..k]);
    MidThoughtTells(arrivals[..k]);
    LineSent(before.1, Thoughts(before.0), line);
    StepAdds(before.1, arrivals[k], before.0);
    MapsOn(arrivals, k);
  }

  /** Every desk line starts a new line of the reasoning and ends it. */
  lemma EveryDeskLineIsItsOwn(arrivals: seq<Option<Event>>, k: nat)
    requires Open(arrivals) && k < |arrivals| && arrivals[k].Some? && arrivals[k].value.DeskLine?
    ensures
      var before := MapAll(arrivals[..k]);
      var said, gap := Thoughts(before.0), LineGap(before.1);
      && AtLineStart(said + gap)
      && said + gap + arrivals[k].value.line + "\n" <= Thoughts(MapAll(arrivals).0)
  {
    LineArrives(arrivals, k, arrivals[k].value.line);
    ThoughtsGrow(arrivals, k + 1);
  }

  /** With no empty reasoning events a line break is sent before a desk line only where the reasoning
      lacks one. */
  lemma BreaksAreNeeded(arrivals: seq<Option<Event>>)
    requires Open(arrivals) && NoEmptyReasoning(arrivals)
    ensures LineGap(MapAll(arrivals).1) == "" <==> AtLineStart(Thoughts(MapAll(arrivals).0))
  {
    MidThoughtTells(arrivals);
  }

  /** The last event that said anything as reasoning, or could have. */
  function LastThought(arrivals: seq<Option<Event>>): Option<Event> {
    if arrivals == [] then None
    else
      var last := arrivals[|arrivals| - 1];
      if last.Some? && (last.value.Reasoning? || last.value.DeskLine?) then last
      else LastThought(arrivals[..|arrivals| - 1])
  }

  lemma {:induction false} LastThoughtTells(arrivals: seq<Option<Event>>)
    requires Open(arrivals)
    ensures
      var (parts, s), last := MapAll(arrivals), LastThought(arrivals);
      && (s.midThought <==> last.Some? && last.value.Reasoning? && !EndsLine(last.value.text))
      && (last.Some? && last.value.Reasoning? && last.value.text != "" ==>
            Thoughts(parts) != "" && EndsLine(Thoughts(parts)) == EndsLine(last.value.text))
  {
    if arrivals != [] {
      var init, last := arrivals[..|arrivals| - 1], arrivals[|arrivals| - 1];
      assert arrivals == init + [last];
      LastThoughtTells(init);
      var before := MapAll(init);
      var more := Step(before.1, last).0;
      StepAdds(before.1, last, before.0);
      StepThought(before.1, last);
      EndOfSum(Thoughts(before.0), if more == [] then "" else ThoughtOf(more[0]));
    }
  }

  /** The reasoning, from the events alone: each as it came, and every desk line on a line of its own,
      after a line break when the last reasoning did not end its line. */
  function Mused(arrivals: seq<Option<Event>>): string {
    if arrivals == [] then ""
    else
      var init := arrivals[..|arrivals| - 1];
      match arrivals[|arrivals| - 1]
      case Some(Reasoning(text)) => Mused(init) + text
      case Some(DeskLine(line)) => Mused(init) + (if MidLine(LastThought(init)) then "\n" else "") + line + "\n"
      case _ => Mused(init)
  }

  predicate MidLine(last: Option<Event>) {
    last.Some? && last.value.Reasoning? && (last.value.text == "" || last.value.text[|last.value.text| - 1] != '\n')
  }

  lemma StepMuses(s: State, a: Option<Event>, mused: string)
    requires !Closes(a)
    ensures
      var more := Step(s, a).0;
      mused + (if more == [] then "" else ThoughtOf(more[0])) ==
        match a
        case Some(Reasoning(text)) => mused + text
        case Some(DeskLine(line)) => mused + (if s.midThought then "\n" else "") + line + "\n"
        case _ => mused
  {
    assert mused + "" == mused;
    if a.Some? && a.value.DeskLine? {
      Regroup(LineGap(s), a.value.line, "\n");
      Regroup(mused, LineGap(s), a.value.line + "\n");
      Regroup(mused + LineGap(s), a.value.line, "\n");
    }
  }

  /** What is sent as reasoning is exactly that. */
  lemma {:induction false} ThoughtsAreMused(arrivals: seq<Option<Event>>)
    requires Open(arrivals)
    ensures Thoughts(MapAll(arrivals).0) == Mused(arrivals)
  {
    if arrivals != [] {
      var init, last := arrivals[..|arrivals| - 1], arrivals[|arrivals| - 1];
      assert arrivals == init + [last];
      ThoughtsAreMused(init);
      LastThoughtTells(init);
      var before := MapAll(init);
      var more := Step(before.1, last).0;
      StepAdds(before.1, last, before.0);
      StepMuses(before.1, last, Mused(init));
    }
  }

  /** A break is sent that was not needed exactly when the last such event was an empty reasoning one
      and the reasoning stood at a line start. */
  lemma NeedlessBreakExactly(arrivals: seq<Option<Event>>)
    requires Open(arrivals)
    ensures
      var (parts, s) := MapAll(arrivals);
      LineGap(s) != "" && AtLineStart(Thoughts(parts))
      <==> LastThought(arrivals) == Some(Reasoning("")) && AtLineStart(Thoughts(parts))
  {
    LastThoughtTells(arrivals);
  }
}
