/** A job's events as an OpenAI answer, streamed or waited for
    (services/api/src/api/openai/stream.py), and the recording of what was answered. */
module AnswerStream {
  import ChatRelay
  import opened Chunks
  import Digests
  import Redact
  import opened Sequences
  import opened Wrappers

  /** What the generator does: it yields a part, or starts the recording of the answer. */
  datatype Action = Yield(part: Part) | Record(text: string, done: bool)

  const LOST := Error("JOB_LOST", "its record expired before it finished; ask again")

  /** How many arrivals come before the one that closes the turn. */
  function OpenCount(arrivals: seq<Option<Event>>): (n: nat)
    ensures n <= |arrivals| && Open(arrivals[..n])
    ensures forall k | 0 <= k < n :: !Closes(arrivals[k])
    ensures n < |arrivals| ==> Closes(arrivals[n])
  {
    if arrivals == [] || Closes(arrivals[0]) then 0
    else
      var n := OpenCount(arrivals[1..]);
      assert arrivals[..n + 1] == [arrivals[0]] + arrivals[1..][..n];
      n + 1
  }

  /** The event the answer closes on: the job's own, else what the end of the read stands for. */
  function Outcome(arrivals: seq<Option<Event>>, gone: bool): (e: Event)
    ensures Closes(Some(e))
  {
    var n := OpenCount(arrivals);
    if n < |arrivals| then arrivals[n].value else if gone then LOST else Timeout
  }

  /** The parts of `n` arrivals, after the role delta. */
  function Before(behind: bool, arrivals: seq<Option<Event>>): seq<Part> {
    (if behind then [WAITING] else []) + MapAll(arrivals).0
  }

  function Closing(arrivals: seq<Option<Event>>, gone: bool): Part {
    MapEvent(MapAll(arrivals[..OpenCount(arrivals)]).1, Outcome(arrivals, gone)).0[0]
  }

  function AllParts(behind: bool, arrivals: seq<Option<Event>>, gone: bool): seq<Part> {
    Before(behind, arrivals[..OpenCount(arrivals)]) + [Closing(arrivals, gone)]
  }

  function Yields(parts: seq<Part>): (r: seq<Action>)
    ensures |r| == |parts| && forall k | 0 <= k < |r| :: r[k] == Yield(parts[k])
  {
    seq(|parts|, k requires 0 <= k < |parts| => Yield(parts[k]))
  }

  lemma YieldsOne(p: Part)
    ensures Yields([p]) == [Yield(p)]
  {
  }

  lemma YieldsMore(x: seq<Part>, y: seq<Part>)
    ensures Yields(x + y) == Yields(x) + Yields(y)
  {
  }

  lemma WaitingSaysNothing(behind: bool, arrivals: seq<Option<Event>>)
    ensures Contents(Before(behind, arrivals)) == Contents(MapAll(arrivals).0)
  {
    if behind {
      ContentsAfter(WAITING, MapAll(arrivals).0);
    } else {
      assert Before(behind, arrivals) == MapAll(arrivals).0;
    }
  }

  lemma {:induction false} ContentsAfter(p: Part, parts: seq<Part>)
    requires ContentOf(p) == ""
    ensures Contents([p] + parts) == Contents(parts)
    decreases |parts|
  {
    if parts == [] {
      AppendPart([], p);
      assert [] + [p] == [p] + parts;
    } else {
      var init, last := parts[..|parts| - 1], parts[|parts| - 1];
      ContentsAfter(p, init);
      assert [p] + parts == ([p] + init) + [last];
      AppendPart([p] + init, last);
    }
  }

  function ContentOfAll(parts: seq<Part>): string
    requires |parts| <= 1
  {
    if parts == [] then "" else ContentOf(parts[0])
  }

  lemma NextArrival(behind: bool, arrivals: seq<Option<Event>>, k: nat)
    requires k < |arrivals|
    ensures
      var s := MapAll(arrivals[..k]).1;
      var (more, t) := Step(s, arrivals[k]);
      && |more| <= 1
      && MapAll(arrivals[..k + 1]).1 == t
      && Yields(Before(behind, arrivals[..k + 1])) == Yields(Before(behind, arrivals[..k])) + Yields(more)
      && Contents(MapAll(arrivals[..k + 1]).0) == Contents(MapAll(arrivals[..k]).0) + ContentOfAll(more)
  {
    MapsOn(arrivals, k);
    var before := MapAll(arrivals[..k]);
    var more := Step(before.1, arrivals[k]).0;
    StepAdds(before.1, arrivals[k], before.0);
    BeforeMore(behind, arrivals, k);
    YieldsMore(Before(behind, arrivals[..k]), more);
  }

  lemma BeforeMore(behind: bool, arrivals: seq<Option<Event>>, k: nat)
    requires k < |arrivals|
    requires MapAll(arrivals[..k + 1]).0 == MapAll(arrivals[..k]).0 + Step(MapAll(arrivals[..k]).1, arrivals[k]).0
    ensures Before(behind, arrivals[..k + 1])
      == Before(behind, arrivals[..k]) + Step(MapAll(arrivals[..k]).1, arrivals[k]).0
  {
    var before := MapAll(arrivals[..k]);
    RegroupParts(if behind then [WAITING] else [], before.0, Step(before.1, arrivals[k]).0);
  }

  lemma RegroupParts(x: seq<Part>, y: seq<Part>, z: seq<Part>)
    ensures x + (y + z) == x + y + z
  {
  }

  lemma OpenSoFar(arrivals: seq<Option<Event>>, k: nat)
    requires k <= |arrivals| && (forall i | 0 <= i < k :: !Closes(arrivals[i]))
    ensures k <= OpenCount(arrivals)
    ensures (k == |arrivals| || Closes(arrivals[k])) ==> OpenCount(arrivals) == k
  {
  }

  lemma ClosingStep(s: State, e: Event)
    requires Closes(Some(e))
    ensures
      var (more, t) := MapEvent(s, e);
      && t.finished && |more| == 1 && more[0].stop
      && more[0].error == if e.Error? then Some(Failure(ErrorNote(e.message), e.code)) else None
  {
  }

  lemma Closed(behind: bool, arrivals: seq<Option<Event>>, gone: bool)
    ensures
      var before := MapAll(arrivals[..OpenCount(arrivals)]);
      var e := Outcome(arrivals, gone);
      var (more, t) := MapEvent(before.1, e);
      var last := Closing(arrivals, gone);
      && more == [last] && t.finished && last.stop
      && last.error == (if e.Error? then Some(Failure(ErrorNote(e.message), e.code)) else None)
      && Contents(AllParts(behind, arrivals, gone)) == Contents(before.0) + ContentOf(last)
  {
    var open := arrivals[..OpenCount(arrivals)];
    ClosingStep(MapAll(open).1, Outcome(arrivals, gone));
    WaitingSaysNothing(behind, open);
    AppendPart(Before(behind, open), Closing(arrivals, gone));
  }

  /** The whole run of the generator. */
  function Trace(behind: bool, arrivals: seq<Option<Event>>, gone: bool): seq<Action> {
    Yields(Before(behind, arrivals[..OpenCount(arrivals)]))
    + [Record(Contents(AllParts(behind, arrivals, gone)), Outcome(arrivals, gone).Done?)]
    + [Yield(Closing(arrivals, gone))]
  }

  lemma TraceCloses(behind: bool, arrivals: seq<Option<Event>>, gone: bool)
    ensures
      var open := arrivals[..OpenCount(arrivals)];
      var (more, t) := MapEvent(MapAll(open).1, Outcome(arrivals, gone));
      && |more| == 1 && t.finished
      && Trace(behind, arrivals, gone) == Yields(Before(behind, open))
        + [Record(Contents(MapAll(open).0) + ContentOfAll(more), Outcome(arrivals, gone).Done?)] + Yields(more)
  {
    Closed(behind, arrivals, gone);
    YieldsOne(Closing(arrivals, gone));
  }

  /** What the loop has done after `n` arrivals. */
  ghost predicate SoFar(behind: bool, arrivals: seq<Option<Event>>, n: nat, s: State,
                        sent: string, trace: seq<Action>) {
    && n <= OpenCount(arrivals)
    && trace == Yields(Before(behind, arrivals[..n]))
    && s == MapAll(arrivals[..n]).1
    && sent == Contents(MapAll(arrivals[..n]).0)
  }

  lemma PrefixOpen(arrivals: seq<Option<Event>>, n: nat)
    requires n <= OpenCount(arrivals)
    ensures Open(arrivals[..n])
  {
  }

  lemma StillOpen(arrivals: seq<Option<Event>>, n: nat)
    requires n < |arrivals| && Open(arrivals[..n]) && !Closes(arrivals[n])
    ensures !Step(MapAll(arrivals[..n]).1, arrivals[n]).1.finished
  {
    ContentSentExactly(arrivals[..n]);
    StepContent(MapAll(arrivals[..n]).1, arrivals[n]);
  }

  lemma OnePartEach(s: State, a: Option<Event>)
    ensures |Step(s, a).0| <= 1
  {
  }

  /** State, content sent and actions after one more arrival. */
  ghost function Taken(a: Option<Event>, s: State, sent: string, trace: seq<Action>): (State, string, seq<Action>) {
    OnePartEach(s, a);
    var (more, t) := Step(s, a);
    var text := sent + ContentOfAll(more);
    (t, text, trace + (if t.finished then [Record(text, a.Some? && a.value.Done?)] else []) + Yields(more))
  }

  lemma OneMore(behind: bool, arrivals: seq<Option<Event>>, n: nat, s: State, sent: string, trace: seq<Action>)
    requires SoFar(behind, arrivals, n, s, sent, trace) && n < |arrivals| && !Closes(arrivals[n])
    ensures
      var (t, text, after) := Taken(arrivals[n], s, sent, trace);
      !t.finished && SoFar(behind, arrivals, n + 1, t, text, after)
  {
    NextArrival(behind, arrivals, n);
    PrefixOpen(arrivals, n);
    StillOpen(arrivals, n);
    assert trace + [] == trace;
  }

  lemma LastOne(behind: bool, arrivals: seq<Option<Event>>, gone: bool,
                n: nat, s: State, sent: string, trace: seq<Action>)
    requires SoFar(behind, arrivals, n, s, sent, trace) && (n == |arrivals| || Closes(arrivals[n]))
    ensures
      var last := if n < |arrivals| then arrivals[n] else Some(if gone then LOST else Timeout);
      var (t, text, after) := Taken(last, s, sent, trace);
      t.finished && after == Trace(behind, arrivals, gone)
  {
    OpenSoFar(arrivals, n);
    TraceCloses(behind, arrivals, gone);
  }

  lemma Opening(behind: bool, arrivals: seq<Option<Event>>)
    ensures SoFar(behind, arrivals, 0, FRESH, "", if behind then [Yield(WAITING)] else [])
  {
    assert Before(behind, []) == if behind then [WAITING] else [];
  }

  /** The loop's body: an arrival is mapped, added to what was sent, and yielded; if it closes the
      turn, the recording starts first. */
  method TakeIn(a: Option<Event>, state: State, sent: string, trace: seq<Action>)
    returns (state': State, sent': string, trace': seq<Action>)
    requires !state.finished
    ensures (state', sent', trace') == Taken(a, state, sent, trace)
  {
    OnePartEach(state, a);
    assert sent + "" == sent && trace + [] == trace;
    state', sent', trace' := state, sent, trace;
    if a.None? {
      YieldsOne(KEEPALIVE);
      trace' := trace' + [Yield(KEEPALIVE)];
    } else {
      var parts := MapEvent(state, a.value).0;
      state' := MapEvent(state, a.value).1;
      sent' := sent + ContentOfAll(parts);
      if state'.finished {
        trace' := trace' + [Record(sent', a.value.Done?)];
      }
      trace' := trace' + Yields(parts);
    }
  }

  /** `_parts`: `arrivals` is what `with_keepalive` hands on until the read ends, and `gone` whether the
      job's records are then missing. */
  method Parts(behind: bool, arrivals: seq<Option<Event>>, gone: bool) returns (trace: seq<Action>)
    ensures trace == Trace(behind, arrivals, gone)
  {
    var state, sent := FRESH, "";
    trace := if behind then [Yield(WAITING)] else [];
    Opening(behind, arrivals);
    var i := 0;
    while i < |arrivals|
      invariant 0 <= i <= |arrivals| && !state.finished
      invariant SoFar(behind, arrivals, i, state, sent, trace)
    {
      if Closes(arrivals[i]) {
        LastOne(behind, arrivals, gone, i, state, sent, trace);
      } else {
        OneMore(behind, arrivals, i, state, sent, trace);
      }
      state, sent, trace := TakeIn(arrivals[i], state, sent, trace);
      if state.finished {
        return;
      }
      i := i + 1;
    }
    LastOne(behind, arrivals, gone, i, state, sent, trace);
    state, sent, trace := TakeIn(Some(if gone then LOST else Timeout), state, sent, trace);
  }

  function PartsIn(trace: seq<Action>): seq<Part> {
    if trace == [] then []
    else PartsIn(trace[..|trace| - 1]) + if trace[|trace| - 1].Yield? then [trace[|trace| - 1].part] else []
  }

  lemma {:induction false} PartsYielded(parts: seq<Part>)
    ensures PartsIn(Yields(parts)) == parts
  {
    if parts != [] {
      assert Yields(parts)[..|parts| - 1] == Yields(parts[..|parts| - 1]);
      PartsYielded(parts[..|parts| - 1]);
    }
  }

  lemma PartsOfTrace(behind: bool, arrivals: seq<Option<Event>>, gone: bool)
    ensures PartsIn(Trace(behind, arrivals, gone)) == AllParts(behind, arrivals, gone)
  {
    var t := Trace(behind, arrivals, gone);
    var before := Before(behind, arrivals[..OpenCount(arrivals)]);
    PartsYielded(before);
    var recorded := Yields(before) + [t[|t| - 2]];
    assert recorded[..|before|] == Yields(before);
    assert t[..|t| - 1] == recorded;
    assert PartsIn(recorded) == before + [];
  }

  lemma BeforeUnclosed(behind: bool, arrivals: seq<Option<Event>>)
    requires Open(arrivals)
    ensures Unclosed(Before(behind, arrivals))
  {
    ContentSentExactly(arrivals);
  }

  /** Whatever arrives and however the read ends, the parts have one finish reason, on the last of
      them; the answer is recorded once, just before it, so a client that hangs up at the finish
      reason leaves it recorded, and what is recorded is what all content deltas spell. */
  lemma StoppedAndRecordedOnce(behind: bool, arrivals: seq<Option<Event>>, gone: bool)
    ensures
      var t := Trace(behind, arrivals, gone);
      var n := |t|;
      && n >= 2 && t[n - 1].Yield? && t[n - 1].part.stop
      && t[n - 2] == Record(Contents(PartsIn(t)), Outcome(arrivals, gone).Done?)
      && (t[n - 1].part.error.Some? <==> Outcome(arrivals, gone).Error?)
      && forall k | 0 <= k < n - 2 :: t[k].Yield? && !t[k].part.stop && t[k].part.error.None?
  {
    Closed(behind, arrivals, gone);
    PartsOfTrace(behind, arrivals, gone);
    var t := Trace(behind, arrivals, gone);
    var before := Before(behind, arrivals[..OpenCount(arrivals)]);
    BeforeUnclosed(behind, arrivals[..OpenCount(arrivals)]);
    forall k | 0 <= k < |t| - 2 ensures t[k].Yield? && !t[k].part.stop && t[k].part.error.None? {
      assert before[k] in before;
    }
  }

  // ---------- What is answered, from the arrivals alone ----------

  /** Why the turn failed, if it did: the error it closes on, or that its records are gone. */
  function Failing(arrivals: seq<Option<Event>>, gone: bool): Option<Failure> {
    var n := OpenCount(arrivals);
    if n == |arrivals| then
      if gone then Some(Failure(ErrorNote("its record expired before it finished; ask again"), "JOB_LOST")) else None
    else
      match arrivals[n]
      case Some(Error(code, message)) => Some(Failure(ErrorNote(message), code))
      case _ => None
  }

  /** The closing note: of the failure, or that the turn is not finished; nothing after `done`. */
  function Note(arrivals: seq<Option<Event>>, gone: bool): string {
    var n := OpenCount(arrivals);
    if Failing(arrivals, gone).Some? then Failing(arrivals, gone).value.message
    else if n < |arrivals| && arrivals[n] == Some(Done) then ""
    else TIMED_OUT
  }

  /** The answer: what the events before the closing one tell, and the note, a paragraph of its own. */
  function WholeContent(arrivals: seq<Option<Event>>, gone: bool): string {
    var open := arrivals[..OpenCount(arrivals)];
    Told(open) + (if AnyShown(open) && Note(arrivals, gone) != "" then "\n\n" else "") + Note(arrivals, gone)
  }

  function WholeReasoning(behind: bool, arrivals: seq<Option<Event>>): string {
    (if behind then WAITING_NOTE else "") + Mused(arrivals[..OpenCount(arrivals)])
  }

  lemma OutcomeNotes(arrivals: seq<Option<Event>>, gone: bool)
    ensures
      var failing, note := Failing(arrivals, gone), Note(arrivals, gone);
      match Outcome(arrivals, gone)
      case Error(code, message) => failing == Some(Failure(ErrorNote(message), code)) && note == ErrorNote(message)
      case Timeout => failing.None? && note == TIMED_OUT
      case _ => failing.None? && note == ""
    ensures Outcome(arrivals, gone).Done? <==>
      OpenCount(arrivals) < |arrivals| && arrivals[OpenCount(arrivals)] == Some(Done)
  {
  }

  lemma ClosingSays(s: State, e: Event, note: string)
    requires Closes(Some(e)) && (e.Done? ==> note == "")
    requires (e.Error? ==> note == ErrorNote(e.message)) && (e.Timeout? ==> note == TIMED_OUT)
    ensures MapEvent(s, e).0 != []
    ensures ContentOf(MapEvent(s, e).0[0]) == (if s.contentSent && note != "" then "\n\n" else "") + note
  {
    assert "" + note == note;
    if e.Error? { assert |ErrorNote(e.message)| > 0; }
    if e.Timeout? { assert |TIMED_OUT| > 0; }
  }

  lemma ClosingNote(arrivals: seq<Option<Event>>, gone: bool)
    ensures
      var open, note := arrivals[..OpenCount(arrivals)], Note(arrivals, gone);
      ContentOf(Closing(arrivals, gone)) == (if AnyShown(open) && note != "" then "\n\n" else "") + note
    ensures Closing(arrivals, gone).error == Failing(arrivals, gone)
  {
    var s := MapAll(arrivals[..OpenCount(arrivals)]).1;
    ContentSentExactly(arrivals[..OpenCount(arrivals)]);
    OutcomeNotes(arrivals, gone);
    ClosingStep(s, Outcome(arrivals, gone));
    ClosingSays(s, Outcome(arrivals, gone), Note(arrivals, gone));
  }

  /** The content and the reasoning of all parts are what the arrivals tell. */
  lemma PartsAreTold(behind: bool, arrivals: seq<Option<Event>>, gone: bool)
    ensures Contents(AllParts(behind, arrivals, gone)) == WholeContent(arrivals, gone)
    ensures Thoughts(AllParts(behind, arrivals, gone)) == WholeReasoning(behind, arrivals)
  {
    var open, note := arrivals[..OpenCount(arrivals)], Note(arrivals, gone);
    ContentIsTold(open);
    ThoughtsAreMused(open);
    ClosingNote(arrivals, gone);
    Closed(behind, arrivals, gone);
    ThoughtsOfAll(behind, arrivals, gone);
    Regroup(Told(open), if AnyShown(open) && note != "" then "\n\n" else "", note);
  }

  /** What is streamed, and recorded, is the answer that the arrivals tell; it is recorded as done exactly
      when `done` closes it. */
  lemma AnswerIsTold(behind: bool, arrivals: seq<Option<Event>>, gone: bool)
    ensures
      var parts, t, n := AllParts(behind, arrivals, gone), Trace(behind, arrivals, gone), OpenCount(arrivals);
      && Contents(parts) == WholeContent(arrivals, gone) && Thoughts(parts) == WholeReasoning(behind, arrivals)
      && parts[|parts| - 1].error == Failing(arrivals, gone)
      && t[|t| - 2] == Record(WholeContent(arrivals, gone), n < |arrivals| && arrivals[n] == Some(Done))
  {
    PartsAreTold(behind, arrivals, gone);
    ClosingNote(arrivals, gone);
    OutcomeNotes(arrivals, gone);
  }

  // ---------- The frames of a stream ----------

  /** A server-sent event: a chunk of the answer, or `[DONE]`. */
  datatype Frame = Chunk(part: Part) | DoneFrame

  function Framed(parts: seq<Part>): (r: seq<Frame>)
    ensures |r| == |parts| && forall k | 0 <= k < |r| :: r[k] == Chunk(parts[k])
  {
    seq(|parts|, k requires 0 <= k < |parts| => Chunk(parts[k]))
  }

  /** The frames for what the first `i` actions yield. */
  function FramesFor(trace: seq<Action>, i: nat): seq<Frame>
    requires i <= |trace|
  {
    [Chunk(ROLE)] + Framed(PartsIn(trace[..i]))
  }

  lemma FramesOneMore(trace: seq<Action>, i: nat)
    requires i < |trace|
    ensures FramesFor(trace, i + 1)
      == if trace[i].Yield? then FramesFor(trace, i) + [Chunk(trace[i].part)] else FramesFor(trace, i)
  {
    assert trace[..i + 1][..i] == trace[..i];
    var parts := PartsIn(trace[..i]);
    if trace[i].Yield? {
      assert Framed(parts + [trace[i].part]) == Framed(parts) + [Chunk(trace[i].part)];
    } else {
      assert parts + [] == parts;
    }
  }

  lemma AllFrames(behind: bool, arrivals: seq<Option<Event>>, gone: bool, trace: seq<Action>)
    requires trace == Trace(behind, arrivals, gone)
    ensures FramesFor(trace, |trace|) + [DoneFrame] == FramesOf(AllParts(behind, arrivals, gone))
    ensures FramesFor(trace, 0) == [Chunk(ROLE)]
  {
    assert trace[..|trace|] == trace && trace[..0] == [];
    PartsOfTrace(behind, arrivals, gone);
  }

  /** Of all parts the last one alone has a finish reason. */
  lemma LastStops(behind: bool, arrivals: seq<Option<Event>>, gone: bool)
    ensures
      var parts := AllParts(behind, arrivals, gone);
      parts != [] && forall k | 0 <= k < |parts| :: parts[k].stop <==> k == |parts| - 1
  {
    Closed(behind, arrivals, gone);
    var before := Before(behind, arrivals[..OpenCount(arrivals)]);
    BeforeUnclosed(behind, arrivals[..OpenCount(arrivals)]);
    assert forall k | 0 <= k < |before| :: before[k] in before;
  }

  function FramesOf(parts: seq<Part>): seq<Frame> {
    [Chunk(ROLE)] + Framed(parts) + [DoneFrame]
  }

  lemma OneStops(parts: seq<Part>)
    requires parts != [] && forall k | 0 <= k < |parts| :: parts[k].stop <==> k == |parts| - 1
    ensures
      var frames := FramesOf(parts);
      forall k | 0 <= k < |frames| :: (frames[k].Chunk? && frames[k].part.stop) <==> k == |frames| - 2
  {
    var frames := FramesOf(parts);
    assert |frames| == |parts| + 2 && frames[0] == Chunk(ROLE) && frames[|parts| + 1] == DoneFrame;
    forall k | 0 < k <= |parts| ensures frames[k] == Chunk(parts[k - 1]) {
    }
  }

  /** `stream`: the role first, then every part, then `[DONE]`; one finish reason, right before it. */
  method Stream(behind: bool, arrivals: seq<Option<Event>>, gone: bool) returns (frames: seq<Frame>)
    ensures frames == [Chunk(ROLE)] + Framed(AllParts(behind, arrivals, gone)) + [DoneFrame]
    ensures forall k | 0 <= k < |frames| :: (frames[k].Chunk? && frames[k].part.stop) <==> k == |frames| - 2
  {
    frames := [Chunk(ROLE)];
    var trace := Parts(behind, arrivals, gone);
    AllFrames(behind, arrivals, gone, trace);
    for i := 0 to |trace|
      invariant frames == FramesFor(trace, i)
    {
      FramesOneMore(trace, i);
      if trace[i].Yield? {
        frames := frames + [Chunk(trace[i].part)];
      }
    }
    LastStops(behind, arrivals, gone);
    OneStops(AllParts(behind, arrivals, gone));
    frames := frames + [DoneFrame];
  }

  // ---------- Desk lines ----------

  /** The reasoning of the whole answer is that of the events, after the waiting line of a queued turn. */
  lemma {:induction false} ThoughtsAfter(p: Part, parts: seq<Part>)
    ensures Thoughts([p] + parts) == ThoughtOf(p) + Thoughts(parts)
    decreases |parts|
  {
    if parts == [] {
      AppendPart([], p);
      assert [] + [p] == [p] + parts;
    } else {
      var init, last := parts[..|parts| - 1], parts[|parts| - 1];
      ThoughtsAfter(p, init);
      assert [p] + parts == ([p] + init) + [last];
      AppendPart([p] + init, last);
      Regroup(ThoughtOf(p), Thoughts(init), ThoughtOf(last));
    }
  }

  /** What a queued turn says before anything else. */
  function Opener(behind: bool): string { if behind then WAITING_NOTE else "" }

  lemma ThoughtsOfAll(behind: bool, arrivals: seq<Option<Event>>, gone: bool)
    ensures Thoughts(AllParts(behind, arrivals, gone))
      == Opener(behind) + Thoughts(MapAll(arrivals[..OpenCount(arrivals)]).0)
  {
    var open := arrivals[..OpenCount(arrivals)];
    AppendPart(Before(behind, open), Closing(arrivals, gone));
    ClosingStep(MapAll(open).1, Outcome(arrivals, gone));
    ClosingIsNoThought(MapAll(open).1, Outcome(arrivals, gone));
    if behind {
      ThoughtsAfter(WAITING, MapAll(open).0);
    } else {
      assert [] + MapAll(open).0 == MapAll(open).0;
    }
  }

  lemma ClosingIsNoThought(s: State, e: Event)
    requires Closes(Some(e))
    ensures MapEvent(s, e).0 != [] && ThoughtOf(MapEvent(s, e).0[0]) == ""
  {
  }

  /** What a client reads as reasoning before the desk line at `k`. */
  function SaidBefore(behind: bool, arrivals: seq<Option<Event>>, k: nat): string
    requires k <= |arrivals|
  {
    Opener(behind) + Thoughts(MapAll(arrivals[..k]).0) + LineGap(MapAll(arrivals[..k]).1)
  }

  /** Every desk line of an answer, queued behind another turn or not, starts a new line of its
      reasoning and ends it. */
  lemma EveryDeskLineStandsAlone(behind: bool, arrivals: seq<Option<Event>>, gone: bool, k: nat)
    requires k < OpenCount(arrivals) && arrivals[k].Some? && arrivals[k].value.DeskLine?
    ensures
      var said := SaidBefore(behind, arrivals, k);
      && AtLineStart(said)
      && said + arrivals[k].value.line + "\n" <= Thoughts(AllParts(behind, arrivals, gone))
  {
    var open := arrivals[..OpenCount(arrivals)];
    assert open[..k] == arrivals[..k] && open[k] == arrivals[k];
    EveryDeskLineIsItsOwn(open, k);
    ThoughtsOfAll(behind, arrivals, gone);
    LineAfterOpener(Opener(behind), Thoughts(MapAll(arrivals[..k]).0), LineGap(MapAll(arrivals[..k]).1),
                    arrivals[k].value.line, Thoughts(MapAll(open).0));
  }

  lemma LineAfterOpener(opener: string, said: string, gap: string, line: string, all: string)
    requires AtLineStart(opener) && AtLineStart(said + gap) && said + gap + line + "\n" <= all
    ensures AtLineStart(opener + said + gap) && opener + said + gap + line + "\n" <= opener + all
  {
    Regroup(opener, said, gap);
    EndOfSum(opener, said + gap);
    assert opener + (said + gap + line + "\n") == opener + said + gap + line + "\n";
    assert opener + (said + gap + line + "\n") <= opener + all;
  }

  /** The reasoning events among the arrivals are ones a chat turn published. */
  ghost predicate LoggedBy(arrivals: seq<Option<Event>>, log: seq<ChatRelay.Event>) {
    forall a | a in arrivals && a.Some? && a.value.Reasoning? :: ChatRelay.Reasoning(a.value.text) in log
  }

  /** Of what the desk itself logs, a line break is sent before a desk line exactly where the reasoning
      lacks one. */
  lemma DeskBreaksAreNeeded(guard: Option<Redact.Guard>, parts: seq<ChatRelay.Part>, arrivals: seq<Option<Event>>)
    requires Open(arrivals)
    requires LoggedBy(arrivals, ChatRelay.Flush(ChatRelay.FeedAll(ChatRelay.Started(guard), parts)).published)
    ensures LineGap(MapAll(arrivals).1) == "" <==> AtLineStart(Thoughts(MapAll(arrivals).0))
  {
    ChatRelay.ReasoningHasText(guard, parts);
    BreaksAreNeeded(arrivals);
  }

  // ---------- Waited for ----------

  datatype Reply = Message(content: string, reasoning: string) | Failed(failure: Failure)

  /** `wait`: the whole answer at once, its content the recorded text stripped; no reasoning is the
      empty one. */
  method Wait(space: char -> bool, arrivals: seq<Option<Event>>, behind: bool, gone: bool) returns (r: Reply)
    ensures r == Answered(space, arrivals, behind, gone)
  {
    var trace := Parts(behind, arrivals, gone);
    var content, reasoning := "", "";
    var i := 0;
    while i < |trace|
      invariant 0 <= i <= |trace|
      invariant i == |trace| ==> Failing(arrivals, gone).None?
      invariant content == Contents(PartsIn(trace[..i])) && reasoning == Thoughts(PartsIn(trace[..i]))
    {
      PartsInNext(trace, i);
      FailureAtEnd(behind, arrivals, gone, i);
      if trace[i].Yield? {
        var part := trace[i].part;
        if part.error.Some? {
          return Failed(part.error.value);
        }
        content, reasoning := content + ContentOf(part), reasoning + ThoughtOf(part);
      }
      i := i + 1;
    }
    TraceIsTold(behind, arrivals, gone, trace[..i]);
    r := Message(Strip(space, content), reasoning);
  }

  /** The failure, or the content stripped and all the reasoning. */
  function Answered(space: char -> bool, arrivals: seq<Option<Event>>, behind: bool, gone: bool): Reply {
    match Failing(arrivals, gone)
    case Some(failure) => Failed(failure)
    case None => Message(Strip(space, WholeContent(arrivals, gone)), WholeReasoning(behind, arrivals))
  }

  lemma TraceIsTold(behind: bool, arrivals: seq<Option<Event>>, gone: bool, trace: seq<Action>)
    requires trace == Trace(behind, arrivals, gone)[..|Trace(behind, arrivals, gone)|]
    ensures Contents(PartsIn(trace)) == WholeContent(arrivals, gone)
    ensures Thoughts(PartsIn(trace)) == WholeReasoning(behind, arrivals)
  {
    assert trace == Trace(behind, arrivals, gone);
    PartsOfTrace(behind, arrivals, gone);
    PartsAreTold(behind, arrivals, gone);
  }

  lemma PartsInNext(trace: seq<Action>, i: nat)
    requires i < |trace|
    ensures
      var before, after := PartsIn(trace[..i]), PartsIn(trace[..i + 1]);
      && (trace[i].Record? ==> after == before)
      && (trace[i].Yield? ==> Contents(after) == Contents(before) + ContentOf(trace[i].part))
      && (trace[i].Yield? ==> Thoughts(after) == Thoughts(before) + ThoughtOf(trace[i].part))
  {
    assert trace[..i + 1][..i] == trace[..i];
    if trace[i].Yield? { AppendPart(PartsIn(trace[..i]), trace[i].part); }
  }

  lemma FailureAtEnd(behind: bool, arrivals: seq<Option<Event>>, gone: bool, i: nat)
    requires i < |Trace(behind, arrivals, gone)|
    ensures
      var t := Trace(behind, arrivals, gone);
      && (t[i].Yield? && t[i].part.error.Some? ==> t[i].part.error == Failing(arrivals, gone))
      && (i == |t| - 1 ==> t[i].Yield? && t[i].part.error == Failing(arrivals, gone))
  {
    StoppedAndRecordedOnce(behind, arrivals, gone);
    ClosingNote(arrivals, gone);
  }

  // ---------- The client's next request ----------

  /** What a client stores of the parts when it wraps every run of reasoning that content follows; and
      the run it still holds. */
  function Stash(parts: seq<Part>): (seq<Digests.Segment>, string) {
    if parts == [] then ([], "")
    else
      var (segments, run) := Stash(parts[..|parts| - 1]);
      match parts[|parts| - 1].delta
      case Content(text) =>
        (segments + (if run == "" then [] else [Digests.Reasoning(run)]) + [Digests.Content(text)], "")
      case Thinking(text) => (segments, run + text)
      case _ => (segments, run)
  }

  lemma AnswerOfOne(p: Digests.Segment)
    ensures Digests.Answer([p]) == Digests.Sent(p)
  {
    assert [p][1..] == [];
    assert Digests.Sent(p) + "" == Digests.Sent(p);
  }

  lemma {:induction false} AnswerAppends(x: seq<Digests.Segment>, p: Digests.Segment)
    ensures Digests.Answer(x + [p]) == Digests.Answer(x) + Digests.Sent(p)
    decreases |x|
  {
    if x == [] {
      assert x + [p] == [p];
      AnswerOfOne(p);
      assert "" + Digests.Sent(p) == Digests.Sent(p);
    } else {
      assert (x + [p])[0] == x[0] && (x + [p])[1..] == x[1..] + [p];
      AnswerAppends(x[1..], p);
      Regroup(Digests.Sent(x[0]), Digests.Answer(x[1..]), Digests.Sent(p));
    }
  }

  lemma {:induction false} StashKeepsContent(parts: seq<Part>)
    ensures Digests.Answer(Stash(parts).0) == Contents(parts)
  {
    if parts != [] {
      var init := parts[..|parts| - 1];
      StashKeepsContent(init);
      var (segments, run) := Stash(init);
      match parts[|parts| - 1].delta {
        case Content(text) =>
          var reasoned := segments + if run == "" then [] else [Digests.Reasoning(run)];
          if run == "" {
            assert reasoned == segments;
          } else {
            AnswerAppends(segments, Digests.Reasoning(run));
          }
          assert Digests.Answer(reasoned) == Digests.Answer(segments);
          AnswerAppends(reasoned, Digests.Content(text));
        case _ =>
      }
    }
  }

  /** The answer as such a client resends it names the same alias as the answer recorded for its
      thread, for content without `<` and reasoning without `</think>`. */
  lemma ResentAnswerIsKnown(hash: string -> string, space: char -> bool, user: string, prompt: string,
                            behind: bool, arrivals: seq<Option<Event>>, gone: bool)
    requires forall p | p in Stash(AllParts(behind, arrivals, gone)).0 :: Digests.Plain(p)
    ensures
      var t := Trace(behind, arrivals, gone);
      var resent := Digests.Stored(Stash(PartsIn(t)).0);
      t[|t| - 2].Record?
      && Digests.PairAlias(hash, space, user, prompt, resent)
          == Digests.PairAlias(hash, space, user, prompt, t[|t| - 2].text)
  {
    StoppedAndRecordedOnce(behind, arrivals, gone);
    PartsOfTrace(behind, arrivals, gone);
    var parts := AllParts(behind, arrivals, gone);
    StashKeepsContent(parts);
    Digests.StoredAnswerIsTheAnswer(space, Stash(parts).0);
  }
}
