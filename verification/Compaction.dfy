/** What the running summary covers and what the model is shown beside it
    (services/agent/src/graph/compaction.py, and the `agent` node of services/agent/src/graph/chat.py). */
module Compaction {
  import opened History
  import opened Wrappers

  const HISTORY_MESSAGES: nat := 40
  const BATCH: nat := 20
  const RESULT_CHARS: nat := 400

  // ---------- Which messages are compacted ----------

  function FirstHuman(ms: seq<Message>, i: nat): (r: nat)
    requires i <= |ms|
    ensures i <= r <= |ms| && (r < |ms| ==> ms[r].Human?)
    ensures forall k | i <= k < r :: !ms[k].Human?
    decreases |ms| - i
  {
    if i < |ms| && !ms[i].Human? then FirstHuman(ms, i + 1) else i
  }

  function WindowStart(ms: seq<Message>, window: nat): nat {
    FirstHuman(ms, if |ms| > window then |ms| - window else 0)
  }

  method FindWindowStart(ms: seq<Message>, window: nat) returns (start: nat)
    ensures start == WindowStart(ms, window)
    ensures start <= |ms| && |ms| - start <= window && (start == |ms| || ms[start].Human?)
  {
    start := if |ms| > window then |ms| - window else 0;
    while start < |ms| && !ms[start].Human?
      invariant start <= |ms| && (|ms| > window ==> |ms| - window <= start)
      invariant FirstHuman(ms, start) == WindowStart(ms, window)
    {
      start := start + 1;
    }
  }

  function Span(ms: seq<Message>, summarized: nat, window: nat): Option<(nat, nat)> {
    var end := WindowStart(ms, window);
    if end >= summarized + BATCH then Some((summarized, end)) else None
  }

  /** What is compacted is all that the summary does not cover, up to the first message of the investor
      in the window, or to the end if it holds none, once that is a whole batch. */
  lemma SpanExactly(ms: seq<Message>, summarized: nat, window: nat) returns (end: nat)
    ensures end <= |ms| && |ms| - end <= window && (end < |ms| ==> ms[end].Human?)
    ensures forall k | |ms| - window <= k < end && 0 <= k :: !ms[k].Human?
    ensures Span(ms, summarized, window) == if summarized + 20 <= end then Some((summarized, end)) else None
  {
    end := WindowStart(ms, window);
  }

  // ---------- What the flush and the summary read ----------

  datatype Line = Investor(text: string) | Desk(text: string)
    | Called(name: string) | Result(name: string, text: string)

  function Calls(calls: seq<CallRef>): seq<Line> {
    if calls == [] then [] else [Called(calls[0].name)] + Calls(calls[1..])
  }

  function LinesOf(m: Message, withResults: bool): seq<Line> {
    match m
    case Human(text) => [Investor(text)]
    case AI(text, calls, _) => (if text != "" then [Desk(text)] else []) + Calls(calls)
    case Tool(_, name, text) =>
      if withResults then
        [Result(if name == "" then "tool" else name, if |text| > RESULT_CHARS then text[..RESULT_CHARS] else text)]
      else []
  }

  function Transcript(ms: seq<Message>, withResults: bool): seq<Line> {
    if ms == [] then [] else LinesOf(ms[0], withResults) + Transcript(ms[1..], withResults)
  }

  lemma NextLines(ms: seq<Message>, withResults: bool, i: nat, lines: seq<Line>)
    requires i < |ms|
    ensures lines + LinesOf(ms[i], withResults) + Transcript(ms[i + 1..], withResults)
      == lines + Transcript(ms[i..], withResults)
  {
    TranscriptFrom(ms, withResults, i);
    Regroup(lines, LinesOf(ms[i], withResults), Transcript(ms[i + 1..], withResults));
  }

  lemma TranscriptFrom(ms: seq<Message>, withResults: bool, i: nat)
    requires i < |ms|
    ensures Transcript(ms[i..], withResults) == LinesOf(ms[i], withResults) + Transcript(ms[i + 1..], withResults)
  {
    assert ms[i..][1..] == ms[i + 1..];
  }

  lemma Regroup(x: seq<Line>, y: seq<Line>, z: seq<Line>)
    ensures x + y + z == x + (y + z)
  {
  }

  method WriteTranscript(ms: seq<Message>, withResults: bool) returns (lines: seq<Line>)
    ensures lines == Transcript(ms, withResults)
  {
    lines := [];
    var i := 0;
    assert ms[0..] == ms;
    while i < |ms|
      invariant 0 <= i <= |ms|
      invariant lines + Transcript(ms[i..], withResults) == Transcript(ms, withResults)
    {
      NextLines(ms, withResults, i, lines);
      lines := lines + LinesOf(ms[i], withResults);
      i := i + 1;
    }
    assert ms[i..] == [];
  }

  /** The texts of the lines of one kind, in order. */
  function Voices(lines: seq<Line>, investor: bool): seq<string> {
    if lines == [] then []
    else
      (match lines[0]
       case Investor(text) => if investor then [text] else []
       case Desk(text) => if investor then [] else [text]
       case _ => [])
      + Voices(lines[1..], investor)
  }

  /** What the investor wrote, or what the desk replied, in order; empty replies aside. */
  function Spoken(ms: seq<Message>, investor: bool): seq<string> {
    if ms == [] then []
    else
      (match ms[0]
       case Human(text) => if investor then [text] else []
       case AI(text, _, _) => if investor || text == "" then [] else [text]
       case Tool(_, _, _) => [])
      + Spoken(ms[1..], investor)
  }

  lemma {:induction false} VoicesOfTwo(x: seq<Line>, y: seq<Line>, investor: bool)
    ensures Voices(x + y, investor) == Voices(x, investor) + Voices(y, investor)
  {
    if x == [] {
      assert x + y == y;
    } else {
      assert (x + y)[1..] == x[1..] + y;
      VoicesOfTwo(x[1..], y, investor);
    }
  }

  lemma {:induction false} CallsAreVoiceless(calls: seq<CallRef>, investor: bool)
    ensures Voices(Calls(calls), investor) == []
  {
    if calls != [] {
      CallsAreVoiceless(calls[1..], investor);
      assert Calls(calls)[1..] == Calls(calls[1..]);
    }
  }

  lemma LineVoices(m: Message, withResults: bool, investor: bool)
    ensures Voices(LinesOf(m, withResults), investor) == Spoken([m], investor)
  {
    assert [m][1..] == [];
    match m {
      case Human(text) => assert LinesOf(m, withResults)[1..] == [];
      case AI(text, calls, _) =>
        CallsAreVoiceless(calls, investor);
        var said := if text != "" then [Desk(text)] else [];
        VoicesOfTwo(said, Calls(calls), investor);
        if text != "" { assert said[1..] == []; }
      case Tool(_, _, _) => if withResults { assert LinesOf(m, withResults)[1..] == []; }
    }
  }

  /** The transcript says who spoke: its investor lines are exactly what the investor wrote, its desk
      lines what the desk replied, each once and in order. */
  lemma {:induction false} LinesTellWhoSpoke(ms: seq<Message>, withResults: bool, investor: bool)
    ensures Voices(Transcript(ms, withResults), investor) == Spoken(ms, investor)
  {
    if ms != [] {
      LinesTellWhoSpoke(ms[1..], withResults, investor);
      LineVoices(ms[0], withResults, investor);
      VoicesOfTwo(LinesOf(ms[0], withResults), Transcript(ms[1..], withResults), investor);
      assert [ms[0]][1..] == [];
    }
  }

  /** A result is shown with its tool's name and no more than its first 400 characters, if at all. */
  lemma ResultIsCut(id: string, name: string, text: string)
    ensures LinesOf(Tool(id, name, text), false) == []
    ensures exists cut ::
      && LinesOf(Tool(id, name, text), true) == [Result(if name == "" then "tool" else name, cut)]
      && cut <= text && |cut| == if |text| <= 400 then |text| else 400
  {
    var cut := if |text| <= 400 then text else text[..400];
    assert LinesOf(Tool(id, name, text), true) == [Result(if name == "" then "tool" else name, cut)];
  }

  function WithoutTools(ms: seq<Message>): seq<Message> {
    if ms == [] then [] else (if ms[0].Tool? then [] else [ms[0]]) + WithoutTools(ms[1..])
  }

  /** What the flush reads does not depend on any tool's output. */
  lemma FlushSeesNoToolOutput(ms: seq<Message>, other: seq<Message>)
    requires WithoutTools(ms) == WithoutTools(other)
    ensures Transcript(ms, false) == Transcript(other, false)
  {
    FlushIsWithoutTools(ms);
    FlushIsWithoutTools(other);
  }

  lemma {:induction false} FlushIsWithoutTools(ms: seq<Message>)
    ensures Transcript(ms, false) == Transcript(WithoutTools(ms), false)
  {
    if ms != [] {
      FlushIsWithoutTools(ms[1..]);
      if !ms[0].Tool? {
        assert WithoutTools(ms) == [ms[0]] + WithoutTools(ms[1..]);
        assert WithoutTools(ms)[1..] == WithoutTools(ms[1..]);
      } else {
        assert WithoutTools(ms) == WithoutTools(ms[1..]);
        assert Transcript(ms, false) == Transcript(ms[1..], false);
      }
    }
  }

  // ---------- Turns ----------

  /** A thread's checkpoint, as far as the window goes. */
  datatype Thread = Thread(messages: seq<Message>, summarized: nat)

  /** A turn: the investor's message, what the graph appends to it, whether it reached its end (a
      turn that raises keeps what it appended), the final reply as the notice left it, and whether
      the flush and the summary, if called for, both succeeded. */
  datatype Turn = Turn(human: string, appended: seq<Message>, finished: bool, reply: Option<string>, compacts: bool)

  ghost predicate WellFormed(t: Turn) {
    forall m | m in t.appended :: !m.Human?
  }

  /** The notice replaces the text of the last message. */
  function Noticed(ms: seq<Message>, reply: Option<string>): seq<Message> {
    if reply.Some? && ms != [] && ms[|ms| - 1].AI? then
      ms[..|ms| - 1] + [AI(reply.value, ms[|ms| - 1].calls, ms[|ms| - 1].reasoning)]
    else ms
  }

  /** After a turn that reached its end with an AI message, the notice's text is that message's, and every
      message is otherwise kept as it was appended. */
  lemma NoticeIsKept(th: Thread, t: Turn)
    requires t.finished && t.appended != [] && t.appended[|t.appended| - 1].AI? && t.reply.Some?
    ensures
      var all, ms := th.messages + [Human(t.human)] + t.appended, Take(th, t).messages;
      var last := |all| - 1;
      && |ms| == |all| && ms[..last] == all[..last]
      && ms[last] == AI(t.reply.value, all[last].calls, all[last].reasoning)
  {
  }

  /** Without one, every message of the turn is kept as it was appended. */
  lemma TurnIsKept(th: Thread, t: Turn)
    requires !t.finished || t.reply.None?
    ensures Take(th, t).messages == th.messages + [Human(t.human)] + t.appended
  {
  }

  function Compacted(th: Thread, compacts: bool): Thread {
    match Span(th.messages, th.summarized, HISTORY_MESSAGES)
    case None => th
    case Some(span) => if compacts then th.(summarized := span.1) else th
  }

  function Take(th: Thread, t: Turn): Thread {
    var asked := th.messages + [Human(t.human)] + t.appended;
    if t.finished then Compacted(th.(messages := Noticed(asked, t.reply)), t.compacts) else th.(messages := asked)
  }

  function Play(turns: seq<Turn>): Thread {
    if turns == [] then Thread([], 0) else Take(Play(turns[..|turns| - 1]), turns[|turns| - 1])
  }

  /** What the model is shown of a thread. */
  function ShownOf(th: Thread): seq<Message>
    requires th.summarized <= |th.messages|
  {
    Recent(Answered(th.messages[th.summarized..]), HISTORY_MESSAGES + BATCH)
  }

  /** The summary ends at the start, at a message of the investor, or at the end. */
  ghost predicate AtTurn(th: Thread) {
    && th.summarized <= |th.messages|
    && (th.summarized < |th.messages| ==> th.messages[th.summarized].Human?)
  }

  lemma TakeKeeps(th: Thread, t: Turn)
    requires AtTurn(th) && WellFormed(t)
    ensures AtTurn(Take(th, t)) && th.summarized <= Take(th, t).summarized
    ensures Take(th, t).summarized == th.summarized || th.summarized + BATCH <= Take(th, t).summarized
  {
    var asked := th.messages + [Human(t.human)] + t.appended;
    assert asked[th.summarized].Human?;
    var noticed := Noticed(asked, t.reply);
    assert forall k | 0 <= k < |asked| :: noticed[k].Human? <==> asked[k].Human?;
  }

  /** Over any run of turns, whatever fails: the summary never goes back, never passes the end, and
      always ends where a turn begins. */
  lemma {:induction false} SummaryMovesByTurns(turns: seq<Turn>, n: nat)
    requires n <= |turns| && forall t | t in turns :: WellFormed(t)
    ensures AtTurn(Play(turns)) && Play(turns[..n]).summarized <= Play(turns).summarized
  {
    if n == |turns| {
      assert turns[..n] == turns;
    }
    if turns != [] {
      var k := |turns| - 1;
      assert turns[k] in turns && forall t | t in turns[..k] :: t in turns;
      SummaryMovesByTurns(turns[..k], if n <= k then n else k);
      if n <= k { assert turns[..k][..n] == turns[..n]; }
      TakeKeeps(Play(turns[..k]), turns[k]);
    }
  }

  lemma WindowIsSmall(ms: seq<Message>, window: nat)
    ensures WindowStart(ms, window) <= |ms| && |ms| - WindowStart(ms, window) <= window
  {
  }

  /** After a turn that ended and whose compaction, if called for, succeeded, fewer messages are left
      uncovered than the model can be shown. */
  lemma FewUncovered(th: Thread, t: Turn)
    requires AtTurn(th) && WellFormed(t) && t.finished && t.compacts
    ensures |Take(th, t).messages| - Take(th, t).summarized < HISTORY_MESSAGES + BATCH
  {
    TakeKeeps(th, t);
    var noticed := Noticed(th.messages + [Human(t.human)] + t.appended, t.reply);
    WindowIsSmall(noticed, HISTORY_MESSAGES);
  }

  /** The model's first call of a turn: the investor's message is the last. */
  function Asked(th: Thread, human: string): Thread {
    th.(messages := th.messages + [Human(human)])
  }

  /** At the first call of a turn, what is shown of the messages after the summary is all of them,
      as `answered` shows them, exactly when they fit the window: counting one failure result for
      each call that was never answered, and leaving the empty replies out. */
  lemma ShownIsEverything(th: Thread, human: string)
    requires AtTurn(th)
    ensures
      var uncovered := th.messages[th.summarized..] + [Human(human)];
      ShownOf(Asked(th, human)) == Answered(uncovered)
      <==> |Kept(uncovered)| + Unanswered(uncovered) <= HISTORY_MESSAGES + BATCH
  {
    var asked := Asked(th, human);
    var uncovered := th.messages[th.summarized..] + [Human(human)];
    assert asked.messages[asked.summarized..] == uncovered;
    assert uncovered[0].Human?;
    var shown := Answered(uncovered);
    var _ := NothingElseChanges(uncovered);
    Unfold(uncovered);
    assert shown[0].Human?;
    RecentCutsNothing(shown, HISTORY_MESSAGES + BATCH);
  }

  lemma {:induction false} KeptIsShorter(ms: seq<Message>)
    ensures |Kept(ms)| <= |ms|
  {
    if ms != [] { KeptIsShorter(ms[1..]); }
  }

  lemma {:induction false} CompleteHasNoneUnanswered(ms: seq<Message>)
    requires Complete(ms)
    ensures Unanswered(ms) == 0
  {
    if ms != [] {
      CompleteHasNoneUnanswered(ms[1..]);
      if ms[0].AI? { MissingShape(ms[0].calls, LeadIds(ms[1..])); }
    }
  }

  /** No message falls between summary and window: at the first call of the turn after one whose
      compaction did not fail, with every call answered, each message of the thread is covered by
      the summary or shown, empty replies aside. */
  lemma NothingFallsBetween(turns: seq<Turn>, human: string)
    requires turns != [] && forall t | t in turns :: WellFormed(t)
    requires turns[|turns| - 1].finished && turns[|turns| - 1].compacts
    requires
      var th := Play(turns);
      th.summarized <= |th.messages| ==> Complete(th.messages[th.summarized..] + [Human(human)])
    ensures
      var th := Play(turns);
      && th.summarized <= |th.messages|
      && ShownOf(Asked(th, human)) == Kept(th.messages[th.summarized..] + [Human(human)])
  {
    var k := |turns| - 1;
    assert turns[k] in turns && forall t | t in turns[..k] :: t in turns;
    SummaryMovesByTurns(turns[..k], 0);
    SummaryMovesByTurns(turns, 0);
    FewUncovered(Play(turns[..k]), turns[k]);
    var th := Play(turns);
    var uncovered := th.messages[th.summarized..] + [Human(human)];
    KeptIsShorter(uncovered);
    CompleteHasNoneUnanswered(uncovered);
    CompleteIsKept(uncovered);
    ShownIsEverything(th, human);
  }
}
