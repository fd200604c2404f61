/** The chat history as the model is shown it (services/agent/src/graph/history.py). */
module History {
  import opened Wrappers

  datatype CallRef = CallRef(id: string, name: string)

  datatype Message =
    | Human(text: string)
    | AI(text: string, calls: seq<CallRef>, reasoning: Option<string>)
    | Tool(id: string, name: string, text: string)

  const UNFINISHED := "failed: this tool call did not complete; tell the investor if it mattered"

  predicate Empty(m: Message) { m.AI? && m.calls == [] && m.text == "" }

  function WithoutReasoning(m: Message): Message {
    if m.AI? then m.(reasoning := None) else m
  }

  function Unfinished(call: CallRef): Message {
    Tool(call.id, "", UNFINISHED)
  }

  // ---------- What the loops compute ----------

  predicate HasHuman(ms: seq<Message>) {
    exists i :: 0 <= i < |ms| && ms[i].Human?
  }

  /** The results right at the start of `ms`. */
  function LeadIds(ms: seq<Message>): set<string> {
    if ms == [] || !ms[0].Tool? then {} else {ms[0].id} + LeadIds(ms[1..])
  }

  /** A failure result for each call without one. */
  function Missing(calls: seq<CallRef>, results: set<string>): seq<Message> {
    if calls == [] then []
    else (if calls[0].id in results then [] else [Unfinished(calls[0])]) + Missing(calls[1..], results)
  }

  /** The message itself, when `rest` follows it: of an earlier turn once a human message does. */
  function Head(m: Message, rest: seq<Message>): Message {
    if m.AI? && HasHuman(rest) then WithoutReasoning(m) else m
  }

  function Added(m: Message, rest: seq<Message>): seq<Message> {
    if m.AI? then Missing(m.calls, LeadIds(rest)) else []
  }

  function Shown(m: Message, rest: seq<Message>): seq<Message> {
    if Empty(m) then [] else [Head(m, rest)] + Added(m, rest)
  }

  function Answered(ms: seq<Message>): seq<Message> {
    if ms == [] then [] else Shown(ms[0], ms[1..]) + Answered(ms[1..])
  }

  /** Python's `ms[-limit:]`. */
  function LastOf(ms: seq<Message>, limit: nat): seq<Message> {
    if limit == 0 || limit >= |ms| then ms else ms[|ms| - limit..]
  }

  function FromHuman(ms: seq<Message>): seq<Message> {
    if ms == [] || ms[0].Human? then ms else FromHuman(ms[1..])
  }

  function DropTools(ms: seq<Message>): seq<Message> {
    if ms == [] || !ms[0].Tool? then ms else DropTools(ms[1..])
  }

  function Recent(ms: seq<Message>, limit: nat): seq<Message> {
    var window := LastOf(ms, limit);
    if HasHuman(window) then FromHuman(window) else DropTools(window)
  }

  // ---------- The loops ----------

  method ShowAnswered(ms: seq<Message>) returns (shown: seq<Message>)
    ensures shown == Answered(ms)
  {
    var turnStart := LatestHuman(ms);
    shown := [];
    var i := 0;
    assert ms[0..] == ms;
    while i < |ms|
      invariant 0 <= i <= |ms|
      invariant shown + Answered(ms[i..]) == Answered(ms)
    {
      var more := ShowOne(ms, turnStart, i);
      AnsweredOn(shown, ms, i);
      shown := shown + more;
      i := i + 1;
    }
    assert ms[i..] == [];
  }

  /** What is shown for one message. */
  method ShowOne(ms: seq<Message>, turnStart: nat, i: nat) returns (shown: seq<Message>)
    requires i < |ms| && TurnStart(ms, turnStart)
    ensures shown == Shown(ms[i], ms[i + 1..])
  {
    var m := ms[i];
    if Empty(m) { return []; }
    TurnStarts(ms, turnStart, i);
    shown := [if m.AI? && i < turnStart then WithoutReasoning(m) else m];
    if m.AI? && m.calls != [] {
      var results := ResultsAfter(ms, i + 1);
      shown := shown + Missing(m.calls, results);
    }
  }

  lemma AnsweredOn(before: seq<Message>, ms: seq<Message>, i: nat)
    requires i < |ms|
    ensures before + Answered(ms[i..]) == before + Shown(ms[i], ms[i + 1..]) + Answered(ms[i + 1..])
  {
    assert ms[i..][1..] == ms[i + 1..];
    KeptTogether(before, Shown(ms[i], ms[i + 1..]), Answered(ms[i + 1..]));
  }

  method LatestHuman(ms: seq<Message>) returns (t: nat)
    ensures TurnStart(ms, t)
  {
    t := 0;
    for i := 0 to |ms|
      invariant forall k | t < k < i :: !ms[k].Human?
      invariant t == 0 || (t < i && ms[t].Human?)
    {
      if ms[i].Human? { t := i; }
    }
  }

  /** The latest human message starts the turn. */
  ghost predicate TurnStart(ms: seq<Message>, t: nat) {
    && (forall k | t < k < |ms| :: !ms[k].Human?)
    && (t == 0 || (t < |ms| && ms[t].Human?))
  }

  lemma TurnStarts(ms: seq<Message>, t: nat, i: nat)
    requires TurnStart(ms, t) && i < |ms|
    ensures i < t <==> HasHuman(ms[i + 1..])
  {
    if i < t { assert ms[i + 1..][t - (i + 1)].Human?; }
  }

  method ResultsAfter(ms: seq<Message>, from: nat) returns (results: set<string>)
    requires from <= |ms|
    ensures results == LeadIds(ms[from..])
  {
    results := {};
    var i := from;
    while i < |ms| && ms[i].Tool?
      invariant from <= i <= |ms|
      invariant results + LeadIds(ms[i..]) == LeadIds(ms[from..])
    {
      assert ms[i..][1..] == ms[i + 1..];
      results := results + {ms[i].id};
      i := i + 1;
    }
  }

  method ShowRecent(ms: seq<Message>, limit: nat) returns (shown: seq<Message>)
    ensures shown == Recent(ms, limit)
  {
    var window := LastOf(ms, limit);
    var i := 0;
    assert window[0..] == window;
    while i < |window|
      invariant 0 <= i <= |window|
      invariant FromHuman(window[i..]) == FromHuman(window)
      invariant forall k | 0 <= k < i :: !window[k].Human?
    {
      if window[i].Human? {
        return window[i..];
      }
      assert window[i..][1..] == window[i + 1..];
      i := i + 1;
    }
    var start := 0;
    while start < |window| && window[start].Tool?
      invariant 0 <= start <= |window|
      invariant DropTools(window[start..]) == DropTools(window)
    {
      assert window[start..][1..] == window[start + 1..];
      start := start + 1;
    }
    shown := window[start..];
  }

  // ---------- Every call answered ----------

  /** Every call has a result among the tool messages right after it. */
  ghost predicate Complete(ms: seq<Message>) {
    ms == [] || ((ms[0].AI? ==> forall c | c in ms[0].calls :: c.id in LeadIds(ms[1..])) && Complete(ms[1..]))
  }

  /** The non-empty messages, in order, without the reasoning of earlier turns. */
  function Kept(ms: seq<Message>): seq<Message> {
    if ms == [] then []
    else
      (if Empty(ms[0]) then [] else [Head(ms[0], ms[1..])]) + Kept(ms[1..])
  }

  /** How many calls have no result right after them. */
  function Unanswered(ms: seq<Message>): nat {
    if ms == [] then 0
    else |Added(ms[0], ms[1..])| + Unanswered(ms[1..])
  }

  ghost predicate Subsequence(x: seq<Message>, y: seq<Message>)
    decreases |y|
  {
    x == [] || (y != [] && ((x[0] == y[0] && Subsequence(x[1..], y[1..])) || Subsequence(x, y[1..])))
  }

  lemma Unfold(ms: seq<Message>)
    requires ms != []
    ensures Empty(ms[0]) ==> Answered(ms) == Answered(ms[1..]) && Kept(ms) == Kept(ms[1..])
    ensures !Empty(ms[0]) ==>
      && Answered(ms) == [Head(ms[0], ms[1..])] + (Added(ms[0], ms[1..]) + Answered(ms[1..]))
      && Kept(ms) == [Head(ms[0], ms[1..])] + Kept(ms[1..])
    ensures forall x | x in Added(ms[0], ms[1..]) :: x.Tool? && x.text == UNFINISHED
  {
    if ms[0].AI? { MissingShape(ms[0].calls, LeadIds(ms[1..])); }
  }

  lemma {:induction false} MissingShape(calls: seq<CallRef>, results: set<string>)
    ensures forall m | m in Missing(calls, results) ::
      m.Tool? && m.text == UNFINISHED && exists c :: c in calls && c.id == m.id
    ensures Missing(calls, results) == [] <==> forall c | c in calls :: c.id in results
  {
    if calls != [] { MissingShape(calls[1..], results); }
  }

  lemma {:induction false} MissingIds(calls: seq<CallRef>, results: set<string>, rest: seq<Message>)
    ensures forall c | c in calls :: c.id in results || c.id in LeadIds(Missing(calls, results) + rest)
    ensures LeadIds(rest) <= LeadIds(Missing(calls, results) + rest)
  {
    if calls != [] {
      MissingIds(calls[1..], results, rest);
      var more := Missing(calls[1..], results) + rest;
      if calls[0].id in results {
        assert Missing(calls, results) + rest == more;
      } else {
        assert Missing(calls, results) + rest == [Unfinished(calls[0])] + more;
        assert ([Unfinished(calls[0])] + more)[1..] == more;
      }
    } else {
      assert Missing(calls, results) + rest == rest;
    }
  }

  lemma ToolStays(ms: seq<Message>)
    requires ms != [] && ms[0].Tool?
    ensures Answered(ms) == [ms[0]] + Answered(ms[1..])
  {
    assert Shown(ms[0], ms[1..]) == [ms[0]];
  }

  lemma LeadOf(m: Message, rest: seq<Message>)
    requires m.Tool?
    ensures LeadIds([m] + rest) == {m.id} + LeadIds(rest)
  {
    assert ([m] + rest)[1..] == rest;
  }

  lemma {:induction false} LeadKept(ms: seq<Message>)
    ensures LeadIds(ms) <= LeadIds(Answered(ms))
  {
    if ms != [] && ms[0].Tool? {
      LeadKept(ms[1..]);
      ToolStays(ms);
      LeadOf(ms[0], Answered(ms[1..]));
    }
  }

  lemma CompleteCons(m: Message, rest: seq<Message>)
    requires Complete(rest) && (m.AI? ==> forall c | c in m.calls :: c.id in LeadIds(rest))
    ensures Complete([m] + rest)
  {
    assert ([m] + rest)[1..] == rest;
  }

  lemma {:induction false} CompleteAppend(tools: seq<Message>, rest: seq<Message>)
    requires (forall m | m in tools :: m.Tool?) && Complete(rest)
    ensures Complete(tools + rest)
  {
    if tools == [] {
      assert tools + rest == rest;
    } else {
      CompleteAppend(tools[1..], rest);
      assert tools[0] in tools;
      CompleteCons(tools[0], tools[1..] + rest);
      assert tools + rest == [tools[0]] + (tools[1..] + rest);
    }
  }

  /** After `answered`, every call has a result right after it. */
  lemma {:induction false} AnsweredIsComplete(ms: seq<Message>)
    ensures Complete(Answered(ms))
  {
    if ms != [] {
      var m, rest := ms[0], ms[1..];
      AnsweredIsComplete(rest);
      Unfold(ms);
      CompleteAppend(Added(m, rest), Answered(rest));
      if m.AI? {
        LeadKept(rest);
        MissingIds(m.calls, LeadIds(rest), Answered(rest));
      }
      CompleteCons(Head(m, rest), Added(m, rest) + Answered(rest));
    }
  }

  /** On a complete history nothing is added: what is shown is the non-empty messages. */
  lemma {:induction false} CompleteIsKept(ms: seq<Message>)
    requires Complete(ms)
    ensures Answered(ms) == Kept(ms)
  {
    if ms != [] {
      CompleteIsKept(ms[1..]);
      if ms[0].AI? { MissingShape(ms[0].calls, LeadIds(ms[1..])); }
    }
  }

  /** A history is settled once it holds no empty reply and no reasoning of an earlier turn. */
  ghost predicate Settled(ms: seq<Message>) {
    ms == [] || (!Empty(ms[0]) && (ms[0].AI? && HasHuman(ms[1..]) ==> ms[0].reasoning.None?) && Settled(ms[1..]))
  }

  lemma {:induction false} SettledIsKept(ms: seq<Message>)
    requires Settled(ms)
    ensures Kept(ms) == ms
  {
    if ms != [] { SettledIsKept(ms[1..]); }
  }

  lemma {:induction false} AnsweredHumans(ms: seq<Message>)
    ensures HasHuman(Answered(ms)) <==> HasHuman(ms)
  {
    if ms != [] {
      AnsweredHumans(ms[1..]);
      var shown, more := Shown(ms[0], ms[1..]), Answered(ms[1..]);
      if ms[0].AI? { MissingShape(ms[0].calls, LeadIds(ms[1..])); }
      assert ms == [ms[0]] + ms[1..];
      HumansOfTwo([ms[0]], ms[1..]);
      HumansOfTwo(shown, more);
      if ms[0].Human? { assert shown[0].Human?; }
    }
  }

  lemma HumansOfTwo(x: seq<Message>, y: seq<Message>)
    ensures HasHuman(x + y) <==> HasHuman(x) || HasHuman(y)
  {
    if HasHuman(x) {
      var i :| 0 <= i < |x| && x[i].Human?;
      assert (x + y)[i].Human?;
    }
    if HasHuman(y) {
      var i :| 0 <= i < |y| && y[i].Human?;
      assert (x + y)[|x| + i].Human?;
    }
  }

  lemma SettledCons(m: Message, rest: seq<Message>)
    requires Settled(rest) && !Empty(m) && (m.AI? && HasHuman(rest) ==> m.reasoning.None?)
    ensures Settled([m] + rest)
  {
    assert ([m] + rest)[1..] == rest;
  }

  lemma {:induction false} SettledAppend(tools: seq<Message>, rest: seq<Message>)
    requires (forall m | m in tools :: m.Tool?) && Settled(rest)
    ensures Settled(tools + rest)
  {
    if tools == [] {
      assert tools + rest == rest;
    } else {
      SettledAppend(tools[1..], rest);
      assert tools[0] in tools;
      SettledCons(tools[0], tools[1..] + rest);
      assert tools + rest == [tools[0]] + (tools[1..] + rest);
    }
  }

  lemma {:induction false} AnsweredIsSettled(ms: seq<Message>)
    ensures Settled(Answered(ms))
  {
    if ms != [] {
      var m, rest := ms[0], ms[1..];
      AnsweredIsSettled(rest);
      Unfold(ms);
      SettledAppend(Added(m, rest), Answered(rest));
      AnsweredHumans(rest);
      HumansOfTwo(Added(m, rest), Answered(rest));
      if !Empty(m) { SettledCons(Head(m, rest), Added(m, rest) + Answered(rest)); }
    }
  }

  /** `answered` is idempotent. */
  lemma AnsweredTwice(ms: seq<Message>)
    ensures Answered(Answered(ms)) == Answered(ms)
  {
    AnsweredIsComplete(ms);
    CompleteIsKept(Answered(ms));
    AnsweredIsSettled(ms);
    SettledIsKept(Answered(ms));
  }

  lemma {:induction false} SubsequenceLater(x: seq<Message>, more: seq<Message>, y: seq<Message>)
    requires Subsequence(x, y)
    ensures Subsequence(x, more + y)
  {
    if more == [] {
      assert more + y == y;
    } else {
      SubsequenceLater(x, more[1..], y);
      assert (more + y)[1..] == more[1..] + y;
    }
  }

  lemma SubsequenceCons(m: Message, x: seq<Message>, y: seq<Message>)
    requires Subsequence(x, y)
    ensures Subsequence([m] + x, [m] + y)
  {
    assert ([m] + x)[1..] == x && ([m] + y)[1..] == y;
  }

  lemma {:induction false} KeptInOrder(ms: seq<Message>)
    ensures Subsequence(Kept(ms), Answered(ms))
  {
    if ms != [] {
      var m, rest := ms[0], ms[1..];
      KeptInOrder(rest);
      Unfold(ms);
      SubsequenceLater(Kept(rest), Added(m, rest), Answered(rest));
      if !Empty(m) { SubsequenceCons(Head(m, rest), Kept(rest), Added(m, rest) + Answered(rest)); }
    }
  }

  lemma {:induction false} AddedOnly(ms: seq<Message>) returns (added: seq<Message>)
    ensures multiset(Answered(ms)) == multiset(Kept(ms)) + multiset(added)
    ensures |added| == Unanswered(ms) && forall m | m in added :: m.Tool? && m.text == UNFINISHED
    ensures |Answered(ms)| == |Kept(ms)| + Unanswered(ms)
  {
    added := [];
    if ms != [] {
      var more := AddedOnly(ms[1..]);
      Unfold(ms);
      added := Added(ms[0], ms[1..]) + more;
    }
  }

  /** Every non-empty message is kept, in order; what is added is one failure result for each
      unanswered call and nothing else. */
  lemma NothingElseChanges(ms: seq<Message>) returns (added: seq<Message>)
    ensures Subsequence(Kept(ms), Answered(ms))
    ensures multiset(Answered(ms)) == multiset(Kept(ms)) + multiset(added)
    ensures |added| == Unanswered(ms) && forall m | m in added :: m.Tool? && m.text == UNFINISHED
    ensures |Answered(ms)| == |Kept(ms)| + Unanswered(ms)
  {
    KeptInOrder(ms);
    added := AddedOnly(ms);
  }

  // ---------- The window never opens on a result cut from its call ----------

  /** Each result follows its own call: only results stand between, or the call is in `open`. */
  ghost predicate Paired(ms: seq<Message>, open: set<string>) {
    if ms == [] then true
    else
      match ms[0]
      case Human(_) => Paired(ms[1..], {})
      case AI(_, calls, _) => Paired(ms[1..], set c | c in calls :: c.id)
      case Tool(id, _, _) => id in open && Paired(ms[1..], open)
  }

  lemma {:induction false} PairedMore(ms: seq<Message>, open: set<string>, more: set<string>)
    requires Paired(ms, open) && open <= more
    ensures Paired(ms, more)
  {
    if ms != [] && ms[0].Tool? { PairedMore(ms[1..], open, more); }
  }

  lemma PairedCons(m: Message, rest: seq<Message>, open: set<string>)
    requires m.Human? ==> Paired(rest, {})
    requires m.AI? ==> Paired(rest, set c | c in m.calls :: c.id)
    requires m.Tool? ==> m.id in open && Paired(rest, open)
    ensures Paired([m] + rest, open)
  {
    assert ([m] + rest)[1..] == rest;
  }

  lemma {:induction false} PairedAppend(tools: seq<Message>, rest: seq<Message>, open: set<string>)
    requires (forall m | m in tools :: m.Tool? && m.id in open) && Paired(rest, open)
    ensures Paired(tools + rest, open)
  {
    if tools == [] {
      assert tools + rest == rest;
    } else {
      PairedAppend(tools[1..], rest, open);
      assert tools[0] in tools;
      PairedCons(tools[0], tools[1..] + rest, open);
      assert tools + rest == [tools[0]] + (tools[1..] + rest);
    }
  }

  lemma {:induction false} AnsweredIsPaired(ms: seq<Message>, open: set<string>)
    requires Paired(ms, open)
    ensures Paired(Answered(ms), open)
  {
    if ms != [] {
      var m, rest := ms[0], ms[1..];
      Unfold(ms);
      if m.AI? {
        var ids := set c | c in m.calls :: c.id;
        AnsweredIsPaired(rest, ids);
        if Empty(m) {
          PairedMore(Answered(rest), ids, open);
        } else {
          MissingShape(m.calls, LeadIds(rest));
          PairedAppend(Added(m, rest), Answered(rest), ids);
          PairedCons(Head(m, rest), Added(m, rest) + Answered(rest), open);
        }
      } else {
        AnsweredIsPaired(rest, if m.Human? then {} else open);
        assert Added(m, rest) + Answered(rest) == Answered(rest);
        PairedCons(m, Answered(rest), open);
      }
    }
  }

  lemma {:induction false} PairedSuffix(ms: seq<Message>, open: set<string>, k: nat) returns (left: set<string>)
    requires Paired(ms, open) && k <= |ms|
    ensures Paired(ms[k..], left)
  {
    if k == 0 {
      left := open;
      assert ms[0..] == ms;
    } else {
      var next := match ms[0] case Human(_) => {} case AI(_, calls, _) => (set c | c in calls :: c.id) case _ => open;
      left := PairedSuffix(ms[1..], next, k - 1);
      assert ms[1..][k - 1..] == ms[k..];
    }
  }

  lemma {:induction false} HumanStart(ms: seq<Message>) returns (k: nat)
    ensures k <= |ms| && FromHuman(ms) == ms[k..] && (HasHuman(ms) ==> k < |ms| && ms[k].Human?)
  {
    if ms == [] || ms[0].Human? {
      k := 0;
    } else {
      assert ms == [ms[0]] + ms[1..];
      HumansOfTwo([ms[0]], ms[1..]);
      k := HumanStart(ms[1..]);
      k := k + 1;
      assert ms[1..][k - 1..] == ms[k..];
    }
  }

  lemma {:induction false} ToolEnd(ms: seq<Message>) returns (k: nat)
    ensures k <= |ms| && DropTools(ms) == ms[k..] && (k < |ms| ==> !ms[k].Tool?)
  {
    if ms == [] || !ms[0].Tool? {
      k := 0;
    } else {
      k := ToolEnd(ms[1..]);
      k := k + 1;
      assert ms[1..][k - 1..] == ms[k..];
    }
  }

  /** The window is a suffix of at most `limit` messages, wherever it cuts. */
  lemma RecentIsSuffix(ms: seq<Message>, limit: nat) returns (k: nat)
    requires limit > 0
    ensures k <= |ms| && Recent(ms, limit) == ms[k..] && |ms| - k <= limit
    ensures k < |ms| ==> !ms[k].Tool?
  {
    var window := LastOf(ms, limit);
    var cut := |ms| - |window|;
    assert window == ms[cut..];
    if HasHuman(window) { k := HumanStart(window); } else { k := ToolEnd(window); }
    assert window[k..] == ms[cut + k..];
    k := cut + k;
  }

  lemma OfWindow(window: seq<Message>) returns (k: nat)
    ensures k <= |window|
    ensures (if HasHuman(window) then FromHuman(window) else DropTools(window)) == window[k..]
    ensures if exists i :: 0 <= i < |window| && window[i].Human? then
              k < |window| && window[k].Human? && forall i | 0 <= i < k :: !window[i].Human?
            else (k < |window| ==> !window[k].Tool?) && forall i | 0 <= i < k :: window[i].Tool?
  {
    if HasHuman(window) { k := FirstOfInvestor(window); } else { k := LeadingResults(window); }
  }

  /** The window exactly: of the last `limit` messages, those from the first of the investor on; with none
      of the investor's, all but the tool results they open with. */
  lemma RecentExactly(ms: seq<Message>, limit: nat) returns (window: seq<Message>, k: nat)
    requires limit > 0
    ensures window == ms[if |ms| > limit then |ms| - limit else 0..]
    ensures k <= |window| && Recent(ms, limit) == window[k..]
    ensures if exists i :: 0 <= i < |window| && window[i].Human? then
              k < |window| && window[k].Human? && forall i | 0 <= i < k :: !window[i].Human?
            else (k < |window| ==> !window[k].Tool?) && forall i | 0 <= i < k :: window[i].Tool?
  {
    window := LastOf(ms, limit);
    k := OfWindow(window);
  }

  lemma {:induction false} FirstOfInvestor(ms: seq<Message>) returns (k: nat)
    requires HasHuman(ms)
    ensures k < |ms| && FromHuman(ms) == ms[k..] && ms[k].Human? && forall i | 0 <= i < k :: !ms[i].Human?
  {
    if ms[0].Human? {
      k := 0;
    } else {
      assert ms == [ms[0]] + ms[1..];
      HumansOfTwo([ms[0]], ms[1..]);
      var n := FirstOfInvestor(ms[1..]);
      k := n + 1;
      assert ms[1..][n..] == ms[k..];
      assert forall i | 0 < i < k :: ms[i] == ms[1..][i - 1];
    }
  }

  lemma {:induction false} LeadingResults(ms: seq<Message>) returns (k: nat)
    ensures k <= |ms| && DropTools(ms) == ms[k..] && (k < |ms| ==> !ms[k].Tool?)
    ensures forall i | 0 <= i < k :: ms[i].Tool?
  {
    if ms == [] || !ms[0].Tool? {
      k := 0;
    } else {
      var n := LeadingResults(ms[1..]);
      k := n + 1;
      assert ms[1..][n..] == ms[k..];
      assert forall i | 0 < i < k :: ms[i] == ms[1..][i - 1];
    }
  }

  // ---------- What is kept, and how ----------

  /** All messages but replies without text or calls. */
  function NotBlank(ms: seq<Message>): seq<Message> {
    if ms == [] then []
    else (if ms[0].AI? && ms[0].text == "" && ms[0].calls == [] then [] else [ms[0]]) + NotBlank(ms[1..])
  }

  function Unreasoned(ms: seq<Message>): seq<Message> {
    if ms == [] then []
    else [if ms[0].AI? then AI(ms[0].text, ms[0].calls, None) else ms[0]] + Unreasoned(ms[1..])
  }

  lemma {:induction false} TurnKept(ms: seq<Message>)
    requires forall m | m in ms :: !m.Human?
    ensures Kept(ms) == NotBlank(ms)
  {
    if ms != [] {
      assert forall m | m in ms[1..] :: m in ms;
      TurnKept(ms[1..]);
    }
  }

  /** One message of an earlier turn. */
  lemma EarlierFirst(m: Message, rest: seq<Message>, more: seq<Message>)
    requires HasHuman(rest)
    ensures
      var blank := m.AI? && m.text == "" && m.calls == [];
      && Kept([m] + rest) ==
           (if blank then [] else [if m.AI? then AI(m.text, m.calls, None) else m]) + Kept(rest)
      && NotBlank([m] + more) == (if blank then [] else [m]) + NotBlank(more)
  {
    assert ([m] + rest)[1..] == rest && ([m] + more)[1..] == more;
  }

  lemma UnreasonedFirst(m: Message, more: seq<Message>)
    ensures Unreasoned([m] + more) == [if m.AI? then AI(m.text, m.calls, None) else m] + Unreasoned(more)
  {
    assert ([m] + more)[1..] == more;
  }

  lemma LatestKept(turn: seq<Message>)
    requires turn != [] && turn[0].Human? && forall i | 0 < i < |turn| :: !turn[i].Human?
    ensures Kept(turn) == NotBlank(turn)
  {
    TurnKept(turn[1..]);
  }

  ghost predicate KeptAs(all: seq<Message>, earlier: seq<Message>, turn: seq<Message>) {
    Kept(all) == Unreasoned(NotBlank(earlier)) + NotBlank(turn)
  }

  lemma KeptTogether(x: seq<Message>, y: seq<Message>, z: seq<Message>)
    ensures x + (y + z) == x + y + z
  {
  }

  lemma NothingFirst(x: seq<Message>)
    ensures [] + x == x
  {
  }

  lemma EarlierStep(m: Message, more: seq<Message>, rest: seq<Message>, turn: seq<Message>)
    requires KeptAs(rest, more, turn) && HasHuman(rest)
    ensures KeptAs([m] + rest, [m] + more, turn)
  {
    EarlierFirst(m, rest, more);
    UnreasonedFirst(m, NotBlank(more));
    KeptTogether([if m.AI? then AI(m.text, m.calls, None) else m], Unreasoned(NotBlank(more)), NotBlank(turn));
    NothingFirst(Kept(rest));
    NothingFirst(NotBlank(more));
  }

  lemma {:induction false} EarlierKept(all: seq<Message>, earlier: seq<Message>, turn: seq<Message>)
    requires turn != [] && turn[0].Human? && forall i | 0 < i < |turn| :: !turn[i].Human?
    requires all == earlier + turn
    ensures KeptAs(all, earlier, turn)
    decreases |earlier|
  {
    if earlier == [] {
      assert all == turn;
      LatestKept(turn);
      NothingFirst(NotBlank(turn));
      assert Unreasoned(NotBlank(earlier)) == [];
    } else {
      var m, more, rest := earlier[0], earlier[1..], all[1..];
      assert rest == more + turn && rest[|more|].Human?;
      EarlierKept(rest, more, turn);
      EarlierStep(m, more, rest, turn);
      assert [m] + rest == all && [m] + more == earlier;
    }
  }

  /** Blank replies aside, every message of the latest turn is kept as it is, and every earlier one without
      its reasoning. */
  lemma KeptIs(ms: seq<Message>, t: nat)
    requires t < |ms| && ms[t].Human? && forall i | t < i < |ms| :: !ms[i].Human?
    ensures Kept(ms) == Unreasoned(NotBlank(ms[..t])) + NotBlank(ms[t..])
  {
    EarlierKept(ms, ms[..t], ms[t..]);
  }

  /** With no message of the investor all but blank replies are kept as they are. */
  lemma KeptWithoutInvestor(ms: seq<Message>)
    requires forall m | m in ms :: !m.Human?
    ensures Kept(ms) == NotBlank(ms)
  {
    TurnKept(ms);
  }

  // ---------- The window ----------

  /** For a transcript whose results follow their calls, the window shown is a suffix of at most
      `limit` messages in which every result still follows its own call. */
  lemma WindowKeepsPairs(ms: seq<Message>, limit: nat) returns (k: nat)
    requires limit > 0 && Paired(ms, {})
    ensures
      var shown := Answered(ms);
      k <= |shown| && Recent(shown, limit) == shown[k..] && |shown| - k <= limit
    ensures Paired(Recent(Answered(ms), limit), {})
  {
    var shown := Answered(ms);
    AnsweredIsPaired(ms, {});
    k := RecentIsSuffix(shown, limit);
    var left := PairedSuffix(shown, {}, k);
  }

  /** A window that opens at a human message cuts nothing exactly when everything fits. */
  lemma RecentCutsNothing(ms: seq<Message>, limit: nat)
    requires limit > 0 && ms != [] && ms[0].Human?
    ensures Recent(ms, limit) == ms <==> |ms| <= limit
  {
    if |ms| <= limit {
      assert LastOf(ms, limit) == ms;
      assert HasHuman(ms);
    } else {
      var k := RecentIsSuffix(ms, limit);
    }
  }
}
